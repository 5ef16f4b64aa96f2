/**
  The per-client limiter under concurrent calls and cleanup. A call is not atomic: it reads the clock for its stamp,
  looks its entry up or makes one, stores the stamp, and takes a token at a later reading of the clock; the cleanup
  reads its cutoff, then checks and removes entries one by one. Any of these steps interleave.
 */
module LimiterRuns {
  import opened Common
  import L = Limiter
  import T = TokenBucket

  datatype Config = Config(rate: real, burst: int)

  /** What `New` accepts. */
  predicate Proper(c: Config) {
    c.rate > 0.0 && c.burst >= 1
  }

  /** An entry object; of `seen` the code keeps the whole second. */
  datatype Entry = Entry(client: string, bucket: T.State, seen: real)

  /** Where a call stands; `stamp` is the instant at which it read the clock first. */
  datatype Phase =
    | Entered
    | Stamped(stamp: real)
    | Missing(stamp: real)
    | Made(stamp: real, bucket: T.State)
    | Holding(stamp: real, entry: nat)
    | Marked(stamp: real, entry: nat)
    | Over

  datatype Call = Call(client: string, phase: Phase)

  /** The one cleanup loop; a condemned client's entry was found stale and is about to be removed. */
  datatype Sweep = Resting | Sweeping(cutoff: int) | Condemned(cutoff: int, client: string)

  datatype Event = Took(client: string, entry: nat, at: real, ok: bool) | Removed(client: string)

  datatype State = State(
    entries: seq<Entry>,
    table: map<string, nat>,
    calls: seq<Call>,
    sweep: Sweep,
    log: seq<Event>,
    now: real)

  datatype Action =
    | Arrive(client: string)
    | Step(call: nat)
    | BeginSweep
    | Check(client: string)
    | Remove
    | EndSweep
    | Wait(seconds: real)

  predicate InFlight(p: Phase) {
    !p.Entered? && !p.Over?
  }

  predicate Holds(p: Phase) {
    p.Holding? || p.Marked?
  }

  /** The table and the calls name entries of their own clients. */
  ghost predicate Linked(t: State) {
    && (forall u :: u in t.table ==> t.table[u] < |t.entries| && t.entries[t.table[u]].client == u)
    && (forall i :: 0 <= i < |t.calls| && Holds(t.calls[i].phase) ==>
          t.calls[i].phase.entry < |t.entries| && t.entries[t.calls[i].phase.entry].client == t.calls[i].client)
  }

  function Begin(now: real): State {
    State([], map[], [], Resting, [], now)
  }

  /** LoadOrStore: the entry that is there, or else the one the call made. */
  function Stored(t: State, client: string, stamp: real, bucket: T.State): (State, nat) {
    if client in t.table then (t, t.table[client])
    else
      (t.(entries := t.entries + [Entry(client, bucket, stamp)], table := t.table[client := |t.entries|]), |t.entries|)
  }

  function SetPhase(t: State, i: nat, p: Phase): State
    requires i < |t.calls|
  {
    t.(calls := t.calls[i := t.calls[i].(phase := p)])
  }

  /** One step of a call. */
  function Moved(c: Config, t: State, i: nat): State
    requires i < |t.calls| && (Holds(t.calls[i].phase) ==> t.calls[i].phase.entry < |t.entries|)
  {
    var client := t.calls[i].client;
    match t.calls[i].phase
    case Entered => SetPhase(t, i, Stamped(t.now))
    case Stamped(stamp) =>
      SetPhase(t, i, if client in t.table then Holding(stamp, t.table[client]) else Missing(stamp))
    case Missing(stamp) => SetPhase(t, i, Made(stamp, T.New(c.rate, c.burst, t.now)))
    case Made(stamp, bucket) =>
      var (t', e) := Stored(t, client, stamp, bucket);
      SetPhase(t', i, Holding(stamp, e))
    case Holding(stamp, e) =>
      SetPhase(t.(entries := t.entries[e := t.entries[e].(seen := stamp)]), i, Marked(stamp, e))
    case Marked(stamp, e) =>
      var (bucket, ok) := T.Allow(t.entries[e].bucket, t.now);
      SetPhase(t.(entries := t.entries[e := t.entries[e].(bucket := bucket)],
                  log := t.log + [Took(client, e, t.now, ok)]), i, Over)
    case Over => t
  }

  /** An action that cannot happen leaves everything as it is. */
  function Next(c: Config, t: State, a: Action): State
    requires Linked(t)
  {
    match a
    case Arrive(client) => t.(calls := t.calls + [Call(client, Entered)])
    case Step(i) => if i < |t.calls| then Moved(c, t, i) else t
    case BeginSweep =>
      if t.sweep.Resting? then t.(sweep := Sweeping((t.now - L.IDLE_SECONDS).Floor)) else t
    case Check(client) =>
      if t.sweep.Sweeping? && client in t.table && t.entries[t.table[client]].seen.Floor < t.sweep.cutoff
      then t.(sweep := Condemned(t.sweep.cutoff, client)) else t
    case Remove =>
      if t.sweep.Condemned? then
        t.(sweep := Sweeping(t.sweep.cutoff),
           table := t.table - {t.sweep.client},
           log := t.log + [Removed(t.sweep.client)])
      else t
    case EndSweep => if t.sweep.Sweeping? then t.(sweep := Resting) else t
    case Wait(seconds) => if seconds >= 0.0 then t.(now := t.now + seconds) else t
  }

  lemma PhaseLinked(t: State, i: nat, p: Phase)
    requires Linked(t) && i < |t.calls|
    requires Holds(p) ==> p.entry < |t.entries| && t.entries[p.entry].client == t.calls[i].client
    ensures Linked(SetPhase(t, i, p))
  {
  }

  lemma EntryLinked(t: State, e: nat, entry: Entry, log: seq<Event>)
    requires Linked(t) && e < |t.entries| && entry.client == t.entries[e].client
    ensures Linked(t.(entries := t.entries[e := entry], log := log))
  {
  }

  lemma StoredLinked(t: State, client: string, stamp: real, bucket: T.State)
    requires Linked(t)
    ensures var (t', e) := Stored(t, client, stamp, bucket);
      Linked(t') && t'.calls == t.calls && e < |t'.entries| && t'.entries[e].client == client
  {
  }

  lemma MovedLinked(c: Config, t: State, i: nat)
    requires Linked(t) && i < |t.calls| && (Holds(t.calls[i].phase) ==> t.calls[i].phase.entry < |t.entries|)
    ensures Linked(Moved(c, t, i))
  {
    hide T.Allow, T.New, Linked, SetPhase, Stored;
    HeldLinked(t, i);
    var client := t.calls[i].client;
    match t.calls[i].phase {
      case Entered => PhaseLinked(t, i, Stamped(t.now));
      case Stamped(stamp) =>
        FoundLinked(t, client);
        PhaseLinked(t, i, if client in t.table then Holding(stamp, t.table[client]) else Missing(stamp));
      case Missing(stamp) => PhaseLinked(t, i, Made(stamp, T.New(c.rate, c.burst, t.now)));
      case Made(stamp, bucket) =>
        StoredLinked(t, client, stamp, bucket);
        PhaseLinked(Stored(t, client, stamp, bucket).0, i, Holding(stamp, Stored(t, client, stamp, bucket).1));
      case Holding(stamp, e) =>
        EntryLinked(t, e, t.entries[e].(seen := stamp), t.log);
        PhaseLinked(t.(entries := t.entries[e := t.entries[e].(seen := stamp)]), i, Marked(stamp, e));
      case Marked(stamp, e) =>
        var (bucket, ok) := T.Allow(t.entries[e].bucket, t.now);
        var log := t.log + [Took(client, e, t.now, ok)];
        EntryLinked(t, e, t.entries[e].(bucket := bucket), log);
        PhaseLinked(t.(entries := t.entries[e := t.entries[e].(bucket := bucket)], log := log), i, Over);
      case Over =>
    }
  }

  lemma HeldLinked(t: State, i: nat)
    requires Linked(t) && i < |t.calls|
    ensures Holds(t.calls[i].phase) ==>
      t.calls[i].phase.entry < |t.entries| && t.entries[t.calls[i].phase.entry].client == t.calls[i].client
  {
  }

  lemma FoundLinked(t: State, client: string)
    requires Linked(t)
    ensures client in t.table ==> t.table[client] < |t.entries| && t.entries[t.table[client]].client == client
  {
  }

  lemma NextLinked(c: Config, t: State, a: Action)
    requires Linked(t)
    ensures Linked(Next(c, t, a))
  {
    hide Moved;
    if a.Step? && a.call < |t.calls| { MovedLinked(c, t, a.call); }
  }

  /** The state after a run from the start. */
  function After(c: Config, start: real, actions: seq<Action>): (t: State)
    ensures Linked(t)
  {
    if actions == [] then Begin(start)
    else
      var t := After(c, start, actions[..|actions| - 1]);
      NextLinked(c, t, actions[|actions| - 1]);
      Next(c, t, actions[|actions| - 1])
  }

  // ----- the bucket a client would have if it were never evicted

  /** It sees the takes of its client and nothing else, and is made at the first. */
  function Own(c: Config, log: seq<Event>, client: string): Option<T.State> {
    if log == [] then None
    else
      var own, e := Own(c, log[..|log| - 1], client), log[|log| - 1];
      if e.Took? && e.client == client then Some(T.Allow(Base(c, own, e.at), e.at).0) else own
  }

  function Base(c: Config, own: Option<T.State>, now: real): T.State {
    if own.Some? then own.value else T.New(c.rate, c.burst, now)
  }

  function OwnAnswer(c: Config, log: seq<Event>, client: string, at: real): bool {
    T.Allow(Base(c, Own(c, log, client), at), at).1
  }

  /** Every take was answered as that bucket would have answered it. */
  predicate Agrees(c: Config, log: seq<Event>) {
    log != [] ==>
      var front, e := log[..|log| - 1], log[|log| - 1];
      && Agrees(c, front)
      && (e.Took? ==> e.ok == OwnAnswer(c, front, e.client, e.at))
  }

  // ----- restrictions on runs

  /**
    No restriction; or no call is ever more than `d` seconds past its stamp, and none holds an entry when it is
    removed; or none holds it even from the check that finds it stale to its removal.
   */
  datatype Care = Any | Unheld(d: real) | Careful(d: real)

  ghost predicate Prompt(t: State, d: real) {
    forall i :: 0 <= i < |t.calls| && InFlight(t.calls[i].phase) ==> t.now <= t.calls[i].phase.stamp + d
  }

  ghost predicate HoldsFor(calls: seq<Call>, client: string) {
    exists i :: 0 <= i < |calls| && calls[i].client == client && Holds(calls[i].phase)
  }

  ghost predicate Undisturbed(t: State) {
    t.sweep.Condemned? ==> !HoldsFor(t.calls, t.sweep.client)
  }

  ghost predicate Fine(t: State, care: Care) {
    (care != Any ==> Prompt(t, care.d)) && (care.Careful? ==> Undisturbed(t))
  }

  ghost predicate MayHappen(t: State, a: Action, care: Care) {
    care.Unheld? && a.Remove? ==> Undisturbed(t)
  }

  /** The restriction holds at every point of the run. */
  ghost predicate Respects(c: Config, start: real, actions: seq<Action>, care: Care) {
    && Fine(After(c, start, actions), care)
    && (actions != [] ==>
          var front := actions[..|actions| - 1];
          Respects(c, start, front, care) && MayHappen(After(c, start, front), actions[|actions| - 1], care))
  }

  /** No run that respects the restriction tells the limiter from one that never evicts. */
  ghost predicate EvictionInvisible(c: Config, care: Care) {
    forall start, actions :: Respects(c, start, actions, care) ==> Agrees(c, After(c, start, actions).log)
  }

  // ----- every reachable state

  ghost predicate Fits(c: Config, b: T.State, now: real) {
    T.Valid(b) && b.max == c.burst as real && b.rate == c.rate && b.lastTime <= now
  }

  /** Buckets are valid, those made and not yet stored are full, and no stamp lies in the future. */
  ghost predicate Sound(c: Config, t: State) {
    && (forall e :: 0 <= e < |t.entries| ==> Fits(c, t.entries[e].bucket, t.now))
    && (forall i :: 0 <= i < |t.calls| && InFlight(t.calls[i].phase) ==> t.calls[i].phase.stamp <= t.now)
    && (forall i :: 0 <= i < |t.calls| && t.calls[i].phase.Made? ==>
          Fits(c, t.calls[i].phase.bucket, t.now) && t.calls[i].phase.bucket.tokens == c.burst as real)
  }

  lemma NewFits(c: Config, now: real)
    requires Proper(c)
    ensures Fits(c, T.New(c.rate, c.burst, now), now)
  {
  }

  lemma AllowFits(c: Config, b: T.State, now: real)
    requires Fits(c, b, now)
    ensures Fits(c, T.Allow(b, now).0, now) && T.Allow(b, now).0.lastTime == now
  {
    hide T.Refill;
    T.AllowKeepsValid(b, now);
    T.RefillKeeps(b, now);
  }

  lemma SoundStep(c: Config, t: State, a: Action)
    requires Proper(c) && Linked(t) && Sound(c, t)
    ensures Sound(c, Next(c, t, a))
  {
    hide T.Allow, T.New, T.Valid;
    NewFits(c, t.now);
    if a.Step? && a.call < |t.calls| && t.calls[a.call].phase.Marked? {
      AllowFits(c, t.entries[t.calls[a.call].phase.entry].bucket, t.now);
    }
    if a.Step? && a.call < |t.calls| && t.calls[a.call].phase.Missing? { NewIsFull(c, t.now); }
  }

  lemma NewIsFull(c: Config, now: real)
    ensures T.New(c.rate, c.burst, now).tokens == c.burst as real
  {
  }

  lemma {:induction false} AlwaysSound(c: Config, start: real, actions: seq<Action>)
    requires Proper(c)
    ensures Sound(c, After(c, start, actions))
  {
    hide Next, Sound;
    if actions == [] {
      NothingIsSound(c, start);
    } else {
      AlwaysSound(c, start, actions[..|actions| - 1]);
      SoundStep(c, After(c, start, actions[..|actions| - 1]), actions[|actions| - 1]);
    }
  }

  lemma NothingIsSound(c: Config, start: real)
    ensures Sound(c, Begin(start))
  {
  }
}
