/** When eviction cannot be noticed: the sufficient half, for every run that respects the restriction. */
module LimiterEviction {
  import opened Common
  import opened LimiterRuns
  import L = Limiter
  import T = TokenBucket

  // ----- buckets that refill to the same

  lemma RefillTwice(b: T.State, now: real, later: real)
    requires T.Valid(b) && b.lastTime <= now <= later
    ensures T.Refill(T.Refill(b, now), later) == T.Refill(b, later)
  {
    hide T.Flow;
    T.FlowAdds(b.rate, now - b.lastTime, later - now);
    assert now - b.lastTime + (later - now) == later - b.lastTime;
    T.FlowNonNegative(b.rate, later - now);
  }

  lemma RefillOfNew(c: Config, now: real)
    ensures T.Refill(T.New(c.rate, c.burst, now), now) == T.New(c.rate, c.burst, now)
  {
    assert now - now == 0.0;
  }

  /** Refilled now, the bucket holds its whole burst. */
  predicate IsFull(c: Config, b: T.State, now: real) {
    T.Refill(b, now) == T.New(c.rate, c.burst, now)
  }

  lemma FullLater(c: Config, b: T.State, now: real, later: real)
    requires Proper(c) && Fits(c, b, now) && IsFull(c, b, now) && now <= later
    ensures IsFull(c, b, later)
  {
    hide T.Refill, T.New;
    RefillTwice(b, now, later);
    NewLater(c, now, later);
  }

  lemma NewLater(c: Config, now: real, later: real)
    requires Proper(c) && now <= later
    ensures T.Refill(T.New(c.rate, c.burst, now), later) == T.New(c.rate, c.burst, later)
  {
    hide T.Flow;
    T.FlowNonNegative(c.rate, later - now);
  }

  lemma FullTokens(c: Config, b: T.State, now: real)
    requires Proper(c) && Fits(c, b, now) && b.tokens == c.burst as real
    ensures IsFull(c, b, now)
  {
    hide T.Flow;
    T.FlowNonNegative(c.rate, now - b.lastTime);
  }

  /** An idle time of more than 300 seconds less twice the delay fills the bucket. */
  lemma IdleFills(c: Config, b: T.State, now: real, d: real)
    requires Proper(c) && Fits(c, b, now) && now - b.lastTime >= L.IDLE_SECONDS - d - d
    requires c.burst as real <= T.Flow(c.rate, L.IDLE_SECONDS - d - d)
    ensures IsFull(c, b, now)
  {
    T.FlowAdds(c.rate, L.IDLE_SECONDS - d - d, now - b.lastTime - (L.IDLE_SECONDS - d - d));
    T.FlowNonNegative(c.rate, now - b.lastTime - (L.IDLE_SECONDS - d - d));
    assert L.IDLE_SECONDS - d - d + (now - b.lastTime - (L.IDLE_SECONDS - d - d)) == now - b.lastTime;
  }

  lemma AllowByRefill(b: T.State, b': T.State, now: real)
    requires T.Refill(b, now) == T.Refill(b', now)
    ensures T.Allow(b, now) == T.Allow(b', now)
  {
  }

  // ----- what ties a client's entry to its own bucket

  function OwnNow(c: Config, t: State, u: string): T.State {
    Base(c, Own(c, t.log, u), t.now)
  }

  ghost predicate HoldersShare(t: State, u: string) {
    forall i :: 0 <= i < |t.calls| && t.calls[i].client == u && Holds(t.calls[i].phase) ==>
      u in t.table && t.calls[i].phase.entry == t.table[u]
  }

  /** No call that has stored its stamp is more than `d` later than the stamp stored last. */
  ghost predicate StampsNear(t: State, u: string, seen: real, d: real) {
    forall i :: 0 <= i < |t.calls| && t.calls[i].client == u && t.calls[i].phase.Marked? ==>
      t.calls[i].phase.stamp <= seen + d
  }

  ghost predicate EntryTied(c: Config, t: State, u: string, d: real)
    requires Linked(t)
  {
    u in t.table ==>
      var entry := t.entries[t.table[u]];
      && T.Refill(entry.bucket, t.now) == T.Refill(OwnNow(c, t, u), t.now)
      && StampsNear(t, u, entry.seen, d)
      && (Own(c, t.log, u).Some? ==> Own(c, t.log, u).value.lastTime <= entry.seen + d + d)
  }

  /** The client's entry is about to be removed. */
  predicate Stale(t: State, u: string) {
    t.sweep.Condemned? && t.sweep.client == u
  }

  ghost predicate CutoffPast(t: State) {
    !t.sweep.Resting? ==> t.sweep.cutoff <= (t.now - L.IDLE_SECONDS).Floor
  }

  ghost predicate Tied(c: Config, t: State, u: string, d: real)
    requires Linked(t)
  {
    && Fits(c, OwnNow(c, t, u), t.now)
    && HoldersShare(t, u) && EntryTied(c, t, u, d) && CutoffPast(t)
    && (u !in t.table || Stale(t, u) ==> IsFull(c, OwnNow(c, t, u), t.now))
  }

  lemma OwnOn(c: Config, log: seq<Event>, e: Event, u: string)
    ensures Own(c, log + [e], u) ==
      if e.Took? && e.client == u then Some(T.Allow(Base(c, Own(c, log, u), e.at), e.at).0) else Own(c, log, u)
  {
    assert (log + [e])[..|log|] == log;
  }

  /** A step that touches nothing of the client. */
  lemma TiedElsewhere(c: Config, t: State, t': State, u: string, d: real)
    requires Linked(t) && Linked(t') && Tied(c, t, u, d)
    requires t'.now == t.now && Own(c, t'.log, u) == Own(c, t.log, u) && t'.sweep == t.sweep
    requires u in t'.table <==> u in t.table
    requires u in t.table ==>
      t'.table[u] == t.table[u] && t'.entries[t'.table[u]] == t.entries[t.table[u]]
    requires forall i :: 0 <= i < |t'.calls| && t'.calls[i].client == u && Holds(t'.calls[i].phase) ==>
      i < |t.calls| && t.calls[i] == t'.calls[i]
    ensures Tied(c, t', u, d)
  {
    hide T.Refill, T.New, T.Valid, Own;
  }

  /** Finding the entry. */
  lemma TiedHold(c: Config, t: State, i: nat, stamp: real, u: string, d: real)
    requires Linked(t) && Tied(c, t, u, d) && i < |t.calls|
    requires t.calls[i].client in t.table
    ensures var t' := SetPhase(t, i, Holding(stamp, t.table[t.calls[i].client]));
      Linked(t') && Tied(c, t', u, d)
  {
    hide T.Refill, T.New, T.Valid, Own;
    PhaseLinked(t, i, Holding(stamp, t.table[t.calls[i].client]));
  }

  /** Storing a new entry. */
  lemma TiedInsert(c: Config, t: State, i: nat, u: string, d: real)
    requires Proper(c) && d >= 0.0 && Linked(t) && Sound(c, t) && Tied(c, t, u, d) && Prompt(t, d)
    requires i < |t.calls| && t.calls[i].phase.Made? && t.calls[i].client !in t.table
    ensures var p := t.calls[i].phase;
      var t' := Stored(t, t.calls[i].client, p.stamp, p.bucket).0;
      Linked(t') && Tied(c, t', u, d)
  {
    hide T.Refill, T.New, T.Valid, Own;
    var p := t.calls[i].phase;
    StoredLinked(t, t.calls[i].client, p.stamp, p.bucket);
    FullTokens(c, p.bucket, t.now);
    RefillOfNew(c, t.now);
  }

  /** Storing the stamp. */
  lemma TiedMark(c: Config, t: State, i: nat, u: string, d: real)
    requires Proper(c) && d >= 0.0 && Linked(t) && Sound(c, t) && Tied(c, t, u, d) && Prompt(t, d)
    requires i < |t.calls| && t.calls[i].phase.Holding? && t.calls[i].phase.entry < |t.entries|
    ensures Linked(Moved(c, t, i)) && Tied(c, Moved(c, t, i), u, d)
  {
    hide T.Refill, T.New, T.Valid, Own;
    MovedLinked(c, t, i);
  }

  /** Taking the token. */
  lemma TiedTake(c: Config, t: State, i: nat, u: string, d: real)
    requires Proper(c) && d >= 0.0 && Linked(t) && Sound(c, t) && Tied(c, t, u, d) && Prompt(t, d) && Undisturbed(t)
    requires i < |t.calls| && t.calls[i].phase.Marked? && t.calls[i].phase.entry < |t.entries|
    ensures Linked(Moved(c, t, i)) && Tied(c, Moved(c, t, i), u, d)
  {
    hide T.Refill, T.New, T.Valid, Own, T.Allow;
    MovedLinked(c, t, i);
    var e := t.calls[i].phase.entry;
    var ok := T.Allow(t.entries[e].bucket, t.now).1;
    OwnOn(c, t.log, Took(t.calls[i].client, e, t.now, ok), u);
    if t.calls[i].client == u {
      OwnBase(c, t, u);
      AllowByRefill(t.entries[e].bucket, OwnNow(c, t, u), t.now);
      AllowFits(c, OwnNow(c, t, u), t.now);
    }
  }

  lemma OwnBase(c: Config, t: State, u: string)
    ensures OwnNow(c, t, u) == Base(c, Own(c, t.log, u), t.now)
  {
  }

  /** The take of a tied client is answered as its own bucket answers. */
  lemma TiedAnswer(c: Config, t: State, i: nat, d: real)
    requires Linked(t) && i < |t.calls| && t.calls[i].phase.Marked? && t.calls[i].phase.entry < |t.entries|
    requires Tied(c, t, t.calls[i].client, d)
    ensures T.Allow(t.entries[t.calls[i].phase.entry].bucket, t.now).1
      == OwnAnswer(c, t.log, t.calls[i].client, t.now)
  {
    hide T.Refill, T.New, T.Valid, Own, T.Allow;
    AllowByRefill(t.entries[t.calls[i].phase.entry].bucket, OwnNow(c, t, t.calls[i].client), t.now);
  }

  lemma TiedCall(c: Config, t: State, i: nat, u: string, d: real)
    requires Proper(c) && d >= 0.0 && Linked(t) && Sound(c, t) && Tied(c, t, u, d) && Prompt(t, d) && Undisturbed(t)
    requires i < |t.calls| && (Holds(t.calls[i].phase) ==> t.calls[i].phase.entry < |t.entries|)
    ensures Linked(Moved(c, t, i)) && Tied(c, Moved(c, t, i), u, d)
  {
    hide Tied, Sound, Prompt, Undisturbed, Linked, T.Allow, T.New, Own;
    MovedLinked(c, t, i);
    var client, p := t.calls[i].client, t.calls[i].phase;
    match p {
      case Holding(_, _) => TiedMark(c, t, i, u, d);
      case Marked(_, _) => TiedTake(c, t, i, u, d);
      case Made(stamp, bucket) =>
        if client in t.table {
          TiedHold(c, t, i, stamp, u, d);
        } else {
          TiedInsert(c, t, i, u, d);
          TiedHold(c, Stored(t, client, stamp, bucket).0, i, stamp, u, d);
        }
      case Stamped(stamp) =>
        if client in t.table { TiedHold(c, t, i, stamp, u, d); } else { TiedPhase(c, t, i, Missing(stamp), u, d); }
      case Entered => TiedPhase(c, t, i, Stamped(t.now), u, d);
      case Missing(stamp) => TiedPhase(c, t, i, Made(stamp, T.New(c.rate, c.burst, t.now)), u, d);
      case Over =>
    }
  }

  lemma TiedPhase(c: Config, t: State, i: nat, p: Phase, u: string, d: real)
    requires Linked(t) && Tied(c, t, u, d) && i < |t.calls| && !Holds(p)
    ensures Linked(SetPhase(t, i, p)) && Tied(c, SetPhase(t, i, p), u, d)
  {
    hide T.Refill, T.New, T.Valid, Own;
    PhaseLinked(t, i, p);
  }

  /** Time goes on. */
  lemma TiedWait(c: Config, t: State, seconds: real, u: string, d: real)
    requires Proper(c) && Linked(t) && Sound(c, t) && Tied(c, t, u, d) && seconds >= 0.0
    ensures Tied(c, t.(now := t.now + seconds), u, d)
  {
    hide T.Refill, T.New, Own;
    var t' := t.(now := t.now + seconds);
    var own := Own(c, t.log, u);
    NewFits(c, t'.now);
    RefillOfNew(c, t'.now);
    RefillOfNew(c, t.now);
    NewLater(c, t.now, t'.now);
    RefillTwice(OwnNow(c, t, u), t.now, t'.now);
    if u in t.table { RefillTwice(t.entries[t.table[u]].bucket, t.now, t'.now); }
    if IsFull(c, OwnNow(c, t, u), t.now) { FullLater(c, OwnNow(c, t, u), t.now, t'.now); }
  }

  /** A check that condemns the client finds its bucket full. */
  lemma TiedCheck(c: Config, t: State, client: string, u: string, d: real)
    requires Proper(c) && d >= 0.0 && Linked(t) && Tied(c, t, u, d)
    requires c.burst as real <= T.Flow(c.rate, L.IDLE_SECONDS - d - d)
    ensures Tied(c, Next(c, t, Check(client)), u, d)
  {
    hide T.Refill, T.New, T.Valid, Own, T.Flow;
    if Next(c, t, Check(client)) != t && client == u {
      if Own(c, t.log, u).Some? {
        IdleFills(c, OwnNow(c, t, u), t.now, d);
      } else {
        RefillOfNew(c, t.now);
      }
    }
  }

  lemma TiedRemove(c: Config, t: State, u: string, d: real)
    requires Proper(c) && Linked(t) && Tied(c, t, u, d) && Undisturbed(t) && t.sweep.Condemned?
    ensures Linked(Next(c, t, Remove)) && Tied(c, Next(c, t, Remove), u, d)
  {
    hide T.Refill, T.New, T.Valid, Own;
    NextLinked(c, t, Remove);
    OwnOn(c, t.log, Removed(t.sweep.client), u);
  }

  lemma TiedStep(c: Config, t: State, a: Action, u: string, d: real)
    requires Proper(c) && d >= 0.0 && Linked(t) && Sound(c, t) && Tied(c, t, u, d) && Fine(t, Careful(d))
    requires c.burst as real <= T.Flow(c.rate, L.IDLE_SECONDS - d - d)
    ensures Linked(Next(c, t, a)) && Tied(c, Next(c, t, a), u, d)
  {
    hide Sound, Moved, T.Refill, T.New, T.Valid, T.Flow, Own, Prompt, Undisturbed;
    NextLinked(c, t, a);
    match a {
      case Step(i) => if i < |t.calls| { TiedCall(c, t, i, u, d); }
      case Check(client) => TiedCheck(c, t, client, u, d);
      case Remove => if t.sweep.Condemned? { TiedRemove(c, t, u, d); }
      case Wait(seconds) => if seconds >= 0.0 { TiedWait(c, t, seconds, u, d); }
      case _ =>
    }
  }

  lemma AgreesStep(c: Config, t: State, a: Action, d: real)
    requires Linked(t) && Agrees(c, t.log) && forall u :: Tied(c, t, u, d)
    ensures Agrees(c, Next(c, t, a).log)
  {
    hide T.Allow, T.New, Tied, Own;
    if a.Step? && a.call < |t.calls| && t.calls[a.call].phase.Marked? {
      var p := t.calls[a.call].phase;
      TiedAnswer(c, t, a.call, d);
      var e := Took(t.calls[a.call].client, p.entry, t.now, T.Allow(t.entries[p.entry].bucket, t.now).1);
      assert (t.log + [e])[..|t.log|] == t.log;
    } else if a.Remove? && t.sweep.Condemned? {
      assert (t.log + [Removed(t.sweep.client)])[..|t.log|] == t.log;
    }
  }

  lemma TiedAtFirst(c: Config, start: real, u: string, d: real)
    requires Proper(c)
    ensures Tied(c, Begin(start), u, d)
  {
    hide T.Refill, T.New;
    NewFits(c, start);
    RefillOfNew(c, start);
  }

  /**
    With a burst of at most 300 - 2d seconds of refill, no restricted run notices eviction: at every point a
    client's entry refills to the same as its own bucket, and a client without an entry has a full one.
   */
  lemma {:induction false} AlwaysTied(c: Config, start: real, actions: seq<Action>, d: real)
    requires Proper(c) && d >= 0.0 && Respects(c, start, actions, Careful(d))
    requires c.burst as real <= T.Flow(c.rate, L.IDLE_SECONDS - d - d)
    ensures var t := After(c, start, actions); Agrees(c, t.log) && forall u :: Tied(c, t, u, d)
  {
    hide Next, Tied, Agrees, T.Flow, Fine;
    if actions == [] {
      forall u ensures Tied(c, Begin(start), u, d) { TiedAtFirst(c, start, u, d); }
      EmptyAgrees(c);
    } else {
      var front, a := actions[..|actions| - 1], actions[|actions| - 1];
      var t := After(c, start, front);
      AlwaysTied(c, start, front, d);
      AlwaysSound(c, start, front);
      RespectedNow(c, start, front, Careful(d));
      AgreesStep(c, t, a, d);
      forall u ensures Tied(c, Next(c, t, a), u, d) { TiedStep(c, t, a, u, d); }
    }
  }

  lemma EmptyAgrees(c: Config)
    ensures Agrees(c, [])
  {
  }

  lemma RespectedNow(c: Config, start: real, actions: seq<Action>, care: Care)
    requires Respects(c, start, actions, care)
    ensures Fine(After(c, start, actions), care)
  {
  }
}
