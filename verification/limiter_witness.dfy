/** Runs in which eviction is noticed, and with them the exact conditions. */
module LimiterWitness {
  import opened Common
  import opened LimiterRuns
  import opened LimiterEviction
  import L = Limiter
  import T = TokenBucket

  const CLIENT: string := "10.0.0.1"

  // ----- many takes at one instant

  /** The same bucket after `n` takes at one instant. */
  function Burst(b: T.State, now: real, n: nat): T.State {
    if n == 0 then b else T.Allow(Burst(b, now, n - 1), now).0
  }

  lemma RefillNow(b: T.State, now: real)
    requires b.lastTime == now && b.tokens <= b.max
    ensures T.Refill(b, now) == b
  {
    assert now - b.lastTime == 0.0;
  }

  /** If all are admitted, they spent whole tokens that were there. */
  lemma {:induction false} BurstSpends(b: T.State, now: real, n: nat)
    requires T.Valid(b) && b.lastTime <= now
    requires forall i: nat :: i < n ==> T.Allow(Burst(b, now, i), now).1
    ensures n >= 1 ==> Burst(b, now, n) == T.Refill(b, now).(tokens := T.Refill(b, now).tokens - n as real)
    ensures T.Valid(Burst(b, now, n))
  {
    hide T.Refill;
    if n > 0 {
      BurstSpends(b, now, n - 1);
      T.RefillKeeps(b, now);
      T.AllowKeepsValid(Burst(b, now, n - 1), now);
      if n > 1 { RefillNow(Burst(b, now, n - 1), now); }
    }
  }

  /** Takes are admitted while whole tokens last, and then refused. */
  lemma {:induction false} BurstOfWhole(b: T.State, now: real, n: nat, whole: nat)
    requires T.Valid(b) && b.lastTime <= now && T.Refill(b, now).tokens == whole as real
    ensures n >= 1 ==>
      Burst(b, now, n) == T.Refill(b, now).(tokens := if n <= whole then whole as real - n as real else 0.0)
    ensures forall i: nat :: i < n ==> (T.Allow(Burst(b, now, i), now).1 <==> i < whole)
    ensures T.Valid(Burst(b, now, n)) && Burst(b, now, n).lastTime <= now
  {
    hide T.Refill;
    T.RefillKeeps(b, now);
    if n > 0 {
      BurstOfWhole(b, now, n - 1, whole);
      T.AllowKeepsValid(Burst(b, now, n - 1), now);
      if n > 1 { RefillNow(Burst(b, now, n - 1), now); }
    }
  }

  // ----- reaching states

  ghost predicate Reaches(c: Config, start: real, care: Care, t: State) {
    exists actions :: Respects(c, start, actions, care) && After(c, start, actions) == t
  }

  lemma ReachesKnows(c: Config, start: real, care: Care, t: State)
    requires Reaches(c, start, care, t)
    ensures Linked(t) && Fine(t, care)
  {
    var actions :| Respects(c, start, actions, care) && After(c, start, actions) == t;
    RespectedNow(c, start, actions, care);
  }

  lemma RunTo(c: Config, start: real, care: Care, t: State) returns (actions: seq<Action>)
    requires Reaches(c, start, care, t)
    ensures Respects(c, start, actions, care) && After(c, start, actions) == t
  {
    actions :| Respects(c, start, actions, care) && After(c, start, actions) == t;
  }

  lemma Go(c: Config, start: real, care: Care, t: State, a: Action) returns (t': State)
    requires Reaches(c, start, care, t) && Linked(t) && Fine(Next(c, t, a), care) && MayHappen(t, a, care)
    ensures t' == Next(c, t, a) && Reaches(c, start, care, t') && Linked(t')
  {
    hide Next, Fine, MayHappen;
    NextLinked(c, t, a);
    t' := Next(c, t, a);
    var actions :| Respects(c, start, actions, care) && After(c, start, actions) == t;
    var longer := actions + [a];
    assert longer[..|longer| - 1] == actions;
    assert After(c, start, longer) == t';
    assert Respects(c, start, longer, care);
  }

  lemma ReachesStart(c: Config, start: real, care: Care)
    ensures Reaches(c, start, care, Begin(start)) && Linked(Begin(start))
  {
    assert After(c, start, []) == Begin(start);
    assert Respects(c, start, [], care);
  }

  // ----- a call that nothing interrupts

  /** What the table shows of the entries in it. */
  function View(t: State): L.Slots
    requires Linked(t)
  {
    map u | u in t.table :: L.Slot(t.entries[t.table[u]].bucket, t.entries[t.table[u]].seen.Floor)
  }

  /** Only one client's slot differs. */
  lemma ViewWith(t: State, t': State, u: string, e: nat)
    requires Linked(t) && Linked(t') && e < |t'.entries| && |t.entries| <= |t'.entries|
    requires t'.table == t.table[u := e] && t'.entries[e].client == u && (u in t.table ==> t.table[u] == e)
    requires forall k :: 0 <= k < |t.entries| && k != e ==> t'.entries[k] == t.entries[k]
    ensures View(t') == View(t)[u := L.Slot(t'.entries[e].bucket, t'.entries[e].seen.Floor)]
  {
    var v, v' := View(t)[u := L.Slot(t'.entries[e].bucket, t'.entries[e].seen.Floor)], View(t');
    assert v'.Keys == v.Keys;
    forall k | k in v' ensures v'[k] == v[k] {
      if k != u {
        FoundHere(t, k);
        assert t'.table[k] == t.table[k] && t'.entries[t'.table[k]].client == k;
        assert t'.entries[t.table[k]] == t.entries[t.table[k]];
      }
    }
  }

  /** A call whose entry is there, with time passing before it stores and takes. */
  lemma CallFinds(c: Config, start: real, t: State, u: string, wait: real) returns (t': State)
    requires Reaches(c, start, Any, t) && Linked(t) && wait >= 0.0 && u in t.table
    ensures Reaches(c, start, Any, t') && Linked(t') && t'.now == t.now + wait && t'.table == t.table
    ensures var e, (b, ok) := t.table[u], T.Allow(t.entries[t.table[u]].bucket, t.now + wait);
      && t'.entries == t.entries[e := Entry(u, b, t.now)] && t'.log == t.log + [Took(u, e, t'.now, ok)]
  {
    hide Reaches, Linked, T.Allow;
    FoundHere(t, u);
    var n, e := |t.calls|, t.table[u];
    var t1 := Go(c, start, Any, t, Arrive(u));
    var t2 := Go(c, start, Any, t1, Step(n));
    var t3 := Go(c, start, Any, t2, Step(n));
    assert t3.calls[n] == Call(u, Holding(t.now, e));
    var t4 := Go(c, start, Any, t3, Wait(wait));
    var t5 := Go(c, start, Any, t4, Step(n));
    assert t5.calls[n] == Call(u, Marked(t.now, e));
    t' := Go(c, start, Any, t5, Step(n));
  }

  lemma FoundHere(t: State, u: string)
    requires Linked(t) && u in t.table
    ensures t.table[u] < |t.entries| && t.entries[t.table[u]].client == u
  {
  }

  /** A call that makes its entry, with time passing before it makes the bucket and before it stores and takes. */
  lemma CallMakes(c: Config, start: real, t: State, u: string, first: real, second: real) returns (t': State)
    requires Reaches(c, start, Any, t) && Linked(t) && first >= 0.0 && second >= 0.0 && u !in t.table
    ensures Reaches(c, start, Any, t') && Linked(t') && t'.now == t.now + first + second
    ensures var (b, ok) := T.Allow(T.New(c.rate, c.burst, t.now + first), t'.now);
      && t'.table == t.table[u := |t.entries|] && t'.entries == t.entries + [Entry(u, b, t.now)]
      && t'.log == t.log + [Took(u, |t.entries|, t'.now, ok)]
  {
    hide Reaches, Linked, T.Allow, T.New;
    var n, e := |t.calls|, |t.entries|;
    var t1 := Go(c, start, Any, t, Arrive(u));
    var t2 := Go(c, start, Any, t1, Step(n));
    var t3 := Go(c, start, Any, t2, Step(n));
    var t4 := Go(c, start, Any, t3, Wait(first));
    var t5 := Go(c, start, Any, t4, Step(n));
    assert t5.calls[n] == Call(u, Made(t.now, T.New(c.rate, c.burst, t.now + first)));
    var t6 := Go(c, start, Any, t5, Step(n));
    assert t6.calls[n] == Call(u, Holding(t.now, e));
    var t7 := Go(c, start, Any, t6, Wait(second));
    var t8 := Go(c, start, Any, t7, Step(n));
    assert t8.calls[n] == Call(u, Marked(t.now, e));
    t' := Go(c, start, Any, t8, Step(n));
  }

  /** A call that nothing interrupts, whatever time passes in it, does what the limiter's `Allow` does. */
  lemma UninterruptedCall(c: Config, start: real, t: State, u: string, first: real, second: real)
    returns (t': State, ok: bool)
    requires Reaches(c, start, Any, t) && Linked(t) && first >= 0.0 && second >= 0.0
    ensures Reaches(c, start, Any, t') && Linked(t') && t'.now == t.now + first + second
    ensures |t'.log| == |t.log| + 1 && t'.log[|t.log|].Took? && t'.log[|t.log|].client == u
    ensures t'.log[|t.log|].ok == ok
    ensures (View(t'), ok) == L.Answered(View(t), c.rate, c.burst, u, t.now, t.now + first, t.now + first + second)
  {
    hide Reaches, Linked, T.Allow, T.New;
    if u in t.table {
      FoundHere(t, u);
      t' := CallFinds(c, start, t, u, first + second);
      assert t.table[u := t.table[u]] == t.table;
      assert t.now + (first + second) == t.now + first + second;
      ViewWith(t, t', u, t.table[u]);
    } else {
      t' := CallMakes(c, start, t, u, first, second);
      ViewWith(t, t', u, |t.entries|);
    }
    ok := t'.log[|t.log|].ok;
    ViewKeys(t);
  }

  lemma ViewKeys(t: State)
    requires Linked(t)
    ensures forall u :: u in View(t) <==> u in t.table
  {
  }

  /** A restriction depends on the calls, the sweep and the clock alone. */
  ghost predicate FineOf(calls: seq<Call>, sweep: Sweep, now: real, care: Care) {
    && (care != Any ==> AllPrompt(calls, now, care.d))
    && (care.Careful? && sweep.Condemned? ==> !HoldsFor(calls, sweep.client))
  }

  ghost predicate AllPrompt(calls: seq<Call>, now: real, d: real) {
    forall i :: 0 <= i < |calls| && InFlight(calls[i].phase) ==> now <= calls[i].phase.stamp + d
  }

  /** Calls may come and go at this instant. */
  predicate Open(care: Care, sweep: Sweep) {
    (care != Any ==> care.d >= 0.0) && (care.Careful? ==> !sweep.Condemned?)
  }

  lemma FineByParts(t: State, care: Care)
    ensures Fine(t, care) <==> FineOf(t.calls, t.sweep, t.now, care)
  {
  }

  /** One more call, just stamped, keeps a restriction unless it holds a condemned entry. */
  lemma FineWith(calls: seq<Call>, sweep: Sweep, now: real, care: Care, p: Phase)
    requires FineOf(calls, sweep, now, care) && Open(care, sweep)
    requires InFlight(p) ==> p.stamp == now
    ensures FineOf(calls + [Call(CLIENT, p)], sweep, now, care)
  {
  }

  // ----- whole calls

  /** The entry and bucket that a call of the client finds or makes. */
  function EntryFor(t: State): nat {
    if CLIENT in t.table then t.table[CLIENT] else |t.entries|
  }

  function BucketFor(c: Config, t: State): T.State
    requires Linked(t)
  {
    if CLIENT in t.table then t.entries[t.table[CLIENT]].bucket else T.New(c.rate, c.burst, t.now)
  }

  function EntriesFor(c: Config, t: State): (es: seq<Entry>)
    requires Linked(t)
    ensures EntryFor(t) < |es|
  {
    if CLIENT in t.table then t.entries else t.entries + [Entry(CLIENT, T.New(c.rate, c.burst, t.now), t.now)]
  }

  /** A call of the client as far as its stored stamp, at one instant. */
  function CallMarked(c: Config, t: State): State
    requires Linked(t)
  {
    var e := EntryFor(t);
    t.(entries := EntriesFor(c, t)[e := Entry(CLIENT, BucketFor(c, t), t.now)],
       table := t.table[CLIENT := e],
       calls := t.calls + [Call(CLIENT, Marked(t.now, e))])
  }

  lemma ArriveAndStamp(c: Config, start: real, care: Care, t: State) returns (t': State)
    requires Reaches(c, start, care, t) && Open(care, t.sweep)
    ensures Reaches(c, start, care, t') && Linked(t')
    ensures t' == t.(calls := t.calls + [Call(CLIENT, Stamped(t.now))])
  {
    hide Reaches, Linked, Fine, FineOf;
    ReachesKnows(c, start, care, t);
    FineByParts(t, care);
    var n := |t.calls|;
    FineWith(t.calls, t.sweep, t.now, care, Entered);
    FineByParts(Next(c, t, Arrive(CLIENT)), care);
    var t1 := Go(c, start, care, t, Arrive(CLIENT));
    FineWith(t.calls, t.sweep, t.now, care, Stamped(t.now));
    assert t1.calls[n := Call(CLIENT, Stamped(t.now))] == t.calls + [Call(CLIENT, Stamped(t.now))];
    FineByParts(Next(c, t1, Step(n)), care);
    t' := Go(c, start, care, t1, Step(n));
  }

  /** One step of the last call. */
  lemma StepLast(c: Config, start: real, care: Care, t: State, calls: seq<Call>, p: Phase) returns (t': State)
    requires Reaches(c, start, care, t) && Linked(t)
    requires |t.calls| == |calls| + 1 && t.calls[..|calls|] == calls && t.calls[|calls|].client == CLIENT
    requires Next(c, t, Step(|calls|)).calls == t.calls[|calls| := Call(CLIENT, p)]
    requires Next(c, t, Step(|calls|)).sweep == t.sweep && Next(c, t, Step(|calls|)).now == t.now
    requires FineOf(calls, t.sweep, t.now, care) && Open(care, t.sweep)
    requires InFlight(p) ==> p.stamp == t.now
    ensures t' == Next(c, t, Step(|calls|)) && Reaches(c, start, care, t') && Linked(t')
    ensures t'.calls == calls + [Call(CLIENT, p)]
  {
    hide Reaches, Linked, Fine, FineOf, Next;
    FineWith(calls, t.sweep, t.now, care, p);
    assert t.calls[|calls| := Call(CLIENT, p)] == calls + [Call(CLIENT, p)];
    FineByParts(Next(c, t, Step(|calls|)), care);
    t' := Go(c, start, care, t, Step(|calls|));
  }

  lemma MarkCall(c: Config, start: real, care: Care, t: State) returns (t': State)
    requires Reaches(c, start, care, t) && Open(care, t.sweep)
    ensures Linked(t) && t' == CallMarked(c, t) && Reaches(c, start, care, t') && Linked(t')
  {
    hide Reaches, Fine, FineOf, T.New;
    ReachesKnows(c, start, care, t);
    FineByParts(t, care);
    var t1 := ArriveAndStamp(c, start, care, t);
    if CLIENT in t.table {
      var t2 := StepLast(c, start, care, t1, t.calls, Holding(t.now, t.table[CLIENT]));
      t' := StepLast(c, start, care, t2, t.calls, Marked(t.now, t.table[CLIENT]));
    } else {
      var t2 := StepLast(c, start, care, t1, t.calls, Missing(t.now));
      var t3 := StepLast(c, start, care, t2, t.calls, Made(t.now, T.New(c.rate, c.burst, t.now)));
      var t4 := StepLast(c, start, care, t3, t.calls, Holding(t.now, |t.entries|));
      t' := StepLast(c, start, care, t4, t.calls, Marked(t.now, |t.entries|));
    }
  }

  /** A whole call at one instant. */
  function CallWhole(c: Config, t: State): State
    requires Linked(t)
  {
    var e, (b, ok) := EntryFor(t), T.Allow(BucketFor(c, t), t.now);
    t.(entries := EntriesFor(c, t)[e := Entry(CLIENT, b, t.now)],
       table := t.table[CLIENT := e],
       calls := t.calls + [Call(CLIENT, Over)],
       log := t.log + [Took(CLIENT, e, t.now, ok)])
  }

  lemma WholeCall(c: Config, start: real, care: Care, t: State) returns (t': State)
    requires Reaches(c, start, care, t) && Open(care, t.sweep)
    ensures Linked(t) && t' == CallWhole(c, t) && Reaches(c, start, care, t') && Linked(t')
  {
    hide Reaches, Fine, FineOf, T.New, T.Allow, Linked;
    ReachesKnows(c, start, care, t);
    FineByParts(t, care);
    var t1 := MarkCall(c, start, care, t);
    t' := StepLast(c, start, care, t1, t.calls, Over);
  }

  // ----- bursts of whole calls

  function Repeat(p: Phase, n: nat): (calls: seq<Call>)
    ensures |calls| == n && forall i :: 0 <= i < n ==> calls[i] == Call(CLIENT, p)
  {
    if n == 0 then [] else Repeat(p, n - 1) + [Call(CLIENT, p)]
  }

  /** The answers that the new bucket and the client's own one give to take number `i` of a burst. */
  ghost predicate SameInBurst(c: Config, own: T.State, now: real, n: nat) {
    forall i: nat :: i < n ==>
      (T.Allow(Burst(T.New(c.rate, c.burst, now), now, i), now).1 <==> T.Allow(Burst(own, now, i), now).1)
  }

  /** What `n` whole calls make of a state without an entry for the client. */
  ghost predicate Spent(c: Config, t: State, t': State, n: nat) {
    && t'.sweep == t.sweep && t'.now == t.now && t'.calls == t.calls + Repeat(Over, n)
    && Base(c, Own(c, t'.log, CLIENT), t.now) == Burst(OwnNow(c, t, CLIENT), t.now, n)
    && (Agrees(c, t'.log) ==> SameInBurst(c, OwnNow(c, t, CLIENT), t.now, n))
    && (if n == 0 then t' == t
        else
          && t'.entries == t.entries + [Entry(CLIENT, Burst(T.New(c.rate, c.burst, t.now), t.now, n), t.now)]
          && t'.table == t.table[CLIENT := |t.entries|] && Own(c, t'.log, CLIENT).Some?)
  }

  lemma AgreesOn(c: Config, log: seq<Event>, e: Event)
    ensures Agrees(c, log + [e]) <==>
      Agrees(c, log) && (e.Took? ==> e.ok == OwnAnswer(c, log, e.client, e.at))
  {
    assert (log + [e])[..|log|] == log;
  }

  lemma SpentOnce(c: Config, t: State, t1: State, n: nat)
    requires Linked(t) && Linked(t1) && CLIENT !in t.table && Spent(c, t, t1, n)
    ensures Spent(c, t, CallWhole(c, t1), n + 1)
  {
    hide T.Allow, T.New, Own, Agrees;
    var t' := CallWhole(c, t1);
    var ev := Took(CLIENT, EntryFor(t1), t.now, T.Allow(BucketFor(c, t1), t1.now).1);
    OwnOn(c, t1.log, ev, CLIENT);
    AgreesOn(c, t1.log, ev);
    assert t.calls + Repeat(Over, n) + [Call(CLIENT, Over)] == t.calls + Repeat(Over, n + 1);
    assert BucketFor(c, t1) == Burst(T.New(c.rate, c.burst, t.now), t.now, n);
  }

  lemma {:induction false} Spend(c: Config, start: real, care: Care, t: State, n: nat) returns (t': State)
    requires Reaches(c, start, care, t) && Linked(t) && CLIENT !in t.table
    requires Open(care, t.sweep)
    ensures Reaches(c, start, care, t') && Linked(t') && Spent(c, t, t', n)
  {
    hide Reaches, Linked, Spent, CallWhole;
    if n == 0 {
      t' := t;
      SpentNothing(c, t);
    } else {
      var t1 := Spend(c, start, care, t, n - 1);
      SpentSweep(c, t, t1, n - 1);
      t' := WholeCall(c, start, care, t1);
      SpentOnce(c, t, t1, n - 1);
    }
  }

  lemma SpentNothing(c: Config, t: State)
    ensures Spent(c, t, t, 0)
  {
  }

  lemma SpentSweep(c: Config, t: State, t': State, n: nat)
    requires Spent(c, t, t', n)
    ensures t'.sweep == t.sweep
  {
  }

  /** Evicted with a bucket that is not full: the next burst is granted whole, where the own bucket refuses some. */
  lemma ShortOwnShows(c: Config, start: real, care: Care, t: State) returns (actions: seq<Action>)
    requires Proper(c) && Reaches(c, start, care, t) && Linked(t) && CLIENT !in t.table
    requires Open(care, t.sweep)
    requires Fits(c, OwnNow(c, t, CLIENT), t.now)
    requires T.Refill(OwnNow(c, t, CLIENT), t.now).tokens < c.burst as real
    ensures Respects(c, start, actions, care) && !Agrees(c, After(c, start, actions).log)
  {
    hide Linked, Agrees, Own, T.Refill, Respects, After, T.Allow;
    var t' := Spend(c, start, care, t, c.burst);
    actions :| Respects(c, start, actions, care) && After(c, start, actions) == t';
    if Agrees(c, t'.log) {
      NewWhole(c, t.now);
      BurstOfWhole(T.New(c.rate, c.burst, t.now), t.now, c.burst, c.burst);
      assert forall i: nat :: i < c.burst ==> T.Allow(Burst(OwnNow(c, t, CLIENT), t.now, i), t.now).1;
      BurstSpends(OwnNow(c, t, CLIENT), t.now, c.burst);
      assert false;
    }
  }

  lemma NewWhole(c: Config, now: real)
    requires Proper(c)
    ensures T.Valid(T.New(c.rate, c.burst, now)) && T.New(c.rate, c.burst, now).lastTime == now
    ensures T.Refill(T.New(c.rate, c.burst, now), now).tokens == c.burst as real
  {
    RefillOfNew(c, now);
  }

  // ----- a call that loses its entry while holding it

  /**
    Without restriction eviction is noticed for every rate and burst. A client's entry is idle long enough; a new
    call finds it, the cleanup removes it, and the call spends from the dropped bucket. The next burst gets a full
    bucket at the same instant.
   */
  lemma HeldEntryIsLost(c: Config) returns (actions: seq<Action>)
    requires Proper(c)
    ensures Respects(c, 0.0, actions, Any) && !Agrees(c, After(c, 0.0, actions).log)
  {
    hide Reaches, Linked, Agrees, T.Allow, T.New, T.Valid, Respects, After, Own;
    ReachesStart(c, 0.0, Any);
    var t0 := Begin(0.0);
    var t1 := WholeCall(c, 0.0, Any, t0);
    var t2 := Go(c, 0.0, Any, t1, Wait(302.0));
    var t3 := Go(c, 0.0, Any, t2, BeginSweep);
    var t4 := ArriveAndStamp(c, 0.0, Any, t3);
    var t5 := Go(c, 0.0, Any, t4, Step(1));
    assert t5.calls[1] == Call(CLIENT, Holding(302.0, 0));
    var t6 := Go(c, 0.0, Any, t5, Check(CLIENT));
    assert (0.0).Floor == 0 && (302.0 - L.IDLE_SECONDS).Floor == 2;
    assert t6.sweep == Condemned(2, CLIENT);
    var t7 := Go(c, 0.0, Any, t6, Remove);
    var t8 := Go(c, 0.0, Any, t7, Step(1));
    assert t8.calls[1] == Call(CLIENT, Marked(302.0, 0));
    var t9 := Go(c, 0.0, Any, t8, Step(1));
    var b := t1.entries[0].bucket;
    OwnOfLost(c, t1.log, b, t7.log, t9.log, 302.0);
    NewFits(c, 0.0);
    AllowFits(c, T.New(c.rate, c.burst, 0.0), 0.0);
    TakenIsShort(c, b, 302.0);
    actions := ShortOwnShows(c, 0.0, Any, t9);
  }

  /** The client's own bucket has seen both takes. */
  lemma OwnOfLost(c: Config, first: seq<Event>, b: T.State, second: seq<Event>, last: seq<Event>, now: real)
    requires first == [Took(CLIENT, 0, 0.0, T.Allow(T.New(c.rate, c.burst, 0.0), 0.0).1)]
    requires b == T.Allow(T.New(c.rate, c.burst, 0.0), 0.0).0
    requires second == first + [Removed(CLIENT)]
    requires last == second + [Took(CLIENT, 0, now, T.Allow(b, now).1)]
    ensures Own(c, last, CLIENT) == Some(T.Allow(b, now).0)
  {
    hide T.Allow, T.New, Own;
    EmptyOwn(c);
    assert first == [] + first;
    OwnOn(c, [], first[0], CLIENT);
    OwnOn(c, first, Removed(CLIENT), CLIENT);
    OwnOn(c, second, Took(CLIENT, 0, now, T.Allow(b, now).1), CLIENT);
  }

  lemma EmptyOwn(c: Config)
    ensures Own(c, [], CLIENT) == None
  {
  }

  /** Right after a take the bucket is not full. */
  lemma TakenIsShort(c: Config, b: T.State, now: real)
    requires Proper(c) && Fits(c, b, b.lastTime) && b.lastTime <= now
    ensures var b' := T.Allow(b, now).0;
      Fits(c, b', now) && T.Refill(b', now).tokens < c.burst as real
  {
    hide T.Flow, T.Refill;
    AllowFits(c, b, now);
    T.RefillKeeps(b, now);
    T.RefillAtMostMax(b, now);
    RefillNow(T.Allow(b, now).0, now);
  }

  /**
    Nor is it enough that no call holds an entry at its removal, however prompt all calls are: a call may come and
    go between the check that finds the entry stale and its removal.
   */
  lemma CallInTheGap(c: Config, d: real) returns (actions: seq<Action>)
    requires Proper(c) && d >= 0.0
    ensures Respects(c, 0.0, actions, Unheld(d)) && !Agrees(c, After(c, 0.0, actions).log)
  {
    hide Reaches, Linked, Agrees, T.Allow, T.New, T.Valid, Respects, After, Own, Fine;
    var care := Unheld(d);
    ReachesStart(c, 0.0, care);
    var t0 := Begin(0.0);
    var t1 := WholeCall(c, 0.0, care, t0);
    FinishedIsFine(t1.(now := 302.0), d);
    var t2 := Go(c, 0.0, care, t1, Wait(302.0));
    assert (0.0).Floor == 0 && (302.0 - L.IDLE_SECONDS).Floor == 2;
    FinishedIsFine(Next(c, t2, BeginSweep), d);
    var t3 := Go(c, 0.0, care, t2, BeginSweep);
    FinishedIsFine(Next(c, t3, Check(CLIENT)), d);
    var t4 := Go(c, 0.0, care, t3, Check(CLIENT));
    assert t4.sweep == Condemned(2, CLIENT);
    var t5 := WholeCall(c, 0.0, care, t4);
    FinishedIsFine(Next(c, t5, Remove), d);
    var t6 := Go(c, 0.0, care, t5, Remove);
    var b := t1.entries[0].bucket;
    OwnOfGap(c, t1.log, b, t5.log, t6.log, 302.0);
    NewFits(c, 0.0);
    AllowFits(c, T.New(c.rate, c.burst, 0.0), 0.0);
    TakenIsShort(c, b, 302.0);
    actions := ShortOwnShows(c, 0.0, care, t6);
  }

  lemma FinishedIsFine(t: State, d: real)
    requires Finished(t.calls)
    ensures Fine(t, Unheld(d)) && Undisturbed(t)
  {
  }

  lemma OwnOfGap(c: Config, first: seq<Event>, b: T.State, second: seq<Event>, last: seq<Event>, now: real)
    requires first == [Took(CLIENT, 0, 0.0, T.Allow(T.New(c.rate, c.burst, 0.0), 0.0).1)]
    requires b == T.Allow(T.New(c.rate, c.burst, 0.0), 0.0).0
    requires second == first + [Took(CLIENT, 0, now, T.Allow(b, now).1)]
    requires last == second + [Removed(CLIENT)]
    ensures Own(c, last, CLIENT) == Some(T.Allow(b, now).0)
  {
    hide T.Allow, T.New, Own;
    EmptyOwn(c);
    assert first == [] + first;
    OwnOn(c, [], first[0], CLIENT);
    OwnOn(c, first, Took(CLIENT, 0, now, T.Allow(b, now).1), CLIENT);
    OwnOn(c, second, Removed(CLIENT), CLIENT);
  }

  // ----- delays that push the stored stamp back

  /** One entry, in the table, in step with the client's own bucket; no sweep is on. */
  ghost predicate Scene(c: Config, t: State, now: real, b: T.State, seen: real, calls: seq<Call>) {
    && t.now == now && t.entries == [Entry(CLIENT, b, seen)] && t.table == map[CLIENT := 0]
    && t.calls == calls && t.sweep.Resting? && Own(c, t.log, CLIENT) == Some(b)
  }

  lemma PromptBoth(first: seq<Call>, second: seq<Call>, now: real, d: real)
    requires AllPrompt(first, now, d) && AllPrompt(second, now, d)
    ensures AllPrompt(first + second, now, d)
  {
  }

  /** With no sweep on, promptness is all a restriction asks. */
  lemma PromptIsFine(t: State, d: real)
    requires AllPrompt(t.calls, t.now, d) && !t.sweep.Condemned?
    ensures Fine(t, Careful(d))
  {
  }

  lemma SceneWait(c: Config, start: real, t: State, now: real, b: T.State, seen: real, calls: seq<Call>,
                  later: real, d: real) returns (t': State)
    requires Reaches(c, start, Careful(d), t) && Linked(t) && Scene(c, t, now, b, seen, calls)
    requires now <= later && AllPrompt(calls, later, d)
    ensures Reaches(c, start, Careful(d), t') && Linked(t') && Scene(c, t', later, b, seen, calls)
  {
    hide Reaches, Linked, Fine, Own;
    PromptIsFine(Next(c, t, Wait(later - now)), d);
    t' := Go(c, start, Careful(d), t, Wait(later - now));
  }

  /** A step of call number `i`. */
  lemma SceneStep(c: Config, start: real, t: State, calls: seq<Call>, i: nat, p: Phase, d: real) returns (t': State)
    requires Reaches(c, start, Careful(d), t) && Linked(t) && t.calls == calls && i < |calls|
    requires !t.sweep.Condemned? && Next(c, t, Step(i)).sweep == t.sweep && Next(c, t, Step(i)).now == t.now
    requires Next(c, t, Step(i)).calls == calls[i := Call(CLIENT, p)]
    requires AllPrompt(calls[i := Call(CLIENT, p)], t.now, d)
    ensures t' == Next(c, t, Step(i)) && Reaches(c, start, Careful(d), t') && Linked(t')
  {
    hide Reaches, Linked, Fine, Next;
    PromptIsFine(Next(c, t, Step(i)), d);
    t' := Go(c, start, Careful(d), t, Step(i));
  }

  lemma RepeatPrompt(p: Phase, n: nat, now: real, d: real)
    requires InFlight(p) ==> now <= p.stamp + d
    ensures AllPrompt(Repeat(p, n), now, d)
  {
  }

  /** The calls while the slow one is on: it first, then finished ones, then ones that stored their stamp. */
  function Cast(slow: Phase, done: nat, p: Phase, n: nat): seq<Call> {
    [Call(CLIENT, slow)] + Repeat(Over, done) + Repeat(p, n)
  }

  lemma CastPrompt(slow: Phase, done: nat, p: Phase, n: nat, now: real, d: real)
    requires InFlight(slow) ==> now <= slow.stamp + d
    requires InFlight(p) ==> now <= p.stamp + d
    ensures AllPrompt(Cast(slow, done, p, n), now, d)
  {
    hide Repeat;
    RepeatPrompt(Over, done, now, d);
    RepeatPrompt(p, n, now, d);
    assert AllPrompt([Call(CLIENT, slow)], now, d);
    PromptBoth([Call(CLIENT, slow)], Repeat(Over, done), now, d);
    PromptBoth([Call(CLIENT, slow)] + Repeat(Over, done), Repeat(p, n), now, d);
  }

  lemma CastFirst(slow: Phase, slow': Phase, done: nat, p: Phase, n: nat)
    ensures Cast(slow, done, p, n)[0 := Call(CLIENT, slow')] == Cast(slow', done, p, n)
    ensures |Cast(slow, done, p, n)| == 1 + done + n && Cast(slow, done, p, n)[0] == Call(CLIENT, slow)
  {
    hide Repeat;
  }

  lemma CastMore(slow: Phase, done: nat, p: Phase, n: nat)
    ensures Cast(slow, done, p, n) + [Call(CLIENT, p)] == Cast(slow, done, p, n + 1)
  {
  }

  /** The next of the waiting calls finishes. */
  lemma CastFinish(done: nat, p: Phase, n: nat)
    requires n >= 1
    ensures |Cast(Over, done, p, n)| > 1 + done && Cast(Over, done, p, n)[1 + done] == Call(CLIENT, p)
    ensures Cast(Over, done, p, n)[1 + done := Call(CLIENT, Over)] == Cast(Over, done + 1, p, n - 1)
  {
    hide Repeat;
    var a, b := Cast(Over, done, p, n)[1 + done := Call(CLIENT, Over)], Cast(Over, done + 1, p, n - 1);
    assert |a| == |b|;
    forall k | 0 <= k < |a| ensures a[k] == b[k] {
    }
  }

  /** An empty bucket of the client. */
  function Empty(c: Config, now: real): T.State {
    T.State(0.0, c.burst as real, c.rate, now)
  }

  lemma SpentScene(c: Config, t: State, t': State, slow: Phase)
    requires Proper(c) && Linked(t) && Spent(c, t, t', c.burst)
    requires t.entries == [] && t.table == map[] && t.log == [] && t.sweep.Resting? && t.calls == [Call(CLIENT, slow)]
    ensures Scene(c, t', t.now, Empty(c, t.now), t.now, Cast(slow, c.burst, Over, 0))
  {
    hide T.Allow, T.Refill, T.Valid;
    NewWhole(c, t.now);
    RefillOfNew(c, t.now);
    BurstOfWhole(T.New(c.rate, c.burst, t.now), t.now, c.burst, c.burst);
    assert t'.calls == Cast(slow, c.burst, Over, 0);
  }

  /** The burst is spent while the slow call stands where it does. */
  lemma LeadSpend(c: Config, start: real, t: State, slow: Phase, d: real) returns (t': State)
    requires Proper(c) && d >= 0.0 && Reaches(c, start, Careful(d), t) && Linked(t)
    requires t.entries == [] && t.table == map[] && t.log == [] && t.sweep.Resting? && t.calls == [Call(CLIENT, slow)]
    ensures Reaches(c, start, Careful(d), t') && Linked(t')
    ensures Scene(c, t', t.now, Empty(c, t.now), t.now, Cast(slow, c.burst, Over, 0))
  {
    hide Reaches, Linked, Scene, Spent, Cast;
    t' := Spend(c, start, Careful(d), t, c.burst);
    SpentScene(c, t, t', slow);
  }

  lemma OneArrives(c: Config, start: real, d: real) returns (t: State)
    ensures Reaches(c, start, Careful(d), t) && Linked(t)
    ensures t == Begin(start).(calls := [Call(CLIENT, Entered)])
  {
    hide Reaches, Linked, Fine;
    ReachesStart(c, start, Careful(d));
    PromptIsFine(Next(c, Begin(start), Arrive(CLIENT)), d);
    t := Go(c, start, Careful(d), Begin(start), Arrive(CLIENT));
  }

  /** The client spends its burst at `y`; a slow call is stamped at `s` and has gone no further `e` later. */
  lemma Lead(c: Config, s: real, e: real, y: real, d: real) returns (start: real, t: State)
    requires Proper(c) && 0.0 <= e <= d && y <= s + e
    ensures Reaches(c, start, Careful(d), t) && Linked(t)
    ensures Scene(c, t, s + e, Empty(c, y), y, Cast(Stamped(s), c.burst, Over, 0))
  {
    hide Reaches, Linked, Cast, Next, Own;
    if y <= s {
      start := y;
      var t1 := OneArrives(c, start, d);
      var t2 := LeadSpend(c, start, t1, Entered, d);
      CastPrompt(Entered, c.burst, Over, 0, s, d);
      var t3 := SceneWait(c, start, t2, y, Empty(c, y), y, Cast(Entered, c.burst, Over, 0), s, d);
      t := LeadStamp(c, start, t3, s, y, d);
    } else {
      start := s;
      var t1 := OneArrives(c, start, d);
      var t2 := SlowStamp(c, start, t1, y, d);
      t := LeadSpend(c, start, t2, Stamped(s), d);
    }
    CastPrompt(Stamped(s), c.burst, Over, 0, s + e, d);
    t := SceneWait(c, start, t, if y <= s then s else y, Empty(c, y), y, Cast(Stamped(s), c.burst, Over, 0), s + e, d);
  }

  lemma LeadStamp(c: Config, start: real, t: State, s: real, y: real, d: real) returns (t': State)
    requires c.burst >= 0 && d >= 0.0 && Reaches(c, start, Careful(d), t) && Linked(t)
    requires Scene(c, t, s, Empty(c, y), y, Cast(Entered, c.burst, Over, 0))
    ensures Reaches(c, start, Careful(d), t') && Linked(t')
    ensures Scene(c, t', s, Empty(c, y), y, Cast(Stamped(s), c.burst, Over, 0))
  {
    hide Reaches, Linked, Cast, Own;
    CastFirst(Entered, Stamped(s), c.burst, Over, 0);
    CastPrompt(Stamped(s), c.burst, Over, 0, s, d);
    t' := SceneStep(c, start, t, t.calls, 0, Stamped(s), d);
  }

  lemma SlowStamp(c: Config, start: real, t: State, y: real, d: real) returns (t': State)
    requires d >= 0.0 && Reaches(c, start, Careful(d), t) && Linked(t) && start <= y <= start + d
    requires t == Begin(start).(calls := [Call(CLIENT, Entered)])
    ensures Reaches(c, start, Careful(d), t') && Linked(t')
    ensures t' == Begin(y).(calls := [Call(CLIENT, Stamped(start))])
  {
    hide Reaches, Linked, Fine;
    assert AllPrompt(t.calls[0 := Call(CLIENT, Stamped(start))], start, d);
    var t1 := SceneStep(c, start, t, t.calls, 0, Stamped(start), d);
    PromptIsFine(Next(c, t1, Wait(y - start)), d);
    t' := Go(c, start, Careful(d), t1, Wait(y - start));
  }

  /** Then others come and store their later stamps. */
  lemma {:induction false} MarkMany(c: Config, start: real, t: State, now: real, b: T.State, seen: real,
                                    slow: Phase, done: nat, n: nat, d: real) returns (t': State)
    requires d >= 0.0 && Reaches(c, start, Careful(d), t) && Linked(t)
    requires Scene(c, t, now, b, seen, Cast(slow, done, Marked(now, 0), 0))
    ensures Reaches(c, start, Careful(d), t') && Linked(t')
    ensures Scene(c, t', now, b, if n == 0 then seen else now, Cast(slow, done, Marked(now, 0), n))
  {
    hide Reaches, Linked, Cast, Own;
    if n == 0 {
      t' := t;
    } else {
      var t1 := MarkMany(c, start, t, now, b, seen, slow, done, n - 1, d);
      t' := MarkCall(c, start, Careful(d), t1);
      CastMore(slow, done, Marked(now, 0), n - 1);
    }
  }

  /** The slow call stores its old stamp over theirs and takes. */
  lemma SlowTakes(c: Config, start: real, t: State, now: real, b: T.State, seen: real,
                  s: real, done: nat, p: Phase, n: nat, d: real) returns (t': State)
    requires d >= 0.0 && Reaches(c, start, Careful(d), t) && Linked(t)
    requires Scene(c, t, now, b, seen, Cast(Stamped(s), done, p, n))
    requires now <= s + d && (InFlight(p) ==> now <= p.stamp + d)
    ensures Reaches(c, start, Careful(d), t') && Linked(t')
    ensures Scene(c, t', now, T.Allow(b, now).0, s, Cast(Over, done, p, n))
  {
    hide Reaches, Linked, Cast, Own, T.Allow;
    CastFirst(Stamped(s), Holding(s, 0), done, p, n);
    CastPrompt(Holding(s, 0), done, p, n, now, d);
    var t1 := SceneStep(c, start, t, t.calls, 0, Holding(s, 0), d);
    CastFirst(Holding(s, 0), Marked(s, 0), done, p, n);
    CastPrompt(Marked(s, 0), done, p, n, now, d);
    var t2 := SceneStep(c, start, t1, t1.calls, 0, Marked(s, 0), d);
    CastFirst(Marked(s, 0), Over, done, p, n);
    CastPrompt(Over, done, p, n, now, d);
    t' := SceneStep(c, start, t2, t2.calls, 0, Over, d);
    OwnOn(c, t.log, Took(CLIENT, 0, now, T.Allow(b, now).1), CLIENT);
  }

  /** The others take, one after another. */
  lemma {:induction false} TakeMany(c: Config, start: real, t: State, now: real, b: T.State, seen: real,
                                    stamp: real, done: nat, k: nat, n: nat, d: real) returns (t': State)
    requires k <= n && Reaches(c, start, Careful(d), t) && Linked(t) && now <= stamp + d
    requires Scene(c, t, now, b, seen, Cast(Over, done, Marked(stamp, 0), n))
    ensures Reaches(c, start, Careful(d), t') && Linked(t')
    ensures Scene(c, t', now, Burst(b, now, k), seen, Cast(Over, done + k, Marked(stamp, 0), n - k))
  {
    hide Reaches, Linked, Cast, Own, T.Allow;
    if k == 0 {
      t' := t;
    } else {
      var t1 := TakeMany(c, start, t, now, b, seen, stamp, done, k - 1, n, d);
      var p, i := Marked(stamp, 0), 1 + done + (k - 1);
      CastFinish(done + (k - 1), p, n - (k - 1));
      CastPrompt(Over, done + k, p, n - k, now, d);
      var own := Burst(b, now, k - 1);
      t' := SceneStep(c, start, t1, t1.calls, i, Over, d);
      OwnOn(c, t1.log, Took(CLIENT, 0, now, T.Allow(own, now).1), CLIENT);
    }
  }

  /** With no call on, the cleanup finds the old stamp and removes the entry. */
  lemma SweepAway(c: Config, start: real, t: State, b: T.State, seen: real, done: nat, p: Phase, d: real)
    returns (t': State)
    requires Reaches(c, start, Careful(d), t) && Linked(t) && 0.0 <= seen < 1.0
    requires Scene(c, t, 301.0, b, seen, Cast(Over, done, p, 0))
    ensures Reaches(c, start, Careful(d), t') && Linked(t') && CLIENT !in t'.table && !t'.sweep.Condemned?
    ensures t'.now == 301.0 && Own(c, t'.log, CLIENT) == Some(b)
  {
    hide Reaches, Linked, Fine, Own;
    assert seen.Floor == 0 && (301.0 - L.IDLE_SECONDS).Floor == 1;
    AllOver(t, done, p);
    OverIsFine(Next(c, t, BeginSweep), d);
    var t1 := Go(c, start, Careful(d), t, BeginSweep);
    OverIsFine(Next(c, t1, Check(CLIENT)), d);
    var t2 := Go(c, start, Careful(d), t1, Check(CLIENT));
    OverIsFine(Next(c, t2, Remove), d);
    t' := Go(c, start, Careful(d), t2, Remove);
    OwnOn(c, t.log, Removed(CLIENT), CLIENT);
  }

  ghost predicate Finished(calls: seq<Call>) {
    forall i :: 0 <= i < |calls| ==> calls[i].phase.Over?
  }

  lemma AllOver(t: State, done: nat, p: Phase)
    requires t.calls == Cast(Over, done, p, 0)
    ensures Finished(t.calls)
  {
  }

  lemma OverIsFine(t: State, d: real)
    requires Finished(t.calls)
    ensures Fine(t, Careful(d))
  {
  }

  // ----- the instants

  /** Delays of at most `d` and an instant of the first second that leave a drained bucket short at second 301. */
  lemma Instants(c: Config, d: real) returns (s: real, e: real)
    requires Proper(c) && d >= 0.0 && c.burst as real > T.Flow(c.rate, L.IDLE_SECONDS - d - d)
    ensures 0.0 <= s < 1.0 && 0.0 <= e <= d && e < 150.0
    ensures T.Flow(c.rate, 301.0 - (s + e + e)) < c.burst as real
  {
    hide T.Flow;
    var full := c.burst as real / c.rate;
    T.DivideDeficit(L.IDLE_SECONDS - d - d, c.burst as real, c.rate);
    FullIsPositive(c);
    e := if d < 150.0 then d else if full > 300.0 then 0.0 else 150.0 - full / 4.0;
    var gap := 300.0 - e - e;
    assert gap < full;
    s := if full - gap > 2.0 then 0.0 else 1.0 - (full - gap) / 2.0;
    T.DivideDeficit(301.0 - (s + e + e), c.burst as real, c.rate);
  }

  lemma FullIsPositive(c: Config)
    requires Proper(c)
    ensures c.burst as real / c.rate > 0.0
  {
    hide T.Flow;
    assert T.Flow(c.rate, 0.0) == 0.0 by { NoFlow(c.rate); }
    T.DivideDeficit(0.0, c.burst as real, c.rate);
  }

  lemma NoFlow(rate: real)
    ensures T.Flow(rate, 0.0) == 0.0
  {
  }

  lemma FlowOfShare(rate: real, z: real)
    requires rate > 0.0
    ensures T.Flow(rate, z / rate) == z
  {
  }

  lemma FlowFraction(rate: real, e: real) returns (m: nat, z: real)
    requires rate > 0.0 && e >= 0.0
    ensures 0.0 <= z < 1.0 && z + T.Flow(rate, e) == m as real && (m == 0 ==> e == 0.0)
  {
    hide T.Flow;
    T.FlowNonNegative(rate, e);
    var f := T.Flow(rate, e);
    T.CeilBounds(f);
    m := T.Ceil(f);
    z := m as real - f;
    if e > 0.0 { FlowPositive(rate, e); }
  }

  lemma FlowPositive(rate: real, e: real)
    requires rate > 0.0 && e > 0.0
    ensures T.Flow(rate, e) > 0.0
  {
  }

  /** The slow call is refused, for less than a token has flowed in. */
  lemma SlowRefused(c: Config, y: real, now: real, z: real)
    requires Proper(c) && y <= now && T.Flow(c.rate, now - y) == z && 0.0 <= z < 1.0
    ensures T.Allow(Empty(c, y), now).0 == T.State(z, c.burst as real, c.rate, now)
  {
  }

  /** What has flowed in by the last takes is whole, so they empty the bucket. */
  lemma Emptied(c: Config, z: real, before: real, e: real, m: nat)
    requires Proper(c) && e >= 0.0 && 0.0 <= z < 1.0 && z + T.Flow(c.rate, e) == m as real && (m == 0 ==> e == 0.0)
    ensures Burst(T.State(z, c.burst as real, c.rate, before), before + e, m) == Empty(c, before + e)
  {
    hide T.Flow, T.Allow;
    var b, now := T.State(z, c.burst as real, c.rate, before), before + e;
    T.FlowNonNegative(c.rate, e);
    if m == 0 {
      NoFlow(c.rate);
    } else {
      var whole: nat := if m <= c.burst then m else c.burst;
      assert now - before == e;
      assert T.Refill(b, now).tokens == whole as real;
      BurstOfWhole(b, now, m, whole);
    }
  }

  lemma EmptyIsShort(c: Config, last: real, now: real)
    requires Proper(c) && last <= now && T.Flow(c.rate, now - last) < c.burst as real
    ensures Fits(c, Empty(c, last), now) && T.Refill(Empty(c, last), now).tokens < c.burst as real
  {
  }

  /**
    Above 300 - 2d seconds of refill a restricted run notices eviction. A slow call, stamped at `s`, stores its
    stamp at `s + e` over the later stamps of others, which empty the bucket only at `s + 2e`; nobody is left when
    the cleanup finds the second of `s` too old.
   */
  lemma StampPushedBack(c: Config, d: real) returns (start: real, actions: seq<Action>)
    requires Proper(c) && d >= 0.0 && c.burst as real > T.Flow(c.rate, L.IDLE_SECONDS - d - d)
    ensures Respects(c, start, actions, Careful(d)) && !Agrees(c, After(c, start, actions).log)
  {
    hide Reaches, Linked, Cast, T.Flow, T.Allow, T.Refill, T.Valid, Own, Agrees, Respects, After;
    var s, e := Instants(c, d);
    var m, z := FlowFraction(c.rate, e);
    var y := s + e - z / c.rate;
    FlowOfShare(c.rate, z);
    ShareNonNegative(c.rate, z);
    var stamp, last := s + e, s + e + e;
    var t1;
    start, t1 := Lead(c, s, e, y, d);
    CastNone(Stamped(s), c.burst, Over, Marked(stamp, 0));
    var t2 := MarkMany(c, start, t1, stamp, Empty(c, y), y, Stamped(s), c.burst, m, d);
    var seen := if m == 0 then y else stamp;
    var t3 := SlowTakes(c, start, t2, stamp, Empty(c, y), seen, s, c.burst, Marked(stamp, 0), m, d);
    SlowRefused(c, y, stamp, z);
    var b := T.State(z, c.burst as real, c.rate, stamp);
    CastPrompt(Over, c.burst, Marked(stamp, 0), m, last, d);
    var t4 := SceneWait(c, start, t3, stamp, b, s, Cast(Over, c.burst, Marked(stamp, 0), m), last, d);
    var t5 := TakeMany(c, start, t4, last, b, s, stamp, c.burst, m, m, d);
    Emptied(c, z, stamp, e, m);
    CastNone(Over, c.burst + m, Marked(stamp, 0), Over);
    CastPrompt(Over, c.burst + m, Over, 0, 301.0, d);
    var t6 := SceneWait(c, start, t5, last, Empty(c, last), s, Cast(Over, c.burst + m, Over, 0), 301.0, d);
    var t7 := SweepAway(c, start, t6, Empty(c, last), s, c.burst + m, Over, d);
    EmptyIsShort(c, last, 301.0);
    actions := ShortOwnShows(c, start, Careful(d), t7);
  }

  lemma ShareNonNegative(rate: real, z: real)
    requires rate > 0.0 && z >= 0.0
    ensures z / rate >= 0.0
  {
  }

  lemma CastNone(slow: Phase, done: nat, p: Phase, p': Phase)
    ensures Cast(slow, done, p, 0) == Cast(slow, done, p', 0)
  {
  }

  // ----- the exact conditions

  /**
    In runs in which no call is more than `d` seconds past its stamp and none holds a condemned entry, eviction is
    never noticed exactly when the burst is at most 300 - 2d seconds of refill.
   */
  lemma EvictionInvisibleExactly(c: Config, d: real)
    requires Proper(c) && d >= 0.0
    ensures EvictionInvisible(c, Careful(d)) <==> c.burst as real <= (300.0 - 2.0 * d) * c.rate
  {
    hide Respects, Agrees, After, T.Flow;
    DelayFlow(c.rate, d);
    if c.burst as real <= T.Flow(c.rate, L.IDLE_SECONDS - d - d) {
      forall start, actions | Respects(c, start, actions, Careful(d)) ensures Agrees(c, After(c, start, actions).log) {
        AlwaysTied(c, start, actions, d);
      }
    } else {
      var start, actions := StampPushedBack(c, d);
      assert !EvictionInvisible(c, Careful(d));
    }
  }

  lemma DelayFlow(rate: real, d: real)
    ensures T.Flow(rate, L.IDLE_SECONDS - d - d) == (L.IDLE_SECONDS - 2.0 * d) * rate
  {
  }

  /**
    Without the restriction eviction is noticed for every rate and burst, and also if calls are prompt and no entry
    is removed while a call holds it.
   */
  lemma EvictionVisibleOtherwise(c: Config, d: real)
    requires Proper(c) && d >= 0.0
    ensures !EvictionInvisible(c, Any) && !EvictionInvisible(c, Unheld(d))
  {
    hide Respects, Agrees, After;
    var held := HeldEntryIsLost(c);
    var gap := CallInTheGap(c, d);
  }

  // ----- a sweep that nothing interrupts

  /** The clients whose entries a sweep with this cutoff finds stale. */
  function StaleClients(t: State, cutoff: int): set<string>
    requires Linked(t)
  {
    set u | u in t.table && t.entries[t.table[u]].seen.Floor < cutoff
  }

  /** Checking an entry that is not stale changes nothing. */
  lemma FreshIsLeft(c: Config, t: State, u: string)
    requires Linked(t) && t.sweep.Sweeping? && u in t.table && u !in StaleClients(t, t.sweep.cutoff)
    ensures Next(c, t, Check(u)) == t
  {
  }

  lemma SweepOne(c: Config, start: real, t: State, u: string) returns (t': State)
    requires Reaches(c, start, Any, t) && Linked(t) && t.sweep.Sweeping? && u in StaleClients(t, t.sweep.cutoff)
    ensures Reaches(c, start, Any, t') && Linked(t') && t'.sweep == t.sweep && t'.now == t.now
    ensures t'.entries == t.entries && t'.calls == t.calls && t'.table == t.table - {u}
    ensures StaleClients(t', t.sweep.cutoff) == StaleClients(t, t.sweep.cutoff) - {u}
  {
    hide Reaches, Linked;
    var t1 := Go(c, start, Any, t, Check(u));
    t' := Go(c, start, Any, t1, Remove);
  }

  lemma {:induction false} SweepAll(c: Config, start: real, t: State, n: nat) returns (t': State)
    requires Reaches(c, start, Any, t) && Linked(t) && t.sweep.Sweeping? && n == |StaleClients(t, t.sweep.cutoff)|
    ensures Reaches(c, start, Any, t') && Linked(t') && t'.sweep == t.sweep && t'.now == t.now
    ensures t'.entries == t.entries && t'.calls == t.calls && t'.table == t.table - StaleClients(t, t.sweep.cutoff)
    decreases n
  {
    hide Reaches, Linked, StaleClients;
    var stale := StaleClients(t, t.sweep.cutoff);
    if stale == {} {
      t' := t;
      assert t.table - stale == t.table;
    } else {
      var u :| u in stale;
      var t1 := SweepOne(c, start, t, u);
      t' := SweepAll(c, start, t1, n - 1);
      assert t.table - {u} - (stale - {u}) == t.table - stale;
    }
  }

  lemma SweptView(t: State, t': State, cutoff: int, now: real)
    requires Linked(t) && Linked(t') && cutoff == (now - L.IDLE_SECONDS).Floor
    requires t'.entries == t.entries && t'.table == t.table - StaleClients(t, cutoff)
    ensures View(t') == L.Evicted(View(t), now)
  {
  }

  /**
    A sweep that nothing interrupts, which checks and removes every stale entry in any order, does what the
    limiter's `Cleanup` does.
   */
  lemma UninterruptedSweep(c: Config, start: real, t: State) returns (t': State)
    requires Reaches(c, start, Any, t) && Linked(t) && t.sweep.Resting?
    ensures Reaches(c, start, Any, t') && Linked(t') && t'.sweep.Resting? && t'.now == t.now
    ensures t'.entries == t.entries && t'.calls == t.calls
    ensures View(t') == L.Evicted(View(t), t.now)
  {
    hide Reaches, Linked, StaleClients, View, L.Evicted;
    var t1 := Go(c, start, Any, t, BeginSweep);
    var cutoff := t1.sweep.cutoff;
    SameStale(t, t1, cutoff);
    var t2 := SweepAll(c, start, t1, |StaleClients(t1, cutoff)|);
    t' := Go(c, start, Any, t2, EndSweep);
    SweptView(t, t', cutoff, t.now);
  }

  lemma SameStale(t: State, t': State, cutoff: int)
    requires Linked(t) && Linked(t') && t'.entries == t.entries && t'.table == t.table
    ensures StaleClients(t', cutoff) == StaleClients(t, cutoff)
  {
  }
}
