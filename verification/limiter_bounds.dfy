/** How much a client can gain from evictions, in every interleaving. */
module LimiterBounds {
  import opened LimiterRuns
  import opened LimiterWitness
  import L = Limiter
  import T = TokenBucket

  predicate Counts(e: Event, s: real, u: real) {
    e.Took? && e.ok && s <= e.at <= u
  }

  /** The takes admitted from one entry in [s, u]. */
  function AdmittedFrom(log: seq<Event>, entry: nat, s: real, u: real): nat {
    if log == [] then 0
    else
      var e := log[|log| - 1];
      AdmittedFrom(log[..|log| - 1], entry, s, u) + if Counts(e, s, u) && e.entry == entry then 1 else 0
  }

  /** The takes of a client admitted in [s, u]. */
  function Admitted(log: seq<Event>, client: string, s: real, u: real): nat {
    if log == [] then 0
    else
      var e := log[|log| - 1];
      Admitted(log[..|log| - 1], client, s, u) + if Counts(e, s, u) && e.client == client then 1 else 0
  }

  function Evictions(log: seq<Event>, client: string): nat {
    if log == [] then 0
    else Evictions(log[..|log| - 1], client) + if log[|log| - 1] == Removed(client) then 1 else 0
  }

  lemma LogOn(log: seq<Event>, e: Event, client: string, entry: nat, s: real, u: real)
    ensures AdmittedFrom(log + [e], entry, s, u) ==
      AdmittedFrom(log, entry, s, u) + if Counts(e, s, u) && e.entry == entry then 1 else 0
    ensures Admitted(log + [e], client, s, u) ==
      Admitted(log, client, s, u) + if Counts(e, s, u) && e.client == client then 1 else 0
    ensures Evictions(log + [e], client) == Evictions(log, client) + if e == Removed(client) then 1 else 0
  {
    assert (log + [e])[..|log|] == log;
  }

  // ----- one entry

  /** What an entry's bucket has admitted since `s` and still holds is bounded by what it had and what flowed in. */
  ghost predicate EntryBound(c: Config, b: T.State, n: nat, s: real, u: real) {
    if b.lastTime < s then n == 0
    else if b.lastTime <= u then n as real + b.tokens <= c.burst as real + T.Flow(c.rate, b.lastTime - s)
    else n as real <= c.burst as real + T.Flow(c.rate, u - s)
  }

  lemma EntryTakes(c: Config, b: T.State, n: nat, now: real, s: real, u: real)
    requires Proper(c) && Fits(c, b, now) && s <= u && EntryBound(c, b, n, s, u)
    ensures EntryBound(c, T.Allow(b, now).0, n + (if s <= now <= u && T.Allow(b, now).1 then 1 else 0), s, u)
  {
    hide T.Flow, T.Refill;
    T.RefillKeeps(b, now);
    T.RefillAtMostMax(b, now);
    if s <= b.lastTime <= u {
      T.RefillBound(b, now, s, n);
      T.FlowNonNegative(c.rate, u - b.lastTime);
      T.FlowAdds(c.rate, b.lastTime - s, u - b.lastTime);
      assert b.lastTime - s + (u - b.lastTime) == u - s;
    }
    if s <= now { T.FlowNonNegative(c.rate, now - s); }
    T.FlowNonNegative(c.rate, u - s);
  }

  /** The log speaks of entries that exist, each of its own client. */
  ghost predicate KnownLog(t: State) {
    forall k :: 0 <= k < |t.log| && t.log[k].Took? ==>
      t.log[k].entry < |t.entries| && t.entries[t.log[k].entry].client == t.log[k].client
  }

  ghost predicate EntriesBound(c: Config, t: State, s: real, u: real) {
    && KnownLog(t)
    && forall e :: 0 <= e < |t.entries| ==>
      EntryBound(c, t.entries[e].bucket, AdmittedFrom(t.log, e, s, u), s, u)
  }

  lemma {:induction false} NothingFromNew(log: seq<Event>, entry: nat, s: real, u: real)
    requires forall k :: 0 <= k < |log| && log[k].Took? ==> log[k].entry < entry
    ensures AdmittedFrom(log, entry, s, u) == 0
  {
    if log != [] { NothingFromNew(log[..|log| - 1], entry, s, u); }
  }

  lemma BoundInsert(c: Config, t: State, entry: Entry, s: real, u: real)
    requires Proper(c) && s <= u && EntriesBound(c, t, s, u)
    requires Fits(c, entry.bucket, t.now)
    ensures EntriesBound(c, t.(entries := t.entries + [entry]), s, u)
  {
    hide T.Flow, AdmittedFrom;
    NothingFromNew(t.log, |t.entries|, s, u);
    if s <= entry.bucket.lastTime { T.FlowNonNegative(c.rate, entry.bucket.lastTime - s); }
    T.FlowNonNegative(c.rate, u - s);
  }

  lemma BoundTake(c: Config, t: State, i: nat, s: real, u: real)
    requires Proper(c) && s <= u && Linked(t) && Sound(c, t) && EntriesBound(c, t, s, u)
    requires i < |t.calls| && t.calls[i].phase.Marked? && t.calls[i].phase.entry < |t.entries|
    ensures EntriesBound(c, Moved(c, t, i), s, u)
  {
    hide T.Flow, T.Allow, T.Valid, AdmittedFrom, EntryBound;
    var t', e := Moved(c, t, i), t.calls[i].phase.entry;
    var ev := Took(t.calls[i].client, e, t.now, T.Allow(t.entries[e].bucket, t.now).1);
    EntryTakes(c, t.entries[e].bucket, AdmittedFrom(t.log, e, s, u), t.now, s, u);
    forall k | 0 <= k < |t'.entries|
      ensures EntryBound(c, t'.entries[k].bucket, AdmittedFrom(t'.log, k, s, u), s, u)
    {
      LogOn(t.log, ev, "", k, s, u);
    }
  }

  lemma BoundStep(c: Config, t: State, a: Action, s: real, u: real)
    requires Proper(c) && s <= u && Linked(t) && Sound(c, t) && EntriesBound(c, t, s, u)
    ensures EntriesBound(c, Next(c, t, a), s, u)
  {
    hide T.Flow, T.Allow, T.New, T.Valid, AdmittedFrom, EntryBound;
    match a {
      case Step(i) =>
        if i < |t.calls| {
          var p := t.calls[i].phase;
          if p.Marked? { BoundTake(c, t, i, s, u); }
          if p.Made? && t.calls[i].client !in t.table {
            BoundInsert(c, t, Entry(t.calls[i].client, p.bucket, p.stamp), s, u);
          }
        }
      case Remove =>
        if t.sweep.Condemned? {
          forall k | 0 <= k < |t.entries|
            ensures AdmittedFrom(t.log + [Removed(t.sweep.client)], k, s, u) == AdmittedFrom(t.log, k, s, u)
          {
            LogOn(t.log, Removed(t.sweep.client), "", k, s, u);
          }
        }
      case _ =>
    }
  }

  lemma {:induction false} AlwaysBound(c: Config, start: real, actions: seq<Action>, s: real, u: real)
    requires Proper(c) && s <= u
    ensures EntriesBound(c, After(c, start, actions), s, u)
  {
    hide Next, EntriesBound;
    if actions == [] {
      NothingIsBound(c, start, s, u);
    } else {
      var front := actions[..|actions| - 1];
      AlwaysBound(c, start, front, s, u);
      AlwaysSound(c, start, front);
      BoundStep(c, After(c, start, front), actions[|actions| - 1], s, u);
    }
  }

  lemma NothingIsBound(c: Config, start: real, s: real, u: real)
    ensures EntriesBound(c, Begin(start), s, u)
  {
  }

  // ----- all entries of a client

  function EntriesOf(entries: seq<Entry>, client: string, n: nat): nat
    requires n <= |entries|
  {
    if n == 0 then 0 else EntriesOf(entries, client, n - 1) + if entries[n - 1].client == client then 1 else 0
  }

  /** The sum over the client's first entries. */
  function AdmittedFromAll(log: seq<Event>, entries: seq<Entry>, client: string, n: nat, s: real, u: real): nat
    requires n <= |entries|
  {
    if n == 0 then 0
    else
      AdmittedFromAll(log, entries, client, n - 1, s, u)
      + if entries[n - 1].client == client then AdmittedFrom(log, n - 1, s, u) else 0
  }

  lemma {:induction false} SumOn(log: seq<Event>, e: Event, entries: seq<Entry>, client: string, n: nat,
                                 s: real, u: real)
    requires n <= |entries|
    ensures AdmittedFromAll(log + [e], entries, client, n, s, u) == AdmittedFromAll(log, entries, client, n, s, u)
      + if Counts(e, s, u) && e.entry < n && entries[e.entry].client == client then 1 else 0
  {
    hide AdmittedFrom;
    if n > 0 {
      SumOn(log, e, entries, client, n - 1, s, u);
      LogOn(log, e, client, n - 1, s, u);
    }
  }

  lemma {:induction false} SumOfNothing(entries: seq<Entry>, client: string, n: nat, s: real, u: real)
    requires n <= |entries|
    ensures AdmittedFromAll([], entries, client, n, s, u) == 0
  {
    if n > 0 { SumOfNothing(entries, client, n - 1, s, u); }
  }

  /** Every take is from some entry of its client. */
  lemma {:induction false} AdmittedSplits(log: seq<Event>, entries: seq<Entry>, client: string, s: real, u: real)
    requires forall k :: 0 <= k < |log| && log[k].Took? ==>
      log[k].entry < |entries| && entries[log[k].entry].client == log[k].client
    ensures Admitted(log, client, s, u) == AdmittedFromAll(log, entries, client, |entries|, s, u)
  {
    hide AdmittedFromAll;
    if log == [] {
      SumOfNothing(entries, client, |entries|, s, u);
    } else {
      var front, e := log[..|log| - 1], log[|log| - 1];
      assert log == front + [e];
      AdmittedSplits(front, entries, client, s, u);
      SumOn(front, e, entries, client, |entries|, s, u);
    }
  }

  function Shares(n: nat, x: real): real {
    n as real * x
  }

  lemma OneShare(n: nat, x: real)
    ensures Shares(0, x) == 0.0 && Shares(n + 1, x) == Shares(n, x) + x
  {
  }

  lemma {:induction false} SumBound(c: Config, t: State, client: string, n: nat, s: real, u: real)
    requires Proper(c) && s <= u && n <= |t.entries| && EntriesBound(c, t, s, u) && Sound(c, t)
    ensures AdmittedFromAll(t.log, t.entries, client, n, s, u) as real
         <= Shares(EntriesOf(t.entries, client, n), c.burst as real + T.Flow(c.rate, u - s))
  {
    hide T.Flow, AdmittedFrom, Shares, T.Valid;
    if n == 0 {
      OneShare(0, c.burst as real + T.Flow(c.rate, u - s));
    } else {
      SumBound(c, t, client, n - 1, s, u);
      EntryAtMost(c, t.entries[n - 1].bucket, AdmittedFrom(t.log, n - 1, s, u), t.now, s, u);
      OneShare(EntriesOf(t.entries, client, n - 1), c.burst as real + T.Flow(c.rate, u - s));
    }
  }

  lemma EntryAtMost(c: Config, b: T.State, n: nat, now: real, s: real, u: real)
    requires Proper(c) && Fits(c, b, now) && s <= u && EntryBound(c, b, n, s, u)
    ensures n as real <= c.burst as real + T.Flow(c.rate, u - s)
  {
    hide T.Flow;
    T.FlowNonNegative(c.rate, u - s);
    if s <= b.lastTime <= u {
      T.FlowNonNegative(c.rate, u - b.lastTime);
      T.FlowAdds(c.rate, b.lastTime - s, u - b.lastTime);
      assert b.lastTime - s + (u - b.lastTime) == u - s;
    }
  }

  /** A client has no more entries than were removed and the one in the table. */
  ghost predicate FewEntries(t: State, client: string) {
    EntriesOf(t.entries, client, |t.entries|) <= Evictions(t.log, client) + if client in t.table then 1 else 0
  }

  lemma {:induction false} EntriesOfSame(entries: seq<Entry>, entries': seq<Entry>, client: string, n: nat)
    requires n <= |entries| && n <= |entries'|
    requires forall k :: 0 <= k < n ==> entries'[k].client == entries[k].client
    ensures EntriesOf(entries', client, n) == EntriesOf(entries, client, n)
  {
    if n > 0 { EntriesOfSame(entries, entries', client, n - 1); }
  }

  lemma FewEntriesMoved(c: Config, t: State, i: nat, client: string)
    requires Linked(t) && FewEntries(t, client)
    requires i < |t.calls| && (Holds(t.calls[i].phase) ==> t.calls[i].phase.entry < |t.entries|)
    ensures FewEntries(Moved(c, t, i), client)
  {
    hide T.Allow, T.New, Evictions, EntriesOf;
    var t' := Moved(c, t, i);
    EntriesOfSame(t.entries, t'.entries, client, |t.entries|);
    match t.calls[i].phase {
      case Marked(_, _) => LogOn(t.log, t'.log[|t.log|], client, 0, 0.0, 0.0);
      case Made(_, _) => if t.calls[i].client !in t.table { EntriesOfMore(t'.entries, client); }
      case _ =>
    }
  }

  lemma EntriesOfMore(entries: seq<Entry>, client: string)
    requires entries != []
    ensures var n := |entries| - 1;
      EntriesOf(entries, client, n + 1) == EntriesOf(entries, client, n) + if entries[n].client == client then 1 else 0
  {
  }

  lemma FewEntriesStep(c: Config, t: State, a: Action, client: string)
    requires Linked(t) && FewEntries(t, client)
    ensures FewEntries(Next(c, t, a), client)
  {
    hide Moved, Evictions, EntriesOf;
    if a.Remove? && t.sweep.Condemned? {
      LogOn(t.log, Removed(t.sweep.client), client, 0, 0.0, 0.0);
    } else if a.Step? && a.call < |t.calls| {
      FewEntriesMoved(c, t, a.call, client);
    }
  }

  lemma {:induction false} AlwaysFewEntries(c: Config, start: real, actions: seq<Action>, client: string)
    ensures FewEntries(After(c, start, actions), client)
  {
    hide Next;
    if actions != [] {
      AlwaysFewEntries(c, start, actions[..|actions| - 1], client);
      FewEntriesStep(c, After(c, start, actions[..|actions| - 1]), actions[|actions| - 1], client);
    }
  }

  lemma SharesGrow(k: nat, n: nat, x: real)
    requires k <= n && x >= 0.0
    ensures Shares(k, x) <= Shares(n, x)
  {
    if k < n {
      hide Shares;
      SharesGrow(k, n - 1, x);
      OneShare(n - 1, x);
    }
  }

  /** In every interleaving a client is admitted at most (1 + evictions) * (burst + rate * (u - s)) times in [s, u]. */
  lemma AdmittedAtMost(c: Config, start: real, actions: seq<Action>, client: string, s: real, u: real)
    requires Proper(c) && s <= u
    ensures var t := After(c, start, actions);
      Admitted(t.log, client, s, u) as real
        <= (1 + Evictions(t.log, client)) as real * (c.burst as real + c.rate * (u - s))
  {
    hide After, Admitted, Evictions, Shares, T.Flow;
    var t := After(c, start, actions);
    AdmittedByShares(c, start, actions, client, s, u);
    SharesIs(1 + Evictions(t.log, client), c.burst as real, c.rate, u - s);
  }

  lemma SharesIs(n: nat, burst: real, rate: real, seconds: real)
    ensures Shares(n, burst + T.Flow(rate, seconds)) == n as real * (burst + rate * seconds)
  {
    assert T.Flow(rate, seconds) == rate * seconds;
  }

  lemma AdmittedByShares(c: Config, start: real, actions: seq<Action>, client: string, s: real, u: real)
    requires Proper(c) && s <= u
    ensures var t := After(c, start, actions);
      Admitted(t.log, client, s, u) as real
        <= Shares(1 + Evictions(t.log, client), c.burst as real + T.Flow(c.rate, u - s))
  {
    hide After, Sound, T.Flow, EntriesOf, AdmittedFrom, AdmittedFromAll, Admitted, Evictions, Shares, EntryBound;
    var t := After(c, start, actions);
    AlwaysBound(c, start, actions, s, u);
    AlwaysSound(c, start, actions);
    AlwaysFewEntries(c, start, actions, client);
    AdmittedSplits(t.log, t.entries, client, s, u);
    SumBound(c, t, client, |t.entries|, s, u);
    T.FlowNonNegative(c.rate, u - s);
    SharesGrow(EntriesOf(t.entries, client, |t.entries|), 1 + Evictions(t.log, client),
      c.burst as real + T.Flow(c.rate, u - s));
  }

  // ----- the bursts do not simply add up

  /** A bucket that holds one token and gains one in a thousand seconds. */
  const SLOW: Config := Config(0.001, 1)

  lemma SlowTakes(last: real, now: real)
    requires now >= last + 1000.0
    ensures T.Allow(T.State(0.0, 1.0, 0.001, last), now) == (T.State(0.0, 1.0, 0.001, now), true)
  {
  }

  lemma SlowFirst(now: real)
    ensures T.Allow(T.New(0.001, 1, now), now) == (T.State(0.0, 1.0, 0.001, now), true)
  {
    assert now - now == 0.0;
  }

  function SlowEmpty(last: real): T.State {
    T.State(0.0, 1.0, 0.001, last)
  }

  /** A call holds the dropped entry, and another has made a new one. */
  lemma DropAndHold() returns (t: State)
    ensures Reaches(SLOW, 0.0, Any, t) && Linked(t) && t.now == 301.0 && t.table == map[CLIENT := 1]
    ensures t.entries == [Entry(CLIENT, SlowEmpty(0.0), 0.0), Entry(CLIENT, SlowEmpty(301.0), 301.0)]
    ensures |t.calls| == 3 && t.calls[1] == Call(CLIENT, Holding(301.0, 0))
    ensures t.log == [] + [Took(CLIENT, 0, 0.0, true)] + [Removed(CLIENT)] + [Took(CLIENT, 1, 301.0, true)]
  {
    hide Reaches, Linked, T.Allow, T.New;
    ReachesStart(SLOW, 0.0, Any);
    SlowFirst(0.0);
    var t1 := WholeCall(SLOW, 0.0, Any, Begin(0.0));
    var t2 := Go(SLOW, 0.0, Any, t1, Wait(301.0));
    var t3 := Go(SLOW, 0.0, Any, t2, BeginSweep);
    assert (0.0).Floor == 0 && (301.0 - L.IDLE_SECONDS).Floor == 1;
    var t4 := Go(SLOW, 0.0, Any, t3, Check(CLIENT));
    var t5 := ArriveAndStamp(SLOW, 0.0, Any, t4);
    var t6 := Go(SLOW, 0.0, Any, t5, Step(1));
    assert t6.calls[1] == Call(CLIENT, Holding(301.0, 0));
    var t7 := Go(SLOW, 0.0, Any, t6, Remove);
    SlowFirst(301.0);
    t := WholeCall(SLOW, 0.0, Any, t7);
  }

  /** The stalled call takes from the dropped entry, and later another from the new one. */
  lemma BothFlow(t: State) returns (t': State)
    requires Reaches(SLOW, 0.0, Any, t) && Linked(t) && t.now == 301.0 && t.table == map[CLIENT := 1]
    requires t.entries == [Entry(CLIENT, SlowEmpty(0.0), 0.0), Entry(CLIENT, SlowEmpty(301.0), 301.0)]
    requires |t.calls| == 3 && t.calls[1] == Call(CLIENT, Holding(301.0, 0))
    ensures Reaches(SLOW, 0.0, Any, t')
    ensures t'.log == t.log + [Took(CLIENT, 0, 1000.0, true)] + [Took(CLIENT, 1, 1301.0, true)]
  {
    hide Reaches, Linked, T.Allow, T.New;
    var t1 := Go(SLOW, 0.0, Any, t, Wait(699.0));
    var t2 := Go(SLOW, 0.0, Any, t1, Step(1));
    assert t2.calls[1] == Call(CLIENT, Marked(301.0, 0));
    SlowTakes(0.0, 1000.0);
    var t3 := Go(SLOW, 0.0, Any, t2, Step(1));
    var t4 := Go(SLOW, 0.0, Any, t3, Wait(301.0));
    SlowTakes(301.0, 1301.0);
    t' := WholeCall(SLOW, 0.0, Any, t4);
  }

  /**
    A call that stalls on a dropped entry draws on two buckets at once: with one eviction, four takes are admitted
    in 1301 seconds, more than two bursts and what one bucket gains in that time.
   */
  lemma DroppedBucketFlowsOn() returns (actions: seq<Action>)
    ensures var log := After(SLOW, 0.0, actions).log;
      Admitted(log, CLIENT, 0.0, 1301.0) == 4 && Evictions(log, CLIENT) == 1
      && 4.0 > 2.0 * SLOW.burst as real + SLOW.rate * 1301.0
  {
    hide Reaches, Linked, After, Admitted, Evictions;
    var t := DropAndHold();
    var t' := BothFlow(t);
    FourTakes(t'.log);
    actions := RunTo(SLOW, 0.0, Any, t');
  }

  lemma FourTakes(log: seq<Event>)
    requires log == [] + [Took(CLIENT, 0, 0.0, true)] + [Removed(CLIENT)] + [Took(CLIENT, 1, 301.0, true)]
      + [Took(CLIENT, 0, 1000.0, true)] + [Took(CLIENT, 1, 1301.0, true)]
    ensures Admitted(log, CLIENT, 0.0, 1301.0) == 4 && Evictions(log, CLIENT) == 1
  {
    hide Admitted, Evictions;
    assert Admitted([], CLIENT, 0.0, 1301.0) == 0 && Evictions([], CLIENT) == 0 by { NothingYet(); }
    var l1 := [] + [Took(CLIENT, 0, 0.0, true)];
    var l2 := l1 + [Removed(CLIENT)];
    var l3 := l2 + [Took(CLIENT, 1, 301.0, true)];
    var l4 := l3 + [Took(CLIENT, 0, 1000.0, true)];
    LogOn([], Took(CLIENT, 0, 0.0, true), CLIENT, 0, 0.0, 1301.0);
    LogOn(l1, Removed(CLIENT), CLIENT, 0, 0.0, 1301.0);
    LogOn(l2, Took(CLIENT, 1, 301.0, true), CLIENT, 0, 0.0, 1301.0);
    LogOn(l3, Took(CLIENT, 0, 1000.0, true), CLIENT, 0, 0.0, 1301.0);
    LogOn(l4, Took(CLIENT, 1, 1301.0, true), CLIENT, 0, 0.0, 1301.0);
  }

  lemma NothingYet()
    ensures Admitted([], CLIENT, 0.0, 1301.0) == 0 && Evictions([], CLIENT) == 0
  {
  }
}
