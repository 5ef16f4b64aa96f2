/** Failover within one request, and what the breakers learn from it. */
module DispatchFailover {
  import opened Proxy
  import opened DispatchRequests
  import B = CircuitBreaker

  /** Nobody but the requests themselves changes the pool, and nobody revives a backend. */
  predicate Quiet(a: Action) {
    a.Arrive? || a.Run? || a.Wait? || (a.Judge? && !a.alive)
  }

  ghost predicate DistinctUrls(w: World) {
    Known(w, w.pool) && forall i, j :: 0 <= i < j < |w.pool| ==> w.servers[w.pool[i]].url != w.servers[w.pool[j]].url
  }

  /** The pool stays, and backends only die. */
  ghost predicate Fades(w: World, w': World) {
    && w'.pool == w.pool && |w'.servers| == |w.servers|
    && forall id :: 0 <= id < |w.servers| ==>
      w'.servers[id].url == w.servers[id].url && (w'.servers[id].alive ==> w.servers[id].alive)
  }

  ghost predicate AllPooled(w: World, ids: seq<nat>) {
    forall i :: 0 <= i < |ids| ==> ids[i] in w.pool
  }

  ghost predicate Pooled(w: World, p: Phase) {
    && (p.Filtering? ==> AllPooled(w, p.all) && AllPooled(w, p.kept))
    && (p.Selecting? ==> AllPooled(w, p.candidates))
    && (HasPeer(p) ==> p.peer in w.pool)
  }

  predicate Working(p: Phase) {
    p.Trying? || p.BackingOff? || p.Marking?
  }

  /** A backend the request was sent to is dead by now, unless it is the one being tried. */
  ghost predicate SpentOn(w: World, r: Request, id: nat) {
    && Count(ReachingOf(id), r.log) <= 1
    && (!Unwinding(r) && Count(ReachingOf(id), r.log) == 1 ==>
      var p := Top(r).phase;
      && id < |w.servers|
      && (w.servers[id].alive ==> Working(p) && p.peer == id)
      && (p.Asking? || p.Admitted? ==> p.peer != id))
  }

  ghost predicate Spent(w: World, r: Request) {
    (!Unwinding(r) ==> Pooled(w, Top(r).phase)) && forall id: nat :: SpentOn(w, r, id)
  }

  lemma TouchFades(c: Settings, w: World, r: Request, ch: Choice)
    requires r.stack != [] && KnownPhase(w, Top(r).phase) && Known(w, w.pool) && Plan(c, w, r, ch).Some?
    ensures Fades(w, Touch(c, w, r, ch))
  {
    hide Plan, B.Allow, B.RecordFailure, B.RecordSuccess, BreakerOf;
  }

  /** In a pool of distinct URLs, marking a backend's URL dead marks that backend. */
  lemma MarkKills(w: World, id: nat)
    requires DistinctUrls(w) && id in w.pool
    ensures id < |w.servers| && !MarkStatus(w, w.servers[id].url, false).servers[id].alive
  {
    var i :| 0 <= i < |w.pool| && w.pool[i] == id;
    var found := InPool(w, w.pool, w.servers[id].url);
    assert found.Some? && found.value == i;
  }

  lemma PlanPooled(c: Settings, w: World, r: Request, ch: Choice)
    requires r.stack != [] && KnownPhase(w, Top(r).phase) && Plan(c, w, r, ch).Some?
    requires Pooled(w, Top(r).phase) && Plan(c, w, r, ch).value.Become?
    ensures Pooled(w, Plan(c, w, r, ch).value.phase)
  {
    hide B.Allow, B.Eligible;
  }

  lemma PlanPicksAlive(c: Settings, w: World, r: Request, ch: Choice)
    requires r.stack != [] && KnownPhase(w, Top(r).phase) && Plan(c, w, r, ch).Some?
    requires Top(r).phase.Selecting? && Plan(c, w, r, ch).value.Become?
    ensures var p := Plan(c, w, r, ch).value.phase;
      HasPeer(p) && p.peer < |w.servers| && w.servers[p.peer].alive
  {
  }

  lemma SpentOnMove(c: Settings, w: World, r: Request, ch: Choice, id: nat)
    requires r.stack != [] && Nested(r.stack) && KnownPhase(w, Top(r).phase) && Plan(c, w, r, ch).Some?
    requires DistinctUrls(w) && SpentOn(w, r, id) && (!Unwinding(r) ==> Pooled(w, Top(r).phase))
    ensures SpentOn(Touch(c, w, r, ch), Perform(r, Plan(c, w, r, ch).value), id)
  {
    hide Plan, Nested, Perform, Count, DistinctUrls, Pooled, MarkStatus, B.Allow, B.RecordFailure, B.RecordSuccess;
    var e, p := Plan(c, w, r, ch).value, Top(r).phase;
    DistinctKnown(w);
    TouchFades(c, w, r, ch);
    PlanOutline(c, w, r, ch);
    PerformTop(r, e);
    UnwindingMove(c, w, r, ch);
    CountMove(ReachingOf(id), c, w, r, ch);
    if p.Selecting? && e.Become? { PlanPicksAlive(c, w, r, ch); }
    if p.Marking? { MarkKillsPeer(c, w, r, ch); }
  }

  lemma MarkKillsPeer(c: Settings, w: World, r: Request, ch: Choice)
    requires r.stack != [] && KnownPhase(w, Top(r).phase) && Plan(c, w, r, ch).Some?
    requires DistinctUrls(w) && Top(r).phase.Marking? && Pooled(w, Top(r).phase)
    ensures !Touch(c, w, r, ch).servers[Top(r).phase.peer].alive
  {
    hide Plan, MarkStatus;
    MarkKills(w, Top(r).phase.peer);
  }

  lemma PooledMove(c: Settings, w: World, r: Request, ch: Choice)
    requires r.stack != [] && Nested(r.stack) && KnownPhase(w, Top(r).phase) && Plan(c, w, r, ch).Some?
    requires !Unwinding(r) ==> Pooled(w, Top(r).phase)
    ensures var r' := Perform(r, Plan(c, w, r, ch).value);
      !Unwinding(r') ==> Pooled(w, Top(r').phase)
  {
    hide Plan, KnownPhase, Nested, Perform, AllPooled;
    var e := Plan(c, w, r, ch).value;
    PlanOutline(c, w, r, ch);
    PerformTop(r, e);
    if !Unwinding(r) && e.Become? { PlanPooled(c, w, r, ch); }
  }

  lemma SpentMove(c: Settings, w: World, r: Request, ch: Choice)
    requires r.stack != [] && Nested(r.stack) && KnownPhase(w, Top(r).phase) && Plan(c, w, r, ch).Some?
    requires DistinctUrls(w) && Spent(w, r)
    ensures Spent(Touch(c, w, r, ch), Perform(r, Plan(c, w, r, ch).value))
  {
    hide Plan, KnownPhase, Nested, Perform, Touch, SpentOn, DistinctUrls;
    assert Known(w, w.pool) by { DistinctKnown(w); }
    PooledMove(c, w, r, ch);
    TouchFades(c, w, r, ch);
    forall id: nat ensures SpentOn(Touch(c, w, r, ch), Perform(r, Plan(c, w, r, ch).value), id) {
      SpentOnMove(c, w, r, ch, id);
    }
  }

  lemma DistinctKnown(w: World)
    requires DistinctUrls(w)
    ensures Known(w, w.pool)
  {
  }

  lemma SpentLater(w: World, w': World, r: Request)
    requires Spent(w, r) && Fades(w, w')
    ensures Spent(w', r)
  {
    hide Count;
    forall id: nat ensures SpentOn(w', r, id) { assert SpentOn(w, r, id); }
  }

  lemma SpentOnArrival(w: World, r: Request)
    requires r.stack == [NewFrame(0)] && r.log == []
    ensures Spent(w, r)
  {
  }

  lemma QuietFades(c: Settings, s: System, a: Action)
    requires Sound(s) && Quiet(a)
    ensures Fades(s.world, Next(c, s, a).world)
  {
    hide Plan, Touch, Perform, Nested, KnownStack, KnownPhase;
    if Enabled(c, s, a) && a.Run? { TouchFades(c, s.world, s.requests[a.request], a.choice); }
  }

  lemma SpentStep(c: Settings, s: System, a: Action, i: nat)
    requires Sound(s) && DistinctUrls(s.world) && Quiet(a) && i < |Next(c, s, a).requests|
    requires i < |s.requests| ==> Spent(s.world, s.requests[i])
    ensures Spent(Next(c, s, a).world, Next(c, s, a).requests[i])
  {
    hide Plan, Touch, Perform, Nested, KnownStack, KnownPhase, Spent, Fades, DistinctUrls;
    var s' := Next(c, s, a);
    QuietFades(c, s, a);
    if i >= |s.requests| {
      SpentOnArrival(s'.world, s'.requests[i]);
    } else if a.Run? && a.request == i && Enabled(c, s, a) {
      SpentMove(c, s.world, s.requests[i], a.choice);
    } else {
      SpentLater(s.world, s'.world, s.requests[i]);
    }
  }

  lemma DistinctLater(w: World, w': World)
    requires DistinctUrls(w) && Fades(w, w')
    ensures DistinctUrls(w')
  {
  }

  lemma {:induction false} AlwaysSpent(c: Settings, s: System, actions: seq<Action>, i: nat)
    requires Sound(s) && DistinctUrls(s.world) && (forall k :: 0 <= k < |actions| ==> Quiet(actions[k]))
    requires |s.requests| <= i
    ensures DistinctUrls(After(c, s, actions).world)
    ensures i < |After(c, s, actions).requests| ==>
      Spent(After(c, s, actions).world, After(c, s, actions).requests[i])
  {
    hide Next, Sound, Spent, Quiet, DistinctUrls, Fades;
    if actions != [] {
      var front, a := actions[..|actions| - 1], actions[|actions| - 1];
      var t := After(c, s, front);
      AlwaysSpent(c, s, front, i);
      AlwaysSound(c, s, front);
      QuietFades(c, t, a);
      DistinctLater(t.world, Next(c, t, a).world);
      if i < |Next(c, t, a).requests| { SpentStep(c, t, a, i); }
    }
  }

  /** Adding refuses a URL the pool has, so the URLs of the pool stay distinct under any actions. */
  lemma DistinctStep(c: Settings, s: System, a: Action)
    requires Sound(s) && DistinctUrls(s.world)
    ensures DistinctUrls(Next(c, s, a).world)
  {
    hide Plan, Touch, Perform, Nested, KnownStack, KnownPhase;
    if Enabled(c, s, a) && a.Run? { TouchKeepsServers(c, s.world, s.requests[a.request], a.choice); }
  }

  lemma {:induction false} AlwaysDistinct(c: Settings, s: System, actions: seq<Action>)
    requires Sound(s) && DistinctUrls(s.world)
    ensures DistinctUrls(After(c, s, actions).world)
  {
    hide Next, Sound, DistinctUrls;
    if actions != [] {
      var front := actions[..|actions| - 1];
      AlwaysDistinct(c, s, front);
      AlwaysSound(c, s, front);
      DistinctStep(c, After(c, s, front), actions[|actions| - 1]);
    }
  }

  /**
    Failover never goes back: whatever happened before, a request that arrives once the pool is left alone and
    nobody revives backends is sent to each backend at most once, and tries it at most four times, or once
    when its method must not be repeated.
   */
  lemma FailoverNeverRevisits(c: Settings, s: System, before: seq<Action>, quiet: seq<Action>, i: nat, id: nat)
    requires Initial(s) && DistinctUrls(s.world) && (forall k :: 0 <= k < |quiet| ==> Quiet(quiet[k]))
    requires |After(c, s, before).requests| <= i < |After(c, After(c, s, before), quiet).requests|
    ensures var r := After(c, After(c, s, before), quiet).requests[i];
      && Count(ReachingOf(id), r.log) <= 1
      && Count(TryOf(id), r.log) <= if r.verb in ["GET", "HEAD", "OPTIONS"] then 4 else 1
  {
    hide After, DistinctUrls, Quiet, Count, Orderly, Spent, Bounded;
    var t := After(c, s, before);
    var u := After(c, t, quiet);
    AlwaysSound(c, s, before);
    AlwaysDistinct(c, s, before);
    AlwaysSpent(c, t, quiet, i);
    forall j | 0 <= j < |t.requests| ensures Orderly(c, t.world, t.requests[j]) { AlwaysOrderly(c, s, before, j); }
    AlwaysOrderly(c, t, quiet, i);
    SpentAndBounded(c, u.world, u.requests[i], id);
  }

  /**
    The last record of a dispatch judges the backend by what the client got in the end, from whichever backend:
    below 500 its breaker hears of a success, even if this backend failed.
   */
  lemma FinalStatusIsTheVerdict(c: Settings, s: System, actions: seq<Action>, i: nat)
    requires Initial(s) && c.breaker.Some? && i < |After(c, s, actions).requests|
    requires After(c, s, actions).requests[i].stack != []
    requires Top(After(c, s, actions).requests[i]).phase.Recording?
    ensures var t := After(c, s, actions);
      var r := t.requests[i];
      var peer := Top(r).phase.peer;
      && peer < |t.world.servers| && FinalStatus(r.log).Some?
      && var url := t.world.servers[peer].url;
      && var b := BreakerOf(t.world, url);
      && Next(c, t, Run(i, Go)).world.breakers == t.world.breakers[url :=
        if FinalStatus(r.log).value >= 500 then B.RecordFailure(c.breaker.value, b, t.world.now)
        else B.RecordSuccess(c.breaker.value, b)]
  {
    hide After, Nested, Count, Matched, Settled, Bounded, Pinned, B.RecordFailure, B.RecordSuccess, Perform;
    var t := After(c, s, actions);
    AlwaysSound(c, s, actions);
    AlwaysOrderly(c, s, actions, i);
    TopKnown(t.world, t.requests[i]);
  }

  lemma SpentAndBounded(c: Settings, w: World, r: Request, id: nat)
    requires Spent(w, r) && Orderly(c, w, r)
    ensures Count(ReachingOf(id), r.log) <= 1
    ensures Count(TryOf(id), r.log) <= if r.verb in ["GET", "HEAD", "OPTIONS"] then 4 else 1
  {
    hide Settled, Uniform, Matched, Pinned, Pooled, Count;
    assert SpentOn(w, r, id) && WithinBudget(r, id);
  }
}

/** The promise dispatch asks of an algorithm, kept by both round-robins. */
module DispatchSelection {
  import opened Common
  import opened Proxy
  import W = WeightedRoundRobin
  import R = RoundRobin

  function Chosen(candidates: seq<nat>, position: Option<nat>): Option<nat>
    requires position.Some? ==> position.value < |candidates|
  {
    if position.Some? then Some(candidates[position.value]) else None
  }

  /** Smooth weighted round-robin, whatever its running values are. */
  lemma WeightedMayPick(w: World, candidates: seq<nat>, m: map<string, int>, cs: seq<W.Candidate>)
    requires Known(w, candidates) && |cs| == |candidates|
    requires forall i :: 0 <= i < |cs| ==> cs[i].alive == w.servers[candidates[i]].alive
    ensures W.Step(m, cs).1.Some? ==> W.Step(m, cs).1.value < |candidates|
    ensures MayPick(w, candidates, Chosen(candidates, W.Step(m, cs).1))
  {
  }

  /** Plain round-robin, whatever its counter is. */
  lemma RoundRobinMayPick(w: World, candidates: seq<nat>, current: nat, alive: seq<bool>)
    requires Known(w, candidates) && |alive| == |candidates|
    requires forall i :: 0 <= i < |alive| ==> alive[i] == w.servers[candidates[i]].alive
    ensures R.Step(current, alive).1.Some? ==> R.Step(current, alive).1.value < |candidates|
    ensures MayPick(w, candidates, Chosen(candidates, R.Step(current, alive).1))
  {
    R.NilOnlyWhenNoneAlive(current, alive);
  }
}
