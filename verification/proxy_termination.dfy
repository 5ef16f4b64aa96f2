/** Dispatch ends: a bound on the steps a request can take, and the proof that it can always take one. */
module DispatchTermination {
  import opened Common
  import opened Proxy
  import opened DispatchRequests
  import B = CircuitBreaker

  /** The most steps an attempt and all later ones can take, when the pool holds at most `bound` backends. */
  function StepsFrom(bound: nat, attempts: nat): nat
    decreases MAX_SWITCHES - attempts
  {
    if attempts >= MAX_SWITCHES then 2 else bound + 18 + StepsFrom(bound, attempts + 1)
  }

  /** The steps the innermost frame, and any frame it will call, can still take. */
  function Remaining(bound: nat, f: Frame): nat {
    var later := StepsFrom(bound, f.attempts + 1);
    match f.phase
    case Entered => StepsFrom(bound, f.attempts)
    case Filtering(all, next, _) => (if next <= |all| then |all| - next else 0) + 17 + later
    case Selecting(_) => 16 + later
    case Asking(_) => 15 + later
    case Admitted(_) => 14 + later
    case Trying(_, retry) => 7 + Twice(retry) + later
    case BackingOff(_, retry) => 6 + Twice(retry) + later
    case Marking(_) => 6 + later
    case Blaming(_) => 5 + later
    case Switching(_) => 4 + later
    case Delegated(_) => 3
    case Passed => 3
    case Recording(_) => 3
    case Closing(_) => 2
    case Done => 1
  }

  /** Each retry left takes a back-off and a try. */
  function Twice(retry: nat): nat {
    if retry <= MAX_RETRIES then 2 * (MAX_RETRIES - retry) else 0
  }

  /** The steps a request can still take; a frame that waits has at most three to take after its call returns. */
  function Potential(bound: nat, r: Request): nat {
    if r.stack == [] then 0 else 3 * (|r.stack| - 1) + Remaining(bound, Top(r))
  }

  /** A step within a frame. */
  lemma FrameFalls(c: Settings, w: World, r: Request, ch: Choice, e: Effect, bound: nat)
    requires r.stack != [] && KnownPhase(w, Top(r).phase) && Outline(c, w, r, ch, e)
    requires |w.pool| <= bound && RetryFits(r, Top(r).phase) && e.Become?
    ensures Remaining(bound, Top(r).(phase := e.phase)) < Remaining(bound, Top(r))
  {
  }

  /** A step that calls, answers or returns. */
  lemma CallFalls(c: Settings, w: World, r: Request, ch: Choice, e: Effect, bound: nat)
    requires r.stack != [] && KnownPhase(w, Top(r).phase) && Outline(c, w, r, ch, e) && !e.Become?
    ensures match e
      case Call(_) => 3 + StepsFrom(bound, Top(r).attempts + 1) < Remaining(bound, Top(r))
      case Reply(p, _, _) => (p.Recording? && 3 < Remaining(bound, Top(r))) || (p.Done? && 1 < Remaining(bound, Top(r)))
      case _ => Remaining(bound, Top(r)) == 1
  {
  }

  lemma RetriesFit(r: Request)
    requires r.stack != [] && Bounded(r)
    ensures RetryFits(r, Top(r).phase)
  {
    hide Count, WithinBudget;
  }

  /** Every step of a request uses up potential. */
  lemma PotentialFalls(c: Settings, w: World, r: Request, ch: Choice, bound: nat)
    requires r.stack != [] && Nested(r.stack) && KnownPhase(w, Top(r).phase) && Plan(c, w, r, ch).Some?
    requires |w.pool| <= bound && Bounded(r)
    ensures Potential(bound, Perform(r, Plan(c, w, r, ch).value)) < Potential(bound, r)
  {
    hide Plan, Nested, Perform, Outline, Bounded, KnownPhase, RetryFits, StepsFrom;
    var e := Plan(c, w, r, ch).value;
    PlanOutline(c, w, r, ch);
    RetriesFit(r);
    PerformTop(r, e);
    PerformHeight(r, e);
    if e.Become? { FrameFalls(c, w, r, ch, e, bound); } else { CallFalls(c, w, r, ch, e, bound); }
  }

  lemma PerformHeight(r: Request, e: Effect)
    requires r.stack != []
    ensures |Perform(r, e).stack| == if e.Call? then |r.stack| + 1 else if e.Return? then |r.stack| - 1 else |r.stack|
  {
  }

  /** How many steps request `i` takes in a run. */
  ghost function OwnSteps(c: Settings, s: System, actions: seq<Action>, i: nat): nat {
    if actions == [] then 0
    else
      var front, a := actions[..|actions| - 1], actions[|actions| - 1];
      OwnSteps(c, s, front, i) + if a.Run? && a.request == i && Enabled(c, After(c, s, front), a) then 1 else 0
  }

  /** The pool never holds more backends than this. */
  ghost predicate PoolWithin(c: Settings, s: System, actions: seq<Action>, bound: nat) {
    forall n :: 0 <= n <= |actions| ==> |After(c, s, actions[..n]).world.pool| <= bound
  }

  lemma StepsOfAll(bound: nat)
    ensures StepsFrom(bound, 0) == 3 * bound + 56
  {
    assert StepsFrom(bound, 1) == 2 * bound + 38;
  }

  lemma PotentialStep(c: Settings, s: System, a: Action, i: nat, bound: nat)
    requires Sound(s) && |s.world.pool| <= bound && i < |Next(c, s, a).requests|
    requires i < |s.requests| ==> Bounded(s.requests[i])
    ensures Potential(bound, Next(c, s, a).requests[i])
      <= (if i < |s.requests| then Potential(bound, s.requests[i]) else StepsFrom(bound, 0))
        - (if a.Run? && a.request == i && Enabled(c, s, a) then 1 else 0)
  {
    hide Plan, Touch, Perform, Nested, KnownStack, KnownPhase, Potential, Bounded;
    if a.Run? && a.request == i && Enabled(c, s, a) {
      PotentialFalls(c, s.world, s.requests[i], a.choice, bound);
    } else if i >= |s.requests| {
      PotentialOnArrival(Next(c, s, a).requests[i], bound);
    }
  }

  lemma PotentialOnArrival(r: Request, bound: nat)
    requires r.stack == [NewFrame(0)]
    ensures Potential(bound, r) == StepsFrom(bound, 0)
  {
  }

  lemma {:induction false} StepsAndPotential(c: Settings, s: System, actions: seq<Action>, i: nat, bound: nat)
    requires Initial(s) && PoolWithin(c, s, actions, bound)
    ensures OwnSteps(c, s, actions, i) +
      (if i < |After(c, s, actions).requests| then Potential(bound, After(c, s, actions).requests[i])
       else StepsFrom(bound, 0)) <= StepsFrom(bound, 0)
  {
    hide Next, Potential, StepsFrom, Enabled, Initial, Bounded;
    assert s.requests == [] && Sound(s) by { InitiallySound(s); }
    if actions != [] {
      var front := actions[..|actions| - 1];
      var a, t := actions[|actions| - 1], After(c, s, front);
      assert forall n :: 0 <= n <= |front| ==> front[..n] == actions[..n];
      StepsAndPotential(c, s, front, i, bound);
      AlwaysSound(c, s, front);
      assert actions[..|front|] == front;
      assert |t.world.pool| <= bound;
      RequestsStay(c, t, a);
      if i < |Next(c, t, a).requests| {
        if i < |t.requests| { AlwaysBounded(c, s, front, i); }
        PotentialStep(c, t, a, i, bound);
      }
    }
  }

  lemma AlwaysBounded(c: Settings, s: System, actions: seq<Action>, i: nat)
    requires Initial(s) && i < |After(c, s, actions).requests|
    ensures Bounded(After(c, s, actions).requests[i])
  {
    hide After, Bounded;
    AlwaysOrderly(c, s, actions, i);
  }

  lemma RequestsStay(c: Settings, s: System, a: Action)
    ensures |s.requests| <= |Next(c, s, a).requests|
    ensures a.Run? && Enabled(c, s, a) ==> a.request < |s.requests|
  {
    hide Plan, Touch, Perform, KnownPhase;
  }

  /**
    In every interleaving, a request takes at most 3P + 56 steps of its own when the pool never holds more
    than P backends.
   */
  lemma DispatchTerminates(c: Settings, s: System, actions: seq<Action>, i: nat, bound: nat)
    requires Initial(s) && PoolWithin(c, s, actions, bound)
    ensures OwnSteps(c, s, actions, i) <= 3 * bound + 56
  {
    hide After, OwnSteps, PoolWithin, Initial, Potential;
    StepsAndPotential(c, s, actions, i, bound);
    StepsOfAll(bound);
  }

  /** A request that is not over can always take a step. */
  lemma NeverStuck(c: Settings, s: System, actions: seq<Action>, i: nat)
    requires Initial(s) && i < |After(c, s, actions).requests| && After(c, s, actions).requests[i].stack != []
    ensures exists ch :: Enabled(c, After(c, s, actions), Run(i, ch))
  {
    hide After, Nested, Count, Matched, Uniform, Pinned;
    var t := After(c, s, actions);
    AlwaysSound(c, s, actions);
    AlwaysOrderly(c, s, actions, i);
    TopKnown(t.world, t.requests[i]);
    NestedMeans(t.requests[i]);
    var ch := Fitting(c, t.world, t.requests[i]);
    assert Enabled(c, t, Run(i, ch));
  }

  lemma Fitting(c: Settings, w: World, r: Request) returns (ch: Choice)
    requires r.stack != [] && KnownPhase(w, Top(r).phase) && Guarded(c, r) && !Waits(Top(r).phase)
    ensures Plan(c, w, r, ch).Some?
  {
    hide B.Allow, B.Eligible, StickyPeer;
    match Top(r).phase {
      case Selecting(candidates) =>
        if c.sticky && r.cookie != "" && StickyPeer(w, candidates, r.cookie).Some? {
          ch := Go;
        } else if i :| 0 <= i < |candidates| && w.servers[candidates[i]].alive {
          ch := Pick(Some(candidates[i]));
        } else {
          ch := Pick(None);
        }
      case Trying(_, _) => ch := Break;
      case BackingOff(_, _) => ch := Timer;
      case _ => ch := Go;
    }
  }
}
