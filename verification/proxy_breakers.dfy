/** Every breaker under dispatch behaves as its own history of calls says, so all that holds of histories holds here. */
module DispatchBreakers {
  import opened Proxy
  import B = CircuitBreaker
  import T = BreakerTraces

  /** The call that a step makes on the breaker of a URL, if it makes one. */
  function CallOn(w: World, f: Frame, url: string): seq<T.Event>
    requires KnownPhase(w, f.phase)
  {
    if !HasPeer(f.phase) || w.servers[f.phase.peer].url != url then []
    else
      match f.phase
      case Asking(_) => [T.Ask(w.now)]
      case Blaming(_) => [T.Lose(w.now)]
      case Recording(_) => [if f.status >= 500 then T.Lose(w.now) else T.Win(w.now)]
      case _ => []
  }

  ghost function CallsOf(c: Settings, s: System, a: Action, url: string): seq<T.Event> {
    if a.Run? && Enabled(c, s, a) then CallOn(s.world, Top(s.requests[a.request]), url) else []
  }

  /** All calls on the breaker of a URL in a run, in order: admissions asked for, failures blamed, final records. */
  ghost function History(c: Settings, s: System, actions: seq<Action>, url: string): seq<T.Event> {
    if actions == [] then []
    else
      var front, a := actions[..|actions| - 1], actions[|actions| - 1];
      History(c, s, front, url) + CallsOf(c, After(c, s, front), a, url)
  }

  /** A step changes the breaker of a URL by the call it makes on it, and not otherwise. */
  lemma BreakerStep(c: Settings, w: World, r: Request, ch: Choice, url: string)
    requires r.stack != [] && KnownPhase(w, Top(r).phase) && Known(w, w.pool) && Plan(c, w, r, ch).Some?
    requires c.breaker.Some?
    ensures var calls := CallOn(w, Top(r), url);
      BreakerOf(Touch(c, w, r, ch), url) ==
        if calls == [] then BreakerOf(w, url) else T.Apply(c.breaker.value, BreakerOf(w, url), calls[0])
  {
    hide Plan, B.Allow, B.RecordFailure, B.RecordSuccess, InPool;
  }

  lemma TouchCalls(c: Settings, w: World, r: Request, ch: Choice, url: string, h: seq<T.Event>)
    requires r.stack != [] && KnownPhase(w, Top(r).phase) && Known(w, w.pool) && Plan(c, w, r, ch).Some?
    requires c.breaker.Some? && BreakerOf(w, url) == T.Run(c.breaker.value, h)
    ensures BreakerOf(Touch(c, w, r, ch), url) == T.Run(c.breaker.value, h + CallOn(w, Top(r), url))
  {
    hide Plan, Touch, BreakerOf, T.Run, T.Apply;
    BreakerStep(c, w, r, ch, url);
    var calls := CallOn(w, Top(r), url);
    if calls == [] {
      assert h + calls == h;
    } else {
      assert calls == [calls[0]];
      T.RunOn(c.breaker.value, h, calls[0]);
    }
  }

  lemma StepCalls(c: Settings, s: System, a: Action, url: string, h: seq<T.Event>)
    requires Sound(s) && c.breaker.Some? && BreakerOf(s.world, url) == T.Run(c.breaker.value, h)
    ensures BreakerOf(Next(c, s, a).world, url) == T.Run(c.breaker.value, h + CallsOf(c, s, a, url))
  {
    hide Plan, Touch, Perform, Nested, KnownStack, KnownPhase, T.Run, CallOn;
    if Enabled(c, s, a) && a.Run? {
      TouchCalls(c, s.world, s.requests[a.request], a.choice, url, h);
    } else {
      assert h + [] == h;
    }
  }

  /** In every interleaving, a breaker's state is that of a lone breaker that was given its history of calls. */
  lemma {:induction false} BreakerFollowsHistory(c: Settings, s: System, actions: seq<Action>, url: string)
    requires Initial(s) && c.breaker.Some?
    ensures BreakerOf(After(c, s, actions).world, url) == T.Run(c.breaker.value, History(c, s, actions, url))
  {
    hide Next, CallsOf, BreakerOf;
    if actions == [] {
      FreshAtFirst(s, url);
    } else {
      var front := actions[..|actions| - 1];
      BreakerFollowsHistory(c, s, front, url);
      AlwaysSound(c, s, front);
      StepCalls(c, After(c, s, front), actions[|actions| - 1], url, History(c, s, front, url));
    }
  }

  lemma FreshAtFirst(s: System, url: string)
    requires Initial(s)
    ensures BreakerOf(s.world, url) == B.Fresh()
  {
  }

  lemma CallNow(w: World, f: Frame, url: string)
    requires KnownPhase(w, f.phase)
    ensures |CallOn(w, f, url)| <= 1 && (CallOn(w, f, url) != [] ==> CallOn(w, f, url)[0].now == w.now)
  {
  }

  lemma TimeGoesOn(c: Settings, s: System, a: Action)
    requires Sound(s)
    ensures s.world.now <= Next(c, s, a).world.now
  {
    hide Plan, Touch, Perform, Nested, KnownStack, KnownPhase;
    if Enabled(c, s, a) && a.Run? { TouchKeepsServers(c, s.world, s.requests[a.request], a.choice); }
  }

  ghost predicate Until(h: seq<T.Event>, now: real) {
    T.Clock(h) && forall k :: 0 <= k < |h| ==> h[k].now <= now
  }

  lemma UntilOn(h: seq<T.Event>, calls: seq<T.Event>, now: real, later: real)
    requires Until(h, now) && now <= later && |calls| <= 1 && (calls != [] ==> calls[0].now == now)
    ensures Until(h + calls, later)
  {
  }

  /** The history of a breaker runs forward in time. */
  lemma {:induction false} HistoryIsInOrder(c: Settings, s: System, actions: seq<Action>, url: string)
    requires Initial(s)
    ensures Until(History(c, s, actions, url), After(c, s, actions).world.now)
  {
    hide Next, CallsOf, Until;
    if actions == [] {
      assert Until([], s.world.now) by { EmptyUntil(s.world.now); }
    } else {
      var front, a := actions[..|actions| - 1], actions[|actions| - 1];
      var t := After(c, s, front);
      HistoryIsInOrder(c, s, front, url);
      AlwaysSound(c, s, front);
      TimeGoesOn(c, t, a);
      CallsNow(c, t, a, url);
      UntilOn(History(c, s, front, url), CallsOf(c, t, a, url), t.world.now, Next(c, t, a).world.now);
    }
  }

  lemma EmptyUntil(now: real)
    ensures Until([], now)
  {
  }

  lemma CallsNow(c: Settings, s: System, a: Action, url: string)
    ensures var calls := CallsOf(c, s, a, url); |calls| <= 1 && (calls != [] ==> calls[0].now == s.world.now)
  {
    hide Plan, CallOn;
    if a.Run? && Enabled(c, s, a) { CallNow(s.world, Top(s.requests[a.request]), url); }
  }

  /**
    However requests interleave, the breaker of a backend trips at most once more than the timeout fits into any
    window of time, and between a trip and the next admission lies at least the timeout.
   */
  lemma BackendTripRate(c: Settings, s: System, actions: seq<Action>, url: string, from: real, until: real, k: nat)
    requires Initial(s) && c.breaker.Some? && T.Proper(c.breaker.value) && from <= until
    ensures var h := History(c, s, actions, url);
      && T.TripsIn(c.breaker.value, h, from, until) as real <= 1.0 + (until - from) / c.breaker.value.timeout
      && (k < |h| - 1 && T.LastTrips(c.breaker.value, h[..k + 1]) && T.LastGranted(c.breaker.value, h) ==>
        h[|h| - 1].now >= h[k].now + c.breaker.value.timeout)
  {
    hide After, History, T.TripsIn, T.LastTrips, T.LastGranted;
    var h := History(c, s, actions, url);
    HistoryIsInOrder(c, s, actions, url);
    T.TripRate(c.breaker.value, h, from, until);
    if k < |h| - 1 && T.LastTrips(c.breaker.value, h[..k + 1]) && T.LastGranted(c.breaker.value, h) {
      T.NothingAdmittedBeforeTimeout(c.breaker.value, h, k);
    }
  }

  /** A half-open backend is asked to serve at most as many probes as its success threshold, late results or not. */
  lemma BackendProbeBudget(c: Settings, s: System, actions: seq<Action>, url: string)
    requires Initial(s) && c.breaker.Some? && T.Proper(c.breaker.value)
    requires BreakerOf(After(c, s, actions).world, url).phase == B.HalfOpen
    ensures var h := History(c, s, actions, url);
      && T.Since(c.breaker.value, h) >= 1
      && T.GrantsFrom(c.breaker.value, h, T.Since(c.breaker.value, h) - 1) <= c.breaker.value.successThreshold
  {
    hide After, History, BreakerOf, T.Since, T.GrantsFrom;
    BreakerFollowsHistory(c, s, actions, url);
    T.EpisodeGrants(c.breaker.value, History(c, s, actions, url));
  }
}
