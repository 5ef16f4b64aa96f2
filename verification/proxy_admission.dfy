/** Nothing is dispatched that a breaker did not admit: the ledger of admissions, and what follows from it. */
module DispatchAdmission {
  import opened Proxy
  import opened DispatchAccounts
  import opened DispatchRequests
  import opened DispatchBreakers
  import opened DispatchOverlap
  import B = CircuitBreaker
  import T = BreakerTraces

  /** Whether the frame asks its breaker for admission and gets it. */
  predicate Granted(c: Settings, w: World, f: Frame)
    requires KnownPhase(w, f.phase) && c.breaker.Some?
  {
    f.phase.Asking? && B.Allow(c.breaker.value, BreakerOf(w, w.servers[f.phase.peer].url), w.now).1
  }

  /** Choosing a backend opens nothing; asking does, if and only if the breaker grants it. */
  lemma ChoiceOpens(c: Settings, w: World, r: Request, ch: Choice, id: nat)
    requires r.stack != [] && KnownPhase(w, Top(r).phase) && Plan(c, w, r, ch).Some? && c.breaker.Some?
    ensures Top(r).phase.Selecting? ==> Unit(Unsent, Became(Plan(c, w, r, ch).value), id) == 0
    ensures Top(r).phase.Asking? ==>
      Unit(Unsent, Became(Plan(c, w, r, ch).value), id) ==
        if Granted(c, w, Top(r)) && id == Top(r).phase.peer then 1 else 0
  {
    hide StickyPeer, B.Allow, B.Eligible, MayPick;
  }

  lemma AdmissionsMove(c: Settings, w: World, r: Request, ch: Choice, id: nat)
    requires r.stack != [] && Nested(r.stack) && KnownPhase(w, Top(r).phase) && Plan(c, w, r, ch).Some?
    requires c.breaker.Some?
    ensures Of(Admissions, Perform(r, Plan(c, w, r, ch).value), id) - Of(Admissions, r, id) ==
      if id == PeerOf(Top(r).phase) && Granted(c, w, Top(r)) then 1 else 0
  {
    hide Plan, KnownPhase, Nested, Perform, Count, Owed, B.Allow;
    PlanOutline(c, w, r, ch);
    ChoiceOpens(c, w, r, ch, id);
    OwedMove(c, w, r, ch, Unsent, id);
    CountMove(ReachingOf(id), c, w, r, ch);
  }

  /** A step adds to a URL's admissions exactly when a breaker grants a frame on one of its backends. */
  lemma AdmissionsStep(c: Settings, s: System, a: Action, url: string)
    requires Sound(s) && KnownLogs(s) && c.breaker.Some?
    ensures UrlTotal(Admissions, Next(c, s, a), url) - UrlTotal(Admissions, s, url) ==
      if a.Run? && Enabled(c, s, a) && OnPeer(s.world, Top(s.requests[a.request]).phase, url)
        && Granted(c, s.world, Top(s.requests[a.request])) then 1 else 0
  {
    hide Plan, Touch, Perform, Nested, KnownStack, KnownPhase, KnownLogs, Of, OfAll, OnUrl, Granted;
    if Enabled(c, s, a) {
      if a.Run? {
        var r := s.requests[a.request];
        var d := if Granted(c, s.world, Top(r)) then 1 else 0;
        forall id: nat
          ensures Of(Admissions, Moved(c, s, a.request, a.choice).requests[a.request], id) - Of(Admissions, r, id)
            == if id == PeerOf(Top(r).phase) then d else 0
        {
          AdmissionsMove(c, s.world, r, a.choice, id);
        }
        TotalMove(Admissions, c, s, a.request, a.choice, url, d);
      } else {
        TotalElsewhere(Admissions, c, s, a, url);
      }
    }
  }

  lemma GrantsOn(cfg: B.Config, h: seq<T.Event>, e: T.Event, from: nat)
    requires from <= |h|
    ensures T.GrantsFrom(cfg, h + [e], from) == T.GrantsFrom(cfg, h, from) +
      if e.Ask? && B.Allow(cfg, T.Run(cfg, h), e.now).1 then 1 else 0
  {
    hide T.Run, B.Allow;
    assert T.Front(h + [e]) == h;
  }

  lemma LedgerStep(c: Settings, s: System, a: Action, url: string, h: seq<T.Event>)
    requires Sound(s) && KnownLogs(s) && c.breaker.Some?
    requires BreakerOf(s.world, url) == T.Run(c.breaker.value, h)
    requires UrlTotal(Admissions, s, url) == T.GrantsFrom(c.breaker.value, h, 0)
    ensures UrlTotal(Admissions, Next(c, s, a), url)
      == T.GrantsFrom(c.breaker.value, h + CallsOf(c, s, a, url), 0)
  {
    hide Plan, Touch, Perform, Nested, KnownStack, KnownLogs, UrlTotal, T.Run, T.GrantsFrom, B.Allow, Next;
    AdmissionsStep(c, s, a, url);
    var calls := CallsOf(c, s, a, url);
    if calls == [] {
      assert h + calls == h;
    } else {
      assert calls == [calls[0]];
      GrantsOn(c.breaker.value, h, calls[0], 0);
    }
  }

  /**
    In every interleaving, with breakers on, the dispatches to backends of a URL, and the frames admitted to them
    and not yet sent, are together exactly the admissions its breaker has granted.
   */
  lemma AdmissionsAreGrants(c: Settings, s: System, actions: seq<Action>, url: string)
    requires Initial(s) && c.breaker.Some?
    ensures var t := After(c, s, actions);
      UrlTotal(Dispatches, t, url) + UrlTotal(Owing(Unsent), t, url)
        == T.GrantsFrom(c.breaker.value, History(c, s, actions, url), 0)
  {
    hide Next, UrlTotal, CallsOf, T.GrantsFrom, Initial, After, History;
    AdmissionsLedger(c, s, actions, url);
    AdmissionsSplit(After(c, s, actions), url);
  }

  lemma {:induction false} AdmissionsLedger(c: Settings, s: System, actions: seq<Action>, url: string)
    requires Initial(s) && c.breaker.Some?
    ensures UrlTotal(Admissions, After(c, s, actions), url)
      == T.GrantsFrom(c.breaker.value, History(c, s, actions, url), 0)
  {
    hide Next, UrlTotal, CallsOf, Initial, BreakerOf, T.Run;
    if actions == [] {
      NothingAtFirst(Admissions, s, url);
    } else {
      var front, a := actions[..|actions| - 1], actions[|actions| - 1];
      AdmissionsLedger(c, s, front, url);
      BreakerFollowsHistory(c, s, front, url);
      KnownLogsOf(c, s, front);
      LedgerStep(c, After(c, s, front), a, url, History(c, s, front, url));
    }
  }

  lemma NothingAtFirst(m: Measure, s: System, url: string)
    requires Initial(s)
    ensures UrlTotal(m, s, url) == 0
  {
    NoneOfNobody(m, s.world, s.requests, url, |s.world.servers|);
  }

  lemma {:induction false} AllAdmissionsSplit(requests: seq<Request>, id: nat)
    ensures OfAll(Admissions, requests, id) == OfAll(Dispatches, requests, id) + OfAll(Owing(Unsent), requests, id)
  {
    hide Count, Owed;
    if requests != [] { AllAdmissionsSplit(requests[..|requests| - 1], id); }
  }

  lemma {:induction false} OnUrlSplit(w: World, requests: seq<Request>, url: string, n: nat)
    requires n <= |w.servers|
    ensures OnUrl(Admissions, w, requests, url, n) ==
      OnUrl(Dispatches, w, requests, url, n) + OnUrl(Owing(Unsent), w, requests, url, n)
  {
    hide OfAll;
    if n > 0 {
      AllAdmissionsSplit(requests, n - 1);
      OnUrlSplit(w, requests, url, n - 1);
    }
  }

  lemma AdmissionsSplit(s: System, url: string)
    ensures UrlTotal(Admissions, s, url) == UrlTotal(Dispatches, s, url) + UrlTotal(Owing(Unsent), s, url)
  {
    OnUrlSplit(s.world, s.requests, url, |s.world.servers|);
  }

  // ----- an open circuit

  /** The circuit is open and its timeout is not over. */
  predicate Barred(c: Settings, w: World, url: string)
    requires c.breaker.Some?
  {
    var b := BreakerOf(w, url);
    b.phase == B.Open && w.now - b.lastFailure < c.breaker.value.timeout
  }

  lemma BarredStep(c: Settings, s: System, a: Action, url: string)
    requires Sound(s) && KnownLogs(s) && c.breaker.Some? && Barred(c, s.world, url)
    ensures BreakerOf(Next(c, s, a).world, url) == BreakerOf(s.world, url)
    ensures UrlTotal(Admissions, Next(c, s, a), url) == UrlTotal(Admissions, s, url)
  {
    hide Plan, Touch, Perform, Nested, KnownStack, KnownLogs, UrlTotal, Next, BreakerOf;
    AdmissionsStep(c, s, a, url);
    if a.Run? && Enabled(c, s, a) {
      BreakerStep(c, s.world, s.requests[a.request], a.choice, url);
      NextRun(c, s, a.request, a.choice);
    } else {
      SameBreakers(c, s, a, url);
    }
  }

  lemma NextRun(c: Settings, s: System, i: nat, ch: Choice)
    requires Enabled(c, s, Run(i, ch))
    ensures Next(c, s, Run(i, ch)).world == Touch(c, s.world, s.requests[i], ch)
  {
    hide Plan, Touch, Perform;
  }

  /**
    From a trip to the end of the timeout no frame is admitted to a backend of the URL, in any interleaving; so
    only frames admitted before can still be sent there.
   */
  lemma {:induction false} NothingAdmittedWhileOpen(c: Settings, s: System, before: seq<Action>, after: seq<Action>,
                                                    url: string)
    requires Initial(s) && c.breaker.Some?
    requires BreakerOf(After(c, s, before).world, url).phase == B.Open
    requires After(c, s, before + after).world.now - BreakerOf(After(c, s, before).world, url).lastFailure
      < c.breaker.value.timeout
    ensures var t, t' := After(c, s, before), After(c, s, before + after);
      && BreakerOf(t'.world, url) == BreakerOf(t.world, url)
      && UrlTotal(Admissions, t', url) == UrlTotal(Admissions, t, url)
      && UrlTotal(Dispatches, t', url) - UrlTotal(Dispatches, t, url)
           == UrlTotal(Owing(Unsent), t, url) - UrlTotal(Owing(Unsent), t', url)
  {
    hide Next, UrlTotal, Initial, BreakerOf, Sound;
    AdmissionsSplit(After(c, s, before), url);
    AdmissionsSplit(After(c, s, before + after), url);
    if after == [] {
      assert before + after == before;
    } else {
      var all, front, a := before + after, after[..|after| - 1], after[|after| - 1];
      assert all[..|all| - 1] == before + front;
      var t := After(c, s, before + front);
      KnownLogsOf(c, s, before + front);
      TimeGoesOn(c, t, a);
      NothingAdmittedWhileOpen(c, s, before, front, url);
      BarredStep(c, t, a, url);
    }
  }

  // ----- a half-open episode

  lemma {:induction false} GrantsSplit(cfg: B.Config, h: seq<T.Event>, n: nat)
    requires n <= |h|
    ensures T.GrantsFrom(cfg, h, 0) == T.GrantsFrom(cfg, h[..n], 0) + T.GrantsFrom(cfg, h, n)
  {
    hide T.LastGranted;
    if n == |h| {
      assert h[..n] == h;
    } else {
      assert T.Front(h)[..n] == h[..n];
      GrantsSplit(cfg, T.Front(h), n);
    }
  }

  lemma {:induction false} FewerFromLater(cfg: B.Config, h: seq<T.Event>, n: nat, later: nat)
    requires n <= later <= |h|
    ensures T.GrantsFrom(cfg, h, later) <= T.GrantsFrom(cfg, h, n)
  {
    hide T.LastGranted;
    if later < |h| { FewerFromLater(cfg, T.Front(h), n, later); }
  }

  lemma {:induction false} HistoryGrows(c: Settings, s: System, actions: seq<Action>, url: string, k: nat)
    requires k <= |actions|
    ensures History(c, s, actions[..k], url) <= History(c, s, actions, url)
  {
    hide CallsOf, After;
    if k == |actions| {
      assert actions[..k] == actions;
    } else {
      var front := actions[..|actions| - 1];
      assert front[..k] == actions[..k];
      HistoryGrows(c, s, front, url, k);
    }
  }

  /**
    Over one half-open episode at most successThreshold frames are admitted to backends of the URL: from any point
    of the run at or after the request that began it, late results or not.
   */
  lemma EpisodeAdmits(c: Settings, s: System, actions: seq<Action>, url: string, k: nat)
    requires Initial(s) && c.breaker.Some? && T.Proper(c.breaker.value) && k <= |actions|
    requires BreakerOf(After(c, s, actions).world, url).phase == B.HalfOpen
    requires |History(c, s, actions[..k], url)| >= T.Since(c.breaker.value, History(c, s, actions, url)) - 1
    ensures UrlTotal(Admissions, After(c, s, actions), url) - UrlTotal(Admissions, After(c, s, actions[..k]), url)
      <= c.breaker.value.successThreshold
  {
    hide After, History, UrlTotal, BreakerOf, T.GrantsFrom, T.Since, Initial;
    var cfg, h, p := c.breaker.value, History(c, s, actions, url), History(c, s, actions[..k], url);
    HistoryGrows(c, s, actions, url, k);
    assert h[..|p|] == p;
    AdmissionsLedger(c, s, actions, url);
    AdmissionsLedger(c, s, actions[..k], url);
    BackendProbeBudget(c, s, actions, url);
    GrantsSplit(cfg, h, |p|);
    FewerFromLater(cfg, h, T.Since(cfg, h) - 1, |p|);
  }
}
