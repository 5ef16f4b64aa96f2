/** What a backend's breaker learns when failing dispatches of interleaved requests overlap. */
module DispatchOverlap {
  import opened Proxy
  import opened DispatchAccounts
  import opened DispatchRequests
  import opened DispatchBreakers
  import B = CircuitBreaker
  import T = BreakerTraces
  import M = MaskedFailures

  // ----- totals over the backends of a URL

  /**
    What is counted of a request on a backend. An admission is a dispatch, or a frame admitted and not yet sent; a
    blow is a failure blamed or a final record made.
   */
  datatype Measure = Owing(account: Account) | Admissions | Dispatches | Endings | Blows

  function Of(m: Measure, r: Request, id: nat): int {
    match m
    case Owing(a) => Owed(a, r.stack, id)
    case Admissions => Count(ReachingOf(id), r.log) + Owed(Unsent, r.stack, id)
    case Dispatches => Count(ReachingOf(id), r.log)
    case Endings => Count(EndOn(id), r.log)
    case Blows =>
      Count(ReachingOf(id), r.log) - Count(EndOn(id), r.log) - Owed(Unblamed, r.stack, id)
        + Count(RecordOf(id), r.log)
  }

  function OfAll(m: Measure, requests: seq<Request>, id: nat): int {
    if requests == [] then 0
    else OfAll(m, requests[..|requests| - 1], id) + Of(m, requests[|requests| - 1], id)
  }

  /** The sum over the first `n` backends that have the URL. */
  function OnUrl(m: Measure, w: World, requests: seq<Request>, url: string, n: nat): int
    requires n <= |w.servers|
  {
    if n == 0 then 0
    else OnUrl(m, w, requests, url, n - 1) + if w.servers[n - 1].url == url then OfAll(m, requests, n - 1) else 0
  }

  function UrlTotal(m: Measure, s: System, url: string): int {
    OnUrl(m, s.world, s.requests, url, |s.world.servers|)
  }

  lemma {:induction false} OfAllUpdated(m: Measure, requests: seq<Request>, i: nat, r: Request, id: nat)
    requires i < |requests|
    ensures OfAll(m, requests[i := r], id) == OfAll(m, requests, id) - Of(m, requests[i], id) + Of(m, r, id)
  {
    hide Of;
    var n := |requests| - 1;
    if i == n {
      assert requests[i := r][..n] == requests[..n];
    } else {
      OfAllUpdated(m, requests[..n], i, r, id);
      assert requests[i := r][..n] == requests[..n][i := r];
    }
  }

  lemma {:induction false} OnUrlChanges(m: Measure, w: World, rs: seq<Request>, w': World, rs': seq<Request>,
                                        url: string, n: nat, peer: int, d: int)
    requires n <= |w.servers| <= |w'.servers|
    requires forall id :: 0 <= id < n ==> w'.servers[id].url == w.servers[id].url
    requires forall id: nat :: id < n ==> OfAll(m, rs', id) - OfAll(m, rs, id) == if id == peer then d else 0
    ensures OnUrl(m, w', rs', url, n) - OnUrl(m, w, rs, url, n) ==
      if 0 <= peer < n && w.servers[peer].url == url then d else 0
  {
    hide OfAll;
    if n > 0 { OnUrlChanges(m, w, rs, w', rs', url, n - 1, peer, d); }
  }

  lemma {:induction false} OnUrlCompares(m: Measure, m': Measure, w: World, rs: seq<Request>, url: string, n: nat)
    requires n <= |w.servers|
    requires forall id: nat :: OfAll(m, rs, id) <= OfAll(m', rs, id)
    ensures OnUrl(m, w, rs, url, n) <= OnUrl(m', w, rs, url, n)
  {
    hide OfAll;
    if n > 0 { OnUrlCompares(m, m', w, rs, url, n - 1); }
  }

  /** The backend the innermost frame is on, or none. */
  function PeerOf(p: Phase): int {
    if HasPeer(p) then p.peer else -1
  }

  /** A step that changes a measure on its own backend only changes the total of that backend's URL by as much. */
  lemma TotalMove(m: Measure, c: Settings, s: System, i: nat, ch: Choice, url: string, d: int)
    requires Sound(s) && Enabled(c, s, Run(i, ch))
    requires var p := Top(s.requests[i]).phase;
      forall id: nat :: Of(m, Moved(c, s, i, ch).requests[i], id) - Of(m, s.requests[i], id)
        == if id == PeerOf(p) then d else 0
    ensures var p := Top(s.requests[i]).phase;
      UrlTotal(m, Moved(c, s, i, ch), url) - UrlTotal(m, s, url)
        == if HasPeer(p) && p.peer < |s.world.servers| && s.world.servers[p.peer].url == url then d else 0
  {
    hide Plan, Touch, Perform, Nested, KnownStack, KnownPhase, Of, OfAll, OnUrl;
    var s', p := Moved(c, s, i, ch), Top(s.requests[i]).phase;
    TouchKeepsServers(c, s.world, s.requests[i], ch);
    forall id: nat
      ensures OfAll(m, s'.requests, id) - OfAll(m, s.requests, id) == if id == PeerOf(p) then d else 0
    {
      OfAllUpdated(m, s.requests, i, s'.requests[i], id);
    }
    OnUrlChanges(m, s.world, s.requests, s'.world, s'.requests, url, |s.world.servers|, PeerOf(p), d);
  }

  /** By how much a step of a frame changes a measure on the frame's backend. */
  function Change(m: Measure, c: Settings, p: Phase, ch: Choice): int {
    var fails := p.Blaming? || (p.Marking? && c.breaker.None?);
    var ends := (p.Trying? && ch.Answer?) || (p.BackingOff? && ch == ClientGone);
    match m
    case Owing(a) =>
      (if a == Settling then (if fails || ends then 1 else if p.Recording? then -1 else 0) else 0)
    case Admissions => 0
    case Dispatches => if p.Admitted? then 1 else 0
    case Endings => if ends then 1 else 0
    case Blows => if fails || p.Recording? then 1 else 0
  }

  lemma SettlingMove(c: Settings, w: World, r: Request, ch: Choice, id: nat)
    requires r.stack != [] && Nested(r.stack) && KnownPhase(w, Top(r).phase) && Plan(c, w, r, ch).Some?
    ensures Of(Owing(Settling), Perform(r, Plan(c, w, r, ch).value), id) - Of(Owing(Settling), r, id)
      == if id == PeerOf(Top(r).phase) then Change(Owing(Settling), c, Top(r).phase, ch) else 0
  {
    hide Plan, KnownPhase, Nested, Perform, Owed;
    if Top(r).phase.Selecting? || Top(r).phase.Asking? { PickingOwesNothing(c, w, r, ch, Settling, id); }
    OwedMove(c, w, r, ch, Settling, id);
  }

  lemma BlowsMove(c: Settings, w: World, r: Request, ch: Choice, id: nat)
    requires r.stack != [] && Nested(r.stack) && KnownPhase(w, Top(r).phase) && Plan(c, w, r, ch).Some?
    ensures Of(Blows, Perform(r, Plan(c, w, r, ch).value), id) - Of(Blows, r, id)
      == if id == PeerOf(Top(r).phase) then Change(Blows, c, Top(r).phase, ch) else 0
  {
    hide Plan, KnownPhase, Nested, Perform, Count, Owed;
    PlanOutline(c, w, r, ch);
    if Top(r).phase.Selecting? || Top(r).phase.Asking? { PickingOwesNothing(c, w, r, ch, Unblamed, id); }
    OwedMove(c, w, r, ch, Unblamed, id);
    CountMove(ReachingOf(id), c, w, r, ch);
    CountMove(EndOn(id), c, w, r, ch);
    CountMove(RecordOf(id), c, w, r, ch);
  }

  lemma MeasureMove(m: Measure, c: Settings, w: World, r: Request, ch: Choice, id: nat)
    requires r.stack != [] && Nested(r.stack) && KnownPhase(w, Top(r).phase) && Plan(c, w, r, ch).Some?
    requires !m.Admissions? && (m.Owing? ==> m.account == Settling)
    ensures Of(m, Perform(r, Plan(c, w, r, ch).value), id) - Of(m, r, id)
      == if id == PeerOf(Top(r).phase) then Change(m, c, Top(r).phase, ch) else 0
  {
    hide Plan, KnownPhase, Nested, Perform, Count, Owed;
    match m {
      case Owing(_) => SettlingMove(c, w, r, ch, id);
      case Blows => BlowsMove(c, w, r, ch, id);
      case Dispatches =>
        PlanOutline(c, w, r, ch);
        CountMove(ReachingOf(id), c, w, r, ch);
      case Endings =>
        PlanOutline(c, w, r, ch);
        CountMove(EndOn(id), c, w, r, ch);
    }
  }

  /** How any step of the system changes a total. */
  lemma TotalStep(m: Measure, c: Settings, s: System, a: Action, url: string)
    requires Sound(s) && KnownLogs(s) && !m.Admissions? && (m.Owing? ==> m.account == Settling)
    ensures UrlTotal(m, Next(c, s, a), url) - UrlTotal(m, s, url) ==
      if a.Run? && Enabled(c, s, a) && OnPeer(s.world, Top(s.requests[a.request]).phase, url)
      then Change(m, c, Top(s.requests[a.request]).phase, a.choice) else 0
  {
    hide Plan, Touch, Perform, Nested, KnownStack, KnownPhase, Of, OfAll, OnUrl, Change;
    if Enabled(c, s, a) {
      if a.Run? {
        var r := s.requests[a.request];
        forall id: nat
          ensures Of(m, Moved(c, s, a.request, a.choice).requests[a.request], id) - Of(m, r, id)
            == if id == PeerOf(Top(r).phase) then Change(m, c, Top(r).phase, a.choice) else 0
        {
          MeasureMove(m, c, s.world, r, a.choice, id);
        }
        TotalMove(m, c, s, a.request, a.choice, url, Change(m, c, Top(r).phase, a.choice));
      } else {
        TotalElsewhere(m, c, s, a, url);
      }
    }
  }

  ghost predicate KnownLogs(s: System) {
    forall j :: 0 <= j < |s.requests| ==> KnownLog(s.world, s.requests[j].log)
  }

  predicate OnPeer(w: World, p: Phase, url: string) {
    HasPeer(p) && p.peer < |w.servers| && w.servers[p.peer].url == url
  }

  lemma TotalElsewhere(m: Measure, c: Settings, s: System, a: Action, url: string)
    requires Sound(s) && KnownLogs(s) && Enabled(c, s, a) && !a.Run? && (m.Owing? ==> m.account == Settling)
    ensures UrlTotal(m, Next(c, s, a), url) == UrlTotal(m, s, url)
  {
    hide Plan, Touch, Perform, Nested, KnownStack, Of, OfAll, OnUrl;
    var s', n := Next(c, s, a), |s.world.servers|;
    forall id: nat ensures OfAll(m, s'.requests, id) == OfAll(m, s.requests, id) {
      if a.Arrive? { ArrivalAddsNothing(m, s.requests, Request(a.verb, a.cookie, [NewFrame(0)], []), id); }
    }
    OnUrlChanges(m, s.world, s.requests, s'.world, s'.requests, url, n, -1, 0);
    if a.Add? {
      NothingOnNew(m, s, n);
      OneMore(m, s'.world, s'.requests, url, n + 1);
    }
  }

  /** Nothing has been done yet on a backend that does not exist yet. */
  lemma NothingOnNew(m: Measure, s: System, id: nat)
    requires Sound(s) && KnownLogs(s) && id >= |s.world.servers|
    ensures OfAll(m, s.requests, id) == 0
  {
    hide KnownStack, KnownLog, Nested, OfAll;
    forall j | 0 <= j < |s.requests| ensures Of(m, s.requests[j], id) == 0 {
      NothingOfNew(m, s.world, s.requests[j], id);
    }
    AllNothing(m, s.requests, id);
  }

  lemma {:induction false} AllNothing(m: Measure, requests: seq<Request>, id: nat)
    requires forall j :: 0 <= j < |requests| ==> Of(m, requests[j], id) == 0
    ensures OfAll(m, requests, id) == 0
  {
    hide Of;
    if requests != [] { AllNothing(m, requests[..|requests| - 1], id); }
  }

  lemma NothingOfNew(m: Measure, w: World, r: Request, id: nat)
    requires KnownStack(w, r.stack) && KnownLog(w, r.log) && id >= |w.servers|
    ensures Of(m, r, id) == 0
  {
    hide KnownStack, KnownLog, Owed, Count;
    if m.Owing? { NoneOwedByUnknown(m.account, w, r.stack, id); }
    NoneOwedByUnknown(Unblamed, w, r.stack, id);
    NoneOwedByUnknown(Unsent, w, r.stack, id);
    NoneCounted(ReachingOf(id), w, r.log, id);
    NoneCounted(EndOn(id), w, r.log, id);
    NoneCounted(RecordOf(id), w, r.log, id);
  }

  lemma {:induction false} NoneCounted(k: Kind, w: World, log: seq<Event>, id: nat)
    requires KnownLog(w, log) && id >= |w.servers|
    requires k == ReachingOf(id) || k == EndOn(id) || k == RecordOf(id)
    ensures Count(k, log) == 0
  {
    if log != [] { NoneCounted(k, w, log[..|log| - 1], id); }
  }

  lemma OneMore(m: Measure, w: World, requests: seq<Request>, url: string, n: nat)
    requires 1 <= n <= |w.servers|
    ensures OnUrl(m, w, requests, url, n) ==
      OnUrl(m, w, requests, url, n - 1) + if w.servers[n - 1].url == url then OfAll(m, requests, n - 1) else 0
  {
  }

  lemma ArrivalAddsNothing(m: Measure, requests: seq<Request>, r: Request, id: nat)
    requires r.stack == [NewFrame(0)] && r.log == []
    ensures OfAll(m, requests + [r], id) == OfAll(m, requests, id)
  {
    assert (requests + [r])[..|requests|] == requests;
    assert [] + [NewFrame(0)] == r.stack;
    OwedOn(Unblamed, [], NewFrame(0), id);
    OwedOn(Unsent, [], NewFrame(0), id);
    if m.Owing? { OwedOn(m.account, [], NewFrame(0), id); }
  }

  lemma KnownLogsOf(c: Settings, s: System, actions: seq<Action>)
    requires Initial(s)
    ensures Sound(After(c, s, actions)) && KnownLogs(After(c, s, actions))
  {
    hide After, Settled, Uniform, Matched, Bounded, Pinned, KnownLog, Sound;
    InitiallySound(s);
    AlwaysSound(c, s, actions);
    var t := After(c, s, actions);
    forall j | 0 <= j < |t.requests| ensures KnownLog(t.world, t.requests[j].log) { AlwaysOrderly(c, s, actions, j); }
  }

  // ----- what the records on a URL say

  /** Every record made on a backend of the URL is a failure, or every one is a success. */
  ghost predicate RecordsAre(s: System, url: string, failures: bool) {
    forall i :: 0 <= i < |s.requests| ==> LogRecordsAre(s.world, s.requests[i].log, url, failures)
  }

  ghost predicate LogRecordsAre(w: World, log: seq<Event>, url: string, failures: bool) {
    forall k :: 0 <= k < |log| && log[k].Recorded? && log[k].peer < |w.servers| && w.servers[log[k].peer].url == url ==>
      (log[k].status >= 500 <==> failures)
  }

  lemma LogRecordsBefore(w: World, w': World, log: seq<Event>, log': seq<Event>, url: string, failures: bool)
    requires Extends(w, w') && log <= log' && LogRecordsAre(w', log', url, failures)
    ensures LogRecordsAre(w, log, url, failures)
  {
  }

  lemma NextKeepsLogs(c: Settings, s: System, a: Action, i: nat)
    requires Sound(s) && i < |s.requests|
    ensures i < |Next(c, s, a).requests| && s.requests[i].log <= Next(c, s, a).requests[i].log
  {
    hide Plan, Touch, Perform, Nested, KnownStack, KnownPhase;
    if Enabled(c, s, a) && a.Run? && a.request == i {
      PerformLog(s.requests[i], Plan(c, s.world, s.requests[i], a.choice).value);
    }
  }

  lemma RecordsBefore(c: Settings, s: System, a: Action, url: string, failures: bool)
    requires Sound(s) && RecordsAre(Next(c, s, a), url, failures)
    ensures RecordsAre(s, url, failures)
  {
    hide Next, Sound, Extends, LogRecordsAre;
    var s' := Next(c, s, a);
    StepExtends(c, s, a);
    forall i | 0 <= i < |s.requests| ensures LogRecordsAre(s.world, s.requests[i].log, url, failures) {
      NextKeepsLogs(c, s, a, i);
      LogRecordsBefore(s.world, s'.world, s.requests[i].log, s'.requests[i].log, url, failures);
    }
  }

  /** A step that records on the URL records what the records on it say. */
  lemma RecordIs(c: Settings, s: System, i: nat, ch: Choice, url: string, failures: bool)
    requires Sound(s) && Enabled(c, s, Run(i, ch)) && RecordsAre(Moved(c, s, i, ch), url, failures)
    requires var p := Top(s.requests[i]).phase; p.Recording? && OnPeer(s.world, p, url)
    ensures Top(s.requests[i]).status >= 500 <==> failures
  {
    hide Plan, Touch, Perform, Nested, KnownStack;
    var r, s' := s.requests[i], Moved(c, s, i, ch);
    TouchKeepsServers(c, s.world, r, ch);
    PlanOutline(c, s.world, r, ch);
    PerformLog(r, Plan(c, s.world, r, ch).value);
    var log := s'.requests[i].log;
    assert log[|r.log|] == Recorded(Top(r).phase.peer, Top(r).status);
  }

  // ----- failures masked while few dispatches overlap

  /** At no point do more than `n` frames that passed `Allow` on a backend of the URL still owe their record. */
  ghost predicate AtMostAtOnce(c: Settings, s: System, actions: seq<Action>, url: string, n: int) {
    forall k :: 0 <= k <= |actions| ==> UrlTotal(Owing(Verdict), After(c, s, actions[..k]), url) <= n
  }

  lemma {:induction false} SettlingWithinVerdict(stack: seq<Frame>, id: nat)
    ensures Owed(Settling, stack, id) <= Owed(Verdict, stack, id)
  {
    if stack != [] { SettlingWithinVerdict(stack[..|stack| - 1], id); }
  }

  lemma {:induction false} AllSettlingWithinVerdict(requests: seq<Request>, id: nat)
    ensures OfAll(Owing(Settling), requests, id) <= OfAll(Owing(Verdict), requests, id)
  {
    hide Owed;
    if requests != [] {
      AllSettlingWithinVerdict(requests[..|requests| - 1], id);
      SettlingWithinVerdict(requests[|requests| - 1].stack, id);
    }
  }

  lemma FewSettle(s: System, url: string)
    ensures UrlTotal(Owing(Settling), s, url) <= UrlTotal(Owing(Verdict), s, url)
  {
    hide OfAll, OnUrl;
    forall id: nat ensures OfAll(Owing(Settling), s.requests, id) <= OfAll(Owing(Verdict), s.requests, id) {
      AllSettlingWithinVerdict(s.requests, id);
    }
    OnUrlCompares(Owing(Settling), Owing(Verdict), s.world, s.requests, url, |s.world.servers|);
  }

  lemma {:induction false} SettlingNotNegative(w: World, requests: seq<Request>, url: string, n: nat)
    requires n <= |w.servers|
    ensures OnUrl(Owing(Settling), w, requests, url, n) >= 0
  {
    hide OfAll;
    if n > 0 {
      AllSettlingNotNegative(requests, n - 1);
      SettlingNotNegative(w, requests, url, n - 1);
    }
  }

  lemma {:induction false} AllSettlingNotNegative(requests: seq<Request>, id: nat)
    ensures OfAll(Owing(Settling), requests, id) >= 0
  {
    hide Owed;
    if requests != [] { AllSettlingNotNegative(requests[..|requests| - 1], id); }
  }

  /** Closed, with no more failures counted than dispatches that failed and have yet to record. */
  ghost predicate Masked(s: System, url: string) {
    var b := BreakerOf(s.world, url);
    b.phase == B.Closed && b.failures <= UrlTotal(Owing(Settling), s, url)
  }

  lemma MaskedStep(c: Settings, s: System, a: Action, url: string)
    requires Sound(s) && KnownLogs(s) && c.breaker.Some? && Masked(s, url)
    requires UrlTotal(Owing(Verdict), Next(c, s, a), url) < c.breaker.value.failureThreshold
    requires RecordsAre(Next(c, s, a), url, false)
    ensures Masked(Next(c, s, a), url)
  {
    hide Plan, Touch, Perform, Nested, KnownStack, KnownLog, UrlTotal, RecordsAre, BreakerOf;
    var s' := Next(c, s, a);
    TotalStep(Owing(Settling), c, s, a, url);
    FewSettle(s', url);
    assert UrlTotal(Owing(Settling), s', url) >= 0 by {
      SettlingIsNotNegative(s', url);
    }
    if Enabled(c, s, a) && a.Run? {
      var r := s.requests[a.request];
      BreakerStep(c, s.world, r, a.choice, url);
      if Top(r).phase.Recording? && OnPeer(s.world, Top(r).phase, url) {
        RecordIs(c, s, a.request, a.choice, url, false);
      }
    } else {
      assert BreakerOf(s'.world, url) == BreakerOf(s.world, url) by { SameBreakers(c, s, a, url); }
    }
  }

  lemma SettlingIsNotNegative(s: System, url: string)
    ensures UrlTotal(Owing(Settling), s, url) >= 0
  {
    SettlingNotNegative(s.world, s.requests, url, |s.world.servers|);
  }

  lemma SameBreakers(c: Settings, s: System, a: Action, url: string)
    requires !(Enabled(c, s, a) && a.Run?)
    ensures BreakerOf(Next(c, s, a).world, url) == BreakerOf(s.world, url)
  {
    hide Plan, Touch, Perform;
  }

  /**
    With every record on a URL below 500, its breaker stays closed through all failing dispatches as long as fewer
    of them overlap than its threshold.
   */
  lemma {:induction false} FewOverlapsStayMasked(c: Settings, s: System, actions: seq<Action>, url: string, n: int)
    requires Initial(s) && c.breaker.Some? && 0 <= n < c.breaker.value.failureThreshold
    requires AtMostAtOnce(c, s, actions, url, n) && RecordsAre(After(c, s, actions), url, false)
    ensures Masked(After(c, s, actions), url)
  {
    hide Next, Masked, RecordsAre, UrlTotal, Initial;
    if actions == [] {
      MaskedAtFirst(s, url);
    } else {
      var front, a := actions[..|actions| - 1], actions[|actions| - 1];
      var t := After(c, s, front);
      KnownLogsOf(c, s, front);
      RecordsBefore(c, t, a, url, false);
      AtMostBefore(c, s, actions, url, n);
      FewOverlapsStayMasked(c, s, front, url, n);
      assert actions[..|actions|] == actions;
      MaskedStep(c, t, a, url);
    }
  }

  lemma AtMostBefore(c: Settings, s: System, actions: seq<Action>, url: string, n: int)
    requires actions != [] && AtMostAtOnce(c, s, actions, url, n)
    ensures AtMostAtOnce(c, s, actions[..|actions| - 1], url, n)
    ensures UrlTotal(Owing(Verdict), After(c, s, actions), url) <= n
  {
    hide After, UrlTotal;
    var front := actions[..|actions| - 1];
    forall k | 0 <= k <= |front| ensures UrlTotal(Owing(Verdict), After(c, s, front[..k]), url) <= n {
      assert front[..k] == actions[..k];
    }
    assert actions[..|actions|] == actions;
  }

  lemma MaskedAtFirst(s: System, url: string)
    requires Initial(s)
    ensures Masked(s, url)
  {
    SettlingIsNotNegative(s, url);
  }

  // ----- nobody answers

  lemma LossesStep(c: Settings, s: System, a: Action, url: string, h: seq<T.Event>)
    requires Sound(s) && KnownLogs(s) && c.breaker.Some? && RecordsAre(Next(c, s, a), url, true)
    requires M.Wins(h) == 0 && M.Losses(h) == UrlTotal(Blows, s, url)
    ensures var h' := h + CallsOf(c, s, a, url);
      M.Wins(h') == 0 && M.Losses(h') == UrlTotal(Blows, Next(c, s, a), url)
  {
    hide Plan, Touch, Perform, Nested, KnownStack, KnownLog, UrlTotal, RecordsAre, M.Wins, M.Losses;
    TotalStep(Blows, c, s, a, url);
    if CallsOf(c, s, a, url) == [] {
      assert h + CallsOf(c, s, a, url) == h;
    } else {
      var e := CallsOf(c, s, a, url)[0];
      assert CallsOf(c, s, a, url) == [e];
      M.RoundsOn(h, e, 0);
      if Top(s.requests[a.request]).phase.Recording? {
        RecordIs(c, s, a.request, a.choice, url, true);
      }
    }
  }

  lemma {:induction false} LossesAreBlows(c: Settings, s: System, actions: seq<Action>, url: string)
    requires Initial(s) && c.breaker.Some? && RecordsAre(After(c, s, actions), url, true)
    ensures var h := History(c, s, actions, url);
      M.Wins(h) == 0 && M.Losses(h) == UrlTotal(Blows, After(c, s, actions), url)
  {
    hide Next, RecordsAre, UrlTotal, Initial, CallsOf;
    if actions == [] {
      NoBlowsAtFirst(s, url);
    } else {
      var front, a := actions[..|actions| - 1], actions[|actions| - 1];
      var t := After(c, s, front);
      KnownLogsOf(c, s, front);
      RecordsBefore(c, t, a, url, true);
      LossesAreBlows(c, s, front, url);
      LossesStep(c, t, a, url, History(c, s, front, url));
    }
  }

  lemma NoBlowsAtFirst(s: System, url: string)
    requires Initial(s)
    ensures UrlTotal(Blows, s, url) == 0
  {
    NoneOfNobody(Blows, s.world, s.requests, url, |s.world.servers|);
  }

  lemma {:induction false} NoneOfNobody(m: Measure, w: World, requests: seq<Request>, url: string, n: nat)
    requires n <= |w.servers| && requests == []
    ensures OnUrl(m, w, requests, url, n) == 0
  {
    if n > 0 { NoneOfNobody(m, w, requests, url, n - 1); }
  }

  lemma {:induction false} BlowsOfFinished(requests: seq<Request>, id: nat)
    requires forall i :: 0 <= i < |requests| ==> requests[i].stack == [] && Matched(requests[i])
    ensures OfAll(Blows, requests, id) == 2 * OfAll(Dispatches, requests, id) - OfAll(Endings, requests, id)
  {
    hide Count;
    if requests != [] { BlowsOfFinished(requests[..|requests| - 1], id); }
  }

  lemma {:induction false} BlowsOnUrl(w: World, requests: seq<Request>, url: string, n: nat)
    requires n <= |w.servers|
    requires forall i :: 0 <= i < |requests| ==> requests[i].stack == [] && Matched(requests[i])
    ensures OnUrl(Blows, w, requests, url, n) ==
      2 * OnUrl(Dispatches, w, requests, url, n) - OnUrl(Endings, w, requests, url, n)
  {
    hide OfAll, Matched;
    if n > 0 {
      BlowsOfFinished(requests, n - 1);
      BlowsOnUrl(w, requests, url, n - 1);
    }
  }

  /**
    With every record on a URL at 500 or above, in every interleaving, its breaker is closed exactly while the
    failures blamed and the records made, together, are below its threshold. Once all requests are over, these
    are two for each dispatch, and one for a dispatch whose own answer ended its request.
   */
  lemma UnansweredTripsExactly(c: Settings, s: System, actions: seq<Action>, url: string)
    requires Initial(s) && c.breaker.Some? && T.Proper(c.breaker.value)
    requires RecordsAre(After(c, s, actions), url, true)
    ensures var t := After(c, s, actions);
      && (BreakerOf(t.world, url).phase == B.Closed <==>
            UrlTotal(Blows, t, url) < c.breaker.value.failureThreshold)
      && ((forall i :: 0 <= i < |t.requests| ==> t.requests[i].stack == []) ==>
            UrlTotal(Blows, t, url) == 2 * UrlTotal(Dispatches, t, url) - UrlTotal(Endings, t, url))
  {
    hide After, BreakerOf, OnUrl, RecordsAre, Initial, T.Run, M.Wins, M.Losses, Orderly;
    var t := After(c, s, actions);
    BreakerFollowsHistory(c, s, actions, url);
    LossesAreBlows(c, s, actions, url);
    M.WithoutWins(c.breaker.value, History(c, s, actions, url));
    if forall i :: 0 <= i < |t.requests| ==> t.requests[i].stack == [] {
      forall i | 0 <= i < |t.requests| ensures Matched(t.requests[i]) { MatchedAlways(c, s, actions, i); }
      BlowsOnUrl(t.world, t.requests, url, |t.world.servers|);
    }
  }

  lemma MatchedAlways(c: Settings, s: System, actions: seq<Action>, i: nat)
    requires Initial(s) && i < |After(c, s, actions).requests|
    ensures Matched(After(c, s, actions).requests[i])
  {
    hide After, Settled, Uniform, Matched, Bounded, Pinned, KnownLog;
    AlwaysOrderly(c, s, actions, i);
  }
}
