/** The per-backend circuit breaker and its registry (internal/circuitbreaker). */
module CircuitBreaker {

  datatype Phase = Closed | Open | HalfOpen

  datatype State = State(phase: Phase, failures: int, successes: int, lastFailure: real, permit: bool)

  /** Thresholds, and the open time in seconds. */
  datatype Config = Config(failureThreshold: int, successThreshold: int, timeout: real)

  const MILLISECOND: real := 0.001

  /** The least values a breaker accepts. */
  function Clamped(cfg: Config): (c: Config)
    ensures c.failureThreshold == (if cfg.failureThreshold >= 1 then cfg.failureThreshold else 1)
    ensures c.successThreshold == (if cfg.successThreshold >= 1 then cfg.successThreshold else 1)
    ensures c.timeout == (if cfg.timeout >= 0.001 then cfg.timeout else 0.001)
  {
    Config(
      if cfg.failureThreshold < 1 then 1 else cfg.failureThreshold,
      if cfg.successThreshold < 1 then 1 else cfg.successThreshold,
      if cfg.timeout < MILLISECOND then MILLISECOND else cfg.timeout)
  }

  function Fresh(): State {
    State(Closed, 0, 0, 0.0, false)
  }

  /** Asking for admission. */
  function Allow(cfg: Config, s: State, now: real): (State, bool) {
    match s.phase
    case Closed => (s, true)
    case Open =>
      if now - s.lastFailure >= cfg.timeout then (s.(phase := HalfOpen, permit := false), true) else (s, false)
    case HalfOpen => (s.(permit := false), s.permit)
  }

  function RecordSuccess(cfg: Config, s: State): State {
    match s.phase
    case HalfOpen =>
      if s.successes + 1 >= cfg.successThreshold
      then s.(phase := Closed, failures := 0, successes := 0, permit := true)
      else s.(successes := s.successes + 1, permit := true)
    case Closed => s.(failures := 0)
    case Open => s
  }

  function Tripped(s: State, now: real): State {
    s.(phase := Open, lastFailure := now, failures := 0, successes := 0)
  }

  function RecordFailure(cfg: Config, s: State, now: real): State {
    match s.phase
    case Closed =>
      if s.failures + 1 >= cfg.failureThreshold then Tripped(s, now) else s.(failures := s.failures + 1)
    case HalfOpen => Tripped(s, now)
    case Open => s
  }

  /** Whether `Allow` would admit, without asking it. */
  function Eligible(cfg: Config, s: State, now: real): bool {
    match s.phase
    case Closed => true
    case Open => now - s.lastFailure >= cfg.timeout
    case HalfOpen => s.permit
  }

  lemma EligibleForetellsAllow(cfg: Config, s: State, now: real)
    ensures Eligible(cfg, s, now) <==> Allow(cfg, s, now).1
  {
  }

  class Breaker {
    var phase: Phase
    var failures: int
    var successes: int
    const failureThreshold: int
    const successThreshold: int
    const timeout: real
    var lastFailure: real
    var halfOpenPermit: bool
    /** The backend the breaker guards; it keeps the breakers of two backends apart in proofs. */
    ghost const owner: string

    ghost function View(): State
      reads this
    {
      State(phase, failures, successes, lastFailure, halfOpenPermit)
    }

    ghost function Cfg(): Config {
      Config(failureThreshold, successThreshold, timeout)
    }

    constructor (failureThreshold: int, successThreshold: int, timeout: real, ghost owner: string)
      ensures View() == Fresh() && Cfg() == Clamped(Config(failureThreshold, successThreshold, timeout))
      ensures failureThreshold >= 1 ==> this.failureThreshold == failureThreshold
      ensures successThreshold >= 1 ==> this.successThreshold == successThreshold
      ensures timeout >= 0.001 ==> this.timeout == timeout
      ensures this.owner == owner
    {
      phase, failures, successes, lastFailure, halfOpenPermit := Closed, 0, 0, 0.0, false;
      this.failureThreshold := if failureThreshold < 1 then 1 else failureThreshold;
      this.successThreshold := if successThreshold < 1 then 1 else successThreshold;
      this.timeout := if timeout < MILLISECOND then MILLISECOND else timeout;
      this.owner := owner;
    }

    /** The atomic compare-and-swap of the probe permit from true to false. */
    method TakePermit() returns (taken: bool)
      modifies this`halfOpenPermit
      ensures taken == old(halfOpenPermit) && !halfOpenPermit
    {
      taken := halfOpenPermit;
      halfOpenPermit := false;
    }

    method Admit(now: real) returns (ok: bool)
      modifies this
      ensures (View(), ok) == Allow(Cfg(), old(View()), now)
    {
      match phase {
        case Closed =>
          ok := true;
        case Open =>
          if now - lastFailure >= timeout {
            phase := HalfOpen;
            halfOpenPermit := true;
            ok := TakePermit();
          } else {
            ok := false;
          }
        case HalfOpen =>
          ok := TakePermit();
      }
    }

    method Succeed()
      modifies this
      ensures View() == RecordSuccess(Cfg(), old(View()))
    {
      match phase {
        case HalfOpen =>
          successes := successes + 1;
          if successes >= successThreshold {
            phase := Closed;
            failures := 0;
            successes := 0;
          }
          halfOpenPermit := true;
        case Closed =>
          failures := 0;
        case Open =>
      }
    }

    method Fail(now: real)
      modifies this
      ensures View() == RecordFailure(Cfg(), old(View()), now)
    {
      match phase {
        case Closed =>
          failures := failures + 1;
          if failures >= failureThreshold {
            phase := Open;
            lastFailure := now;
            failures := 0;
            successes := 0;
          }
        case HalfOpen =>
          phase := Open;
          lastFailure := now;
          failures := 0;
          successes := 0;
        case Open =>
      }
    }
  }

  /** Breakers by backend URL, created when first asked for. */
  class Registry {
    var breakers: map<string, Breaker>
    const cfg: Config
    ghost var Repr: set<object>

    ghost predicate Valid()
      reads this, Repr
    {
      && this in Repr
      && forall url :: url in breakers ==>
        && breakers[url] in Repr && breakers[url].owner == url && breakers[url].Cfg() == Clamped(cfg)
    }

    ghost function View(): map<string, State>
      requires Valid()
      reads this, Repr
    {
      map url | url in breakers :: breakers[url].View()
    }

    constructor (cfg: Config)
      ensures Valid() && fresh(Repr) && this.cfg == cfg && View() == map[]
    {
      this.cfg, breakers, Repr := cfg, map[], {this};
    }

    /** The breaker of a backend; one that did not exist yet starts closed, and no other one changes. */
    method Get(url: string) returns (b: Breaker)
      requires Valid()
      modifies this
      ensures Valid() && fresh(Repr - old(Repr)) && old(Repr) <= Repr
      ensures url in breakers && b == breakers[url] && b.Cfg() == Clamped(cfg)
      ensures forall u :: u in old(breakers) ==> u in breakers && breakers[u] == old(breakers)[u]
      ensures View() == if url in old(View()) then old(View()) else old(View())[url := Fresh()]
    {
      if url !in breakers {
        b := new Breaker(cfg.failureThreshold, cfg.successThreshold, cfg.timeout, url);
        breakers := breakers[url := b];
        Repr := Repr + {b};
      }
      b := breakers[url];
    }

    method Remove(url: string)
      requires Valid()
      modifies this
      ensures Valid() && Repr == old(Repr) && View() == old(View()) - {url}
    {
      breakers := breakers - {url};
    }
  }
}

/** What a breaker does over every sequence of calls to it. */
module BreakerTraces {
  import opened CircuitBreaker

  /** A call at an instant: a request for admission, or the report of an outcome. */
  datatype Event = Ask(now: real) | Win(now: real) | Lose(now: real)

  predicate Clock(h: seq<Event>) {
    forall i, j :: 0 <= i <= j < |h| ==> h[i].now <= h[j].now
  }

  predicate Proper(cfg: Config) {
    cfg.failureThreshold >= 1 && cfg.successThreshold >= 1 && cfg.timeout > 0.0
  }

  function Apply(cfg: Config, s: State, e: Event): State {
    match e
    case Ask(now) => Allow(cfg, s, now).0
    case Win(_) => RecordSuccess(cfg, s)
    case Lose(now) => RecordFailure(cfg, s, now)
  }

  function Front(h: seq<Event>): seq<Event>
    requires h != []
  {
    h[..|h| - 1]
  }

  /** The state of a new breaker after a history. */
  function Run(cfg: Config, h: seq<Event>): State {
    if h == [] then Fresh() else Apply(cfg, Run(cfg, Front(h)), h[|h| - 1])
  }

  /** Whether the last event of the history is a request for admission that was granted. */
  predicate LastGranted(cfg: Config, h: seq<Event>)
    requires h != []
  {
    h[|h| - 1].Ask? && Allow(cfg, Run(cfg, Front(h)), h[|h| - 1].now).1
  }

  /** Whether the last event of the history opens the circuit. */
  predicate LastTrips(cfg: Config, h: seq<Event>)
    requires h != []
  {
    Run(cfg, Front(h)).phase != Open && Run(cfg, h).phase == Open
  }

  /** The length of the history at which the present phase was entered. */
  function Since(cfg: Config, h: seq<Event>): (e: nat)
    ensures e <= |h|
  {
    if h == [] then 0
    else if Run(cfg, h).phase == Run(cfg, Front(h)).phase then Since(cfg, Front(h))
    else |h|
  }

  /** The outcomes reported from position `start` on, in order; true is a success. */
  function Outcomes(h: seq<Event>, start: nat): seq<bool>
    requires start <= |h|
  {
    if |h| == start then []
    else
      var o, e := Outcomes(Front(h), start), h[|h| - 1];
      match e
      case Ask(_) => o
      case Win(_) => o + [true]
      case Lose(_) => o + [false]
  }

  function TrailingLosses(o: seq<bool>): nat {
    if o == [] || o[|o| - 1] then 0 else TrailingLosses(o[..|o| - 1]) + 1
  }

  /** The last `n` outcomes were all failures. */
  predicate LastAllLosses(o: seq<bool>, n: int) {
    n <= |o| && forall i :: 0 <= i < |o| && |o| - n <= i ==> !o[i]
  }

  lemma {:induction false} TrailingMeansLast(o: seq<bool>, n: int)
    ensures n >= 0 ==> (TrailingLosses(o) >= n <==> LastAllLosses(o, n))
  {
    if n > 0 && o != [] {
      var front := o[..|o| - 1];
      TrailingMeansLast(front, n - 1);
      if !o[|o| - 1] {
        assert LastAllLosses(o, n) ==> LastAllLosses(front, n - 1);
        if LastAllLosses(front, n - 1) {
          forall i | 0 <= i < |o| && |o| - n <= i ensures !o[i] {
            if i < |front| { assert !front[i]; }
          }
        }
      }
    }
  }

  /** The counters mean what they are called, in every phase. */
  ghost predicate Explained(cfg: Config, h: seq<Event>) {
    var s, o := Run(cfg, h), Outcomes(h, Since(cfg, h));
    match s.phase
    case Closed =>
      s.successes == 0 && s.failures == TrailingLosses(o) && s.failures < cfg.failureThreshold
    case HalfOpen =>
      && s.failures == 0 && s.successes == |o| && s.successes < cfg.successThreshold
      && (forall i :: 0 <= i < |o| ==> o[i])
      && Since(cfg, h) >= 1
    case Open =>
      && s.failures == 0 && s.successes == 0
      && Since(cfg, h) >= 1 && h[Since(cfg, h) - 1] == Lose(s.lastFailure)
      && LastTrips(cfg, h[..Since(cfg, h)])
  }

  lemma RunOn(cfg: Config, h: seq<Event>, e: Event)
    ensures Run(cfg, h + [e]) == Apply(cfg, Run(cfg, h), e)
  {
    assert Front(h + [e]) == h;
  }

  lemma SinceAppend(cfg: Config, h: seq<Event>, e: Event)
    ensures Since(cfg, h + [e]) ==
      if Run(cfg, h + [e]).phase == Run(cfg, h).phase then Since(cfg, h) else |h| + 1
  {
    assert Front(h + [e]) == h;
  }

  lemma OutcomesAppend(h: seq<Event>, e: Event, start: nat)
    requires start <= |h|
    ensures Outcomes(h + [e], start) == match e
      case Ask(_) => Outcomes(h, start)
      case Win(_) => Outcomes(h, start) + [true]
      case Lose(_) => Outcomes(h, start) + [false]
  {
    assert Front(h + [e]) == h;
  }

  lemma ExplainedStep(cfg: Config, h: seq<Event>, e: Event)
    requires Proper(cfg) && Explained(cfg, h)
    ensures Explained(cfg, h + [e])
  {
    hide Since, Outcomes, Run;
    var s, n := Run(cfg, h), Since(cfg, h);
    RunOn(cfg, h, e);
    SinceAppend(cfg, h, e);
    OutcomesAppend(h, e, n);
    var h' := h + [e];
    var s' := Run(cfg, h');
    if s'.phase == s.phase {
      assert h'[..n] == h[..n];
      if s.phase == Closed && e.Win? { assert TrailingLosses(Outcomes(h, n) + [true]) == 0; }
      if s.phase == Closed && e.Lose? {
        var o := Outcomes(h, n);
        assert (o + [false])[..|o|] == o;
      }
    } else {
      assert Outcomes(h', |h'|) == [] by { EmptyOutcomes(h'); }
      assert h'[..|h'|] == h' && Front(h') == h;
    }
  }

  lemma EmptyOutcomes(h: seq<Event>)
    ensures Outcomes(h, |h|) == []
  {
  }

  lemma {:induction false} AlwaysExplained(cfg: Config, h: seq<Event>)
    requires Proper(cfg)
    ensures Explained(cfg, h)
  {
    if h != [] {
      AlwaysExplained(cfg, Front(h));
      ExplainedStep(cfg, Front(h), h[|h| - 1]);
      assert Front(h) + [h[|h| - 1]] == h;
    } else {
      EmptyOutcomes(h);
    }
  }

  /** A closed circuit opens exactly when the last outcomes since it closed, as many as the threshold, all failed. */
  lemma TripsExactly(cfg: Config, h: seq<Event>, e: Event)
    requires Proper(cfg) && Run(cfg, h).phase == Closed
    ensures Run(cfg, h + [e]).phase == Open <==>
      e.Lose? && LastAllLosses(Outcomes(h + [e], Since(cfg, h)), cfg.failureThreshold)
    ensures Run(cfg, h + [e]).phase != Open ==> Run(cfg, h + [e]).phase == Closed
  {
    hide Since, Outcomes, Run, LastAllLosses;
    var n := Since(cfg, h);
    AlwaysExplained(cfg, h);
    RunOn(cfg, h, e);
    SinceAppend(cfg, h, e);
    OutcomesAppend(h, e, n);
    var o := Outcomes(h, n);
    TrailingMeansLast(o + [false], cfg.failureThreshold);
    assert (o + [false])[..|o|] == o;
  }

  /** A half-open circuit closes exactly on the last of the needed successes, and reopens on any failure. */
  lemma ClosesExactly(cfg: Config, h: seq<Event>, e: Event)
    requires Proper(cfg) && Run(cfg, h).phase == HalfOpen
    ensures var o := Outcomes(h + [e], Since(cfg, h));
      && (Run(cfg, h + [e]).phase == Closed <==>
            e.Win? && |o| == cfg.successThreshold && forall i :: 0 <= i < |o| ==> o[i])
      && (Run(cfg, h + [e]).phase == Open <==> e.Lose?)
  {
    hide Since, Outcomes, Run;
    AlwaysExplained(cfg, h);
    RunOn(cfg, h, e);
    SinceAppend(cfg, h, e);
    OutcomesAppend(h, e, Since(cfg, h));
  }

  /** An open circuit leaves that phase exactly when asked the timeout or more after the failure that opened it. */
  lemma ReopensExactly(cfg: Config, h: seq<Event>, e: Event)
    requires Proper(cfg) && Run(cfg, h).phase == Open
    ensures var n := Since(cfg, h);
      && n >= 1 && h[n - 1].Lose? && LastTrips(cfg, h[..n])
      && (Run(cfg, h + [e]).phase != Open <==> e.Ask? && e.now - h[n - 1].now >= cfg.timeout)
      && (Run(cfg, h + [e]).phase != Open ==> Run(cfg, h + [e]).phase == HalfOpen && LastGranted(cfg, h + [e]))
  {
    hide Since, Outcomes, Run, LastTrips;
    AlwaysExplained(cfg, h);
    RunOn(cfg, h, e);
    SinceAppend(cfg, h, e);
    assert Front(h + [e]) == h;
  }

  // ----- quantitative safety

  /** The instant of the last trip. */
  function LastTrip(cfg: Config, h: seq<Event>): (bool, real) {
    if h == [] then (false, 0.0)
    else if LastTrips(cfg, h) then (true, h[|h| - 1].now)
    else LastTrip(cfg, Front(h))
  }

  function TripsIn(cfg: Config, h: seq<Event>, s: real, t: real): nat {
    if h == [] then 0
    else TripsIn(cfg, Front(h), s, t) + if s <= h[|h| - 1].now <= t && LastTrips(cfg, h) then 1 else 0
  }

  /** Once the circuit has left the open phase, the timeout has passed since it last tripped. */
  ghost predicate Spaced(cfg: Config, h: seq<Event>) {
    var (tripped, at) := LastTrip(cfg, h);
    && (Run(cfg, h).phase == Open ==> tripped && Run(cfg, h).lastFailure == at)
    && (Run(cfg, h).phase == HalfOpen ==> tripped)
    && (tripped && Run(cfg, h).phase != Open ==> h != [] && h[|h| - 1].now >= at + cfg.timeout)
    && (tripped ==> h != [] && at <= h[|h| - 1].now)
  }

  lemma ClockFront(h: seq<Event>)
    requires h != [] && Clock(h)
    ensures Clock(Front(h)) && (|h| > 1 ==> h[|h| - 2].now <= h[|h| - 1].now)
  {
  }

  lemma {:induction false} AlwaysSpaced(cfg: Config, h: seq<Event>)
    requires Clock(h)
    ensures Spaced(cfg, h)
  {
    if h != [] {
      ClockFront(h);
      AlwaysSpaced(cfg, Front(h));
      hide Clock;
    }
  }

  lemma GrantOutsideOpen(cfg: Config, h: seq<Event>)
    requires h != [] && LastGranted(cfg, h)
    ensures Run(cfg, h).phase != Open
  {
  }

  /** Whether some event at position `k` or later, up to the end, is a trip. */
  lemma {:induction false} LastTripAtLeast(cfg: Config, h: seq<Event>, k: nat)
    requires k < |h| && Clock(h) && LastTrips(cfg, h[..k + 1])
    ensures LastTrip(cfg, h).0 && LastTrip(cfg, h).1 >= h[k].now
    decreases |h|
  {
    if k + 1 == |h| {
      assert h[..k + 1] == h;
    } else if !LastTrips(cfg, h) {
      assert Front(h)[..k + 1] == h[..k + 1];
      ClockFront(h);
      LastTripAtLeast(cfg, Front(h), k);
    } else {
      assert h[k].now <= h[|h| - 1].now;
    }
  }

  /** After a trip nothing is admitted until the whole timeout has passed. */
  lemma NothingAdmittedBeforeTimeout(cfg: Config, h: seq<Event>, k: nat)
    requires k < |h| - 1 && Clock(h) && LastTrips(cfg, h[..k + 1]) && LastGranted(cfg, h)
    ensures h[|h| - 1].now >= h[k].now + cfg.timeout
  {
    AlwaysSpaced(cfg, h);
    GrantOutsideOpen(cfg, h);
    LastTripAtLeast(cfg, h, k);
  }

  lemma TripsFollowTimeout(cfg: Config, h: seq<Event>)
    requires h != [] && Clock(h) && LastTrips(cfg, h) && LastTrip(cfg, Front(h)).0
    ensures h[|h| - 1].now >= LastTrip(cfg, Front(h)).1 + cfg.timeout
  {
    ClockFront(h);
    AlwaysSpaced(cfg, Front(h));
  }

  /** k * timeout by repeated addition. */
  function Spans(n: nat, timeout: real): real {
    if n == 0 then 0.0 else Spans(n - 1, timeout) + timeout
  }

  lemma {:induction false} SpansIsProduct(n: nat, timeout: real)
    ensures Spans(n, timeout) == n as real * timeout
  {
    if n > 0 { SpansIsProduct(n - 1, timeout); }
  }

  lemma {:induction false} TripsCount(cfg: Config, h: seq<Event>, s: real, t: real)
    requires Proper(cfg) && Clock(h) && TripsIn(cfg, h, s, t) >= 1
    ensures LastTrip(cfg, h).0 && LastTrip(cfg, h).1 >= s
    ensures Spans(TripsIn(cfg, h, s, t) - 1, cfg.timeout) <= t - s
    ensures LastTrip(cfg, h).1 <= t ==> Spans(TripsIn(cfg, h, s, t) - 1, cfg.timeout) <= LastTrip(cfg, h).1 - s
  {
    hide LastTrips, Clock, Run;
    ClockFront(h);
    var f := Front(h);
    AlwaysSpaced(cfg, h);
    if TripsIn(cfg, f, s, t) >= 1 {
      TripsCount(cfg, f, s, t);
      if LastTrips(cfg, h) { TripsFollowTimeout(cfg, h); }
    }
  }

  /** At most 1 + L/timeout trips fall in any window of length L. */
  lemma TripRate(cfg: Config, h: seq<Event>, s: real, t: real)
    requires Proper(cfg) && Clock(h) && s <= t
    ensures TripsIn(cfg, h, s, t) as real <= 1.0 + (t - s) / cfg.timeout
  {
    var n := TripsIn(cfg, h, s, t);
    if n >= 1 {
      TripsCount(cfg, h, s, t);
      SpansIsProduct(n - 1, cfg.timeout);
      DivideBound((n - 1) as real, t - s, cfg.timeout);
    } else {
      DivideBound(0.0, t - s, cfg.timeout);
    }
  }

  lemma DivideBound(n: real, x: real, d: real)
    requires d > 0.0 && n * d <= x
    ensures n <= x / d
  {
    var q := x / d;
    assert q * d == x;
    if n > q { assert (n - q) * d > 0.0; }
  }

  /** The requests granted from position `start` on. */
  function GrantsFrom(cfg: Config, h: seq<Event>, start: nat): nat
    requires start <= |h|
  {
    if |h| == start then 0 else GrantsFrom(cfg, Front(h), start) + if LastGranted(cfg, h) then 1 else 0
  }

  /** In a half-open episode the requests granted and the free permit are paid for by recorded successes. */
  lemma {:induction false} EpisodeLedger(cfg: Config, h: seq<Event>)
    requires Proper(cfg) && Run(cfg, h).phase == HalfOpen
    ensures Since(cfg, h) >= 1
    ensures GrantsFrom(cfg, h, Since(cfg, h) - 1) + (if Run(cfg, h).permit then 1 else 0) <= 1 + Run(cfg, h).successes
  {
    var f, n := Front(h), Since(cfg, h);
    AlwaysExplained(cfg, h);
    if Run(cfg, f).phase == HalfOpen {
      EpisodeLedger(cfg, f);
    } else {
      assert n == |h| && GrantsFrom(cfg, f, |f|) == 0;
    }
  }

  /** One half-open episode admits at most as many requests as the successes that close the circuit. */
  lemma EpisodeGrants(cfg: Config, h: seq<Event>)
    requires Proper(cfg) && Run(cfg, h).phase == HalfOpen
    ensures Since(cfg, h) >= 1 && GrantsFrom(cfg, h, Since(cfg, h) - 1) <= cfg.successThreshold
  {
    EpisodeLedger(cfg, h);
    AlwaysExplained(cfg, h);
  }
}

/** How a breaker built from a configuration follows the numbers in it. */
module BuiltBreakers {
  import opened CircuitBreaker
  import opened BreakerTraces

  /** The least thresholds and timeout that are taken as they are. */
  predicate Acceptable(cfg: Config) {
    cfg.failureThreshold >= 1 && cfg.successThreshold >= 1 && cfg.timeout >= 0.001
  }

  lemma AcceptedAsGiven(cfg: Config)
    ensures Acceptable(cfg) <==> Clamped(cfg) == cfg
    ensures Proper(Clamped(cfg)) && Clamped(Clamped(cfg)) == Clamped(cfg)
  {
  }

  function FailuresAt(times: seq<real>): seq<Event> {
    if times == [] then [] else FailuresAt(times[..|times| - 1]) + [Lose(times[|times| - 1])]
  }

  function SuccessesAt(times: seq<real>): seq<Event> {
    if times == [] then [] else SuccessesAt(times[..|times| - 1]) + [Win(times[|times| - 1])]
  }

  /** Failures in a row leave a new breaker closed exactly while there are fewer than the failure threshold given. */
  lemma {:induction false} FailuresInARow(cfg: Config, times: seq<real>)
    requires cfg.failureThreshold >= 1
    ensures Run(Clamped(cfg), FailuresAt(times)).phase == Closed <==> |times| < cfg.failureThreshold
    ensures |times| < cfg.failureThreshold ==> Run(Clamped(cfg), FailuresAt(times)).failures == |times|
    ensures |times| >= cfg.failureThreshold ==> Run(Clamped(cfg), FailuresAt(times)).phase == Open
  {
    hide Run;
    if times == [] {
      NewBreaker(Clamped(cfg));
    } else {
      var front := times[..|times| - 1];
      FailuresInARow(cfg, front);
      RunOn(Clamped(cfg), FailuresAt(front), Lose(times[|times| - 1]));
    }
  }

  lemma NewBreaker(cfg: Config)
    ensures Run(cfg, []) == Fresh()
  {
  }

  /** An open breaker takes a request, and is half-open then, exactly when the timeout given has passed. */
  lemma ReopensAfterTimeout(cfg: Config, h: seq<Event>, now: real)
    requires cfg.timeout >= 0.001 && Run(Clamped(cfg), h).phase == Open
    ensures var s := Run(Clamped(cfg), h);
      && (LastGranted(Clamped(cfg), h + [Ask(now)]) <==> now - s.lastFailure >= cfg.timeout)
      && (Run(Clamped(cfg), h + [Ask(now)]).phase == HalfOpen <==> now - s.lastFailure >= cfg.timeout)
  {
    hide Run;
    RunOn(Clamped(cfg), h, Ask(now));
    assert Front(h + [Ask(now)]) == h;
  }

  /** A breaker that has just turned half-open closes with the last of as many successes as the threshold given. */
  lemma {:induction false} SuccessesInARow(cfg: Config, h: seq<Event>, times: seq<real>)
    requires cfg.successThreshold >= 1 && h != []
    requires Run(Clamped(cfg), h).phase == HalfOpen && Run(Clamped(cfg), Front(h)).phase == Open
    ensures var s := Run(Clamped(cfg), h + SuccessesAt(times));
      if |times| < cfg.successThreshold then s.phase == HalfOpen && s.successes == |times| else s.phase == Closed
  {
    hide Run, Since, Outcomes;
    if times == [] {
      assert h + SuccessesAt(times) == h;
      TurnedHalfOpen(cfg, h);
    } else {
      var front := times[..|times| - 1];
      SuccessesInARow(cfg, h, front);
      assert h + SuccessesAt(times) == h + SuccessesAt(front) + [Win(times[|times| - 1])];
      RunOn(Clamped(cfg), h + SuccessesAt(front), Win(times[|times| - 1]));
    }
  }

  lemma TurnedHalfOpen(cfg: Config, h: seq<Event>)
    requires h != [] && Run(Clamped(cfg), h).phase == HalfOpen && Run(Clamped(cfg), Front(h)).phase == Open
    ensures Run(Clamped(cfg), h).successes == 0
  {
    hide Since, Outcomes;
    AlwaysExplained(Clamped(cfg), Front(h));
  }
}
