/** Active health checking with thresholds (internal/health/health.go). */
module Health {
  import opened Common
  import opened Backends
  import V = SmoothVectors

  datatype Thresholds = Thresholds(unhealthy: int, healthy: int)

  function AtLeastOne(n: int): (t: int)
    ensures t >= 1 && (n >= 1 ==> t == n) && (n < 1 ==> t == 1)
  {
    if n < 1 then 1 else n
  }

  /** The signed count of one backend and its alive flag. */
  datatype Status = Status(count: int, alive: bool)

  /** One probe result: a run that reaches its threshold decides the flag and starts over. */
  function Probed(th: Thresholds, s: Status, ok: bool): Status {
    if ok then
      var count := (if s.count < 0 then 0 else s.count) + 1;
      if count >= th.healthy then Status(0, true) else s.(count := count)
    else
      var count := (if s.count > 0 then 0 else s.count) - 1;
      if -count >= th.unhealthy then Status(0, false) else s.(count := count)
  }

  function CountOf(consecutive: map<string, int>, url: string): (n: int)
    ensures url !in consecutive ==> n == 0
  {
    if url in consecutive then consecutive[url] else 0
  }

  class HealthChecker {
    var path: string
    var interval: real
    var timeout: real
    var unhealthyThreshold: int
    var healthyThreshold: int
    var consecutive: map<string, int>

    ghost function Limits(): Thresholds
      reads this
    {
      Thresholds(unhealthyThreshold, healthyThreshold)
    }

    /** Intervals and timeouts that are not positive fall back to 10 and 2 seconds, thresholds below 1 to 1. */
    constructor (path: string, interval: real, timeout: real, unhealthyThreshold: int, healthyThreshold: int)
      ensures this.path == path
      ensures this.interval == if interval > 0.0 then interval else 10.0
      ensures this.timeout == if timeout > 0.0 then timeout else 2.0
      ensures unhealthyThreshold >= 1 ==> this.unhealthyThreshold == unhealthyThreshold
      ensures healthyThreshold >= 1 ==> this.healthyThreshold == healthyThreshold
      ensures Limits() == Thresholds(AtLeastOne(unhealthyThreshold), AtLeastOne(healthyThreshold))
      ensures consecutive == map[]
    {
      this.path := path;
      this.interval := if interval <= 0.0 then 10.0 else interval;
      this.timeout := if timeout <= 0.0 then 2.0 else timeout;
      this.unhealthyThreshold := AtLeastOne(unhealthyThreshold);
      this.healthyThreshold := AtLeastOne(healthyThreshold);
      consecutive := map[];
    }

    method RecordSuccess(b: Backend)
      modifies this`consecutive, b`alive
      ensures Status(CountOf(consecutive, b.url), b.alive)
           == Probed(Limits(), Status(CountOf(old(consecutive), b.url), old(b.alive)), true)
      ensures consecutive == old(consecutive)[b.url := CountOf(consecutive, b.url)]
    {
      var key := b.url;
      if CountOf(consecutive, key) < 0 {
        consecutive := consecutive[key := 0];
      }
      consecutive := consecutive[key := CountOf(consecutive, key) + 1];
      if consecutive[key] >= healthyThreshold {
        if !b.alive {
          b.SetAlive(true);
        }
        consecutive := consecutive[key := 0];
      }
    }

    method RecordFailure(b: Backend)
      modifies this`consecutive, b`alive
      ensures Status(CountOf(consecutive, b.url), b.alive)
           == Probed(Limits(), Status(CountOf(old(consecutive), b.url), old(b.alive)), false)
      ensures consecutive == old(consecutive)[b.url := CountOf(consecutive, b.url)]
    {
      var key := b.url;
      if CountOf(consecutive, key) > 0 {
        consecutive := consecutive[key := 0];
      }
      consecutive := consecutive[key := CountOf(consecutive, key) - 1];
      if -consecutive[key] >= unhealthyThreshold {
        if b.alive {
          b.SetAlive(false);
        }
        consecutive := consecutive[key := 0];
      }
    }

    /** One probe: only a 2xx answer is a success; no answer at all is a failure. */
    method CheckBackend(b: Backend, status: Option<int>)
      modifies this`consecutive, b`alive
      ensures Status(CountOf(consecutive, b.url), b.alive)
           == Probed(Limits(), Status(CountOf(old(consecutive), b.url), old(b.alive)),
                     status.Some? && 200 <= status.value <= 299)
      ensures consecutive == old(consecutive)[b.url := CountOf(consecutive, b.url)]
    {
      match status {
        case None =>
          RecordFailure(b);
        case Some(code) =>
          if code < 200 || code >= 300 {
            RecordFailure(b);
          } else {
            RecordSuccess(b);
          }
      }
    }

    method UpdateConfig(path: string, interval: real, timeout: real, unhealthyThreshold: int, healthyThreshold: int)
      modifies this`path, this`interval, this`timeout, this`unhealthyThreshold, this`healthyThreshold
      ensures this.path == path
      ensures this.interval == if interval > 0.0 then interval else old(this.interval)
      ensures this.timeout == if timeout > 0.0 then timeout else old(this.timeout)
      ensures unhealthyThreshold >= 1 ==> this.unhealthyThreshold == unhealthyThreshold
      ensures healthyThreshold >= 1 ==> this.healthyThreshold == healthyThreshold
      ensures Limits() == Thresholds(AtLeastOne(unhealthyThreshold), AtLeastOne(healthyThreshold))
    {
      this.path := path;
      if interval > 0.0 {
        this.interval := interval;
      }
      if timeout > 0.0 {
        this.timeout := timeout;
      }
      this.unhealthyThreshold := AtLeastOne(unhealthyThreshold);
      this.healthyThreshold := AtLeastOne(healthyThreshold);
    }

    /** Drops the counts of backends that left the pool, visiting the map in any order. */
    method Prune(backends: seq<Backend>)
      modifies this`consecutive
      ensures consecutive == map u | u in old(consecutive) && (exists b :: b in backends && b.url == u)
                               :: old(consecutive)[u]
    {
      var active: set<string> := {};
      for i := 0 to |backends|
        invariant active == set j | 0 <= j < i :: backends[j].url
        invariant consecutive == old(consecutive)
      {
        active := active + {backends[i].url};
      }
      assert forall u :: u in active <==> exists b :: b in backends && b.url == u by {
        forall u | u in active ensures exists b :: b in backends && b.url == u {
          var j :| 0 <= j < |backends| && backends[j].url == u;
          assert backends[j] in backends;
        }
      }
      ghost var all := consecutive;
      var todo := consecutive.Keys;
      while todo != {}
        invariant todo <= all.Keys
        invariant consecutive == map u | u in all && (u in active || u in todo) :: all[u]
      {
        var key :| key in todo;
        if key !in active {
          consecutive := consecutive - {key};
        }
        todo := todo - {key};
      }
      assert consecutive == map u | u in all && u in active :: all[u];
    }
  }

  // ----- what the counter and the flag say about the probe history

  predicate Proper(th: Thresholds) {
    th.unhealthy >= 1 && th.healthy >= 1
  }

  /** The status after a history of probe results. */
  function Run(th: Thresholds, s: Status, h: seq<bool>): Status {
    if h == [] then s else Probed(th, Run(th, s, h[..|h| - 1]), h[|h| - 1])
  }

  /** How many of the latest results agree with the last one. */
  function TrailingRun(h: seq<bool>): nat {
    if h == [] then 0
    else if |h| >= 2 && h[|h| - 2] == h[|h| - 1] then TrailingRun(h[..|h| - 1]) + 1
    else 1
  }

  function Limit(th: Thresholds, ok: bool): int {
    if ok then th.healthy else th.unhealthy
  }

  /** The run of equal results that ends at position `p` has reached its threshold. */
  predicate Decided(th: Thresholds, h: seq<bool>, p: nat)
    requires p < |h|
  {
    TrailingRun(h[..p + 1]) >= Limit(th, h[p])
  }

  /** The remainder of a run of length `n`, as the counter sees it. */
  function Leftover(n: nat, limit: int): (r: int)
    requires limit >= 1
    ensures 0 <= r < limit
  {
    n % limit
  }

  function Signed(ok: bool, n: int): int {
    if ok then n else -n
  }

  lemma LeftoverStep(n: nat, limit: int)
    requires limit >= 1
    ensures Leftover(n + 1, limit) == if Leftover(n, limit) + 1 == limit then 0 else Leftover(n, limit) + 1
    ensures Leftover(n, limit) + 1 == limit ==> n + 1 >= limit
  {
    V.ModSuccessor(n, limit);
    if n + 1 < limit { V.ModUnique(n, limit, 0, n); }
  }

  lemma LeftoverSmall(n: nat, limit: int)
    requires limit >= 1 && n < limit
    ensures Leftover(n, limit) == n
  {
    V.ModUnique(n, limit, 0, n);
  }

  /** The counter is the trailing run taken modulo its threshold, negative for failures. */
  lemma {:induction false} CounterIsTrailingRun(th: Thresholds, alive: bool, h: seq<bool>)
    requires Proper(th)
    ensures Run(th, Status(0, alive), h).count ==
      if h == [] then 0
      else Signed(h[|h| - 1], Leftover(TrailingRun(h), Limit(th, h[|h| - 1])))
  {
    hide Leftover, TrailingRun;
    if h != [] {
      var f, ok := h[..|h| - 1], h[|h| - 1];
      CounterIsTrailingRun(th, alive, f);
      TrailingRunStep(h);
      LeftoverStep(0, Limit(th, ok));
      LeftoverSmall(0, Limit(th, ok));
      if f != [] { LeftoverStep(TrailingRun(f), Limit(th, f[|f| - 1])); }
    }
  }

  lemma TrailingRunStep(h: seq<bool>)
    requires h != []
    ensures TrailingRun(h) == if |h| >= 2 && h[|h| - 2] == h[|h| - 1] then TrailingRun(h[..|h| - 1]) + 1 else 1
  {
  }

  /** A probe sets the flag only when it completes a full threshold, and then to its own direction. */
  lemma {:induction false} FlagAfterProbe(th: Thresholds, alive: bool, h: seq<bool>)
    requires Proper(th) && h != []
    ensures Decided(th, h, |h| - 1) ==> Run(th, Status(0, alive), h).alive == h[|h| - 1]
    ensures !Decided(th, h, |h| - 1) ==>
      Run(th, Status(0, alive), h).alive == Run(th, Status(0, alive), h[..|h| - 1]).alive
  {
    hide Leftover, TrailingRun, Run;
    assert h[..|h| - 1 + 1] == h;
    var f, ok := h[..|h| - 1], h[|h| - 1];
    RunStep(th, Status(0, alive), h);
    CounterIsTrailingRun(th, alive, f);
    TrailingRunStep(h);
    var limit := Limit(th, ok);
    LeftoverStep(0, limit);
    if f != [] && f[|f| - 1] == ok {
      assert f[..|f| - 1 + 1] == f;
      LeftoverStep(TrailingRun(f), limit);
      FlagAfterProbe(th, alive, f);
      if TrailingRun(f) < limit { LeftoverSmall(TrailingRun(f), limit); }
    }
  }

  lemma RunStep(th: Thresholds, s: Status, h: seq<bool>)
    requires h != []
    ensures Run(th, s, h) == Probed(th, Run(th, s, h[..|h| - 1]), h[|h| - 1])
  {
  }

  lemma DecidedFront(th: Thresholds, h: seq<bool>, p: nat)
    requires p < |h| - 1
    ensures Decided(th, h[..|h| - 1], p) <==> Decided(th, h, p)
  {
    assert h[..|h| - 1][..p + 1] == h[..p + 1];
  }

  /** The latest position at which a run reached its threshold. */
  ghost predicate Latest(th: Thresholds, h: seq<bool>, p: int) {
    0 <= p < |h| && Decided(th, h, p) && NoneDecided(th, h, p + 1)
  }

  ghost predicate NoneDecided(th: Thresholds, h: seq<bool>, start: nat) {
    forall q :: start <= q < |h| ==> !Decided(th, h, q)
  }

  lemma NoneDecidedFront(th: Thresholds, h: seq<bool>, start: nat)
    requires start < |h| && NoneDecided(th, h, start)
    ensures NoneDecided(th, h[..|h| - 1], start)
  {
    hide Decided;
    var f := h[..|h| - 1];
    forall q | start <= q < |f| ensures !Decided(th, f, q) { DecidedFront(th, h, q); }
  }

  lemma {:induction false} FlagSinceDecision(th: Thresholds, alive: bool, h: seq<bool>, p: nat)
    requires Proper(th) && Latest(th, h, p)
    ensures Run(th, Status(0, alive), h).alive == h[p]
  {
    hide Run, Decided;
    FlagAfterProbe(th, alive, h);
    if p < |h| - 1 {
      NoneDecidedFront(th, h, p + 1);
      DecidedFront(th, h, p);
      FlagSinceDecision(th, alive, h[..|h| - 1], p);
    }
  }

  lemma {:induction false} FlagWithoutDecision(th: Thresholds, alive: bool, h: seq<bool>)
    requires Proper(th) && NoneDecided(th, h, 0)
    ensures Run(th, Status(0, alive), h).alive == alive
  {
    if h == [] {
    } else {
      hide Run, Decided;
      FlagAfterProbe(th, alive, h);
      NoneDecidedFront(th, h, 0);
      FlagWithoutDecision(th, alive, h[..|h| - 1]);
    }
  }

  /**
    The flag is the direction of the latest run that reached its threshold, and the initial flag when no
    run has.
   */
  lemma FlagIsLatestDecision(th: Thresholds, alive: bool, h: seq<bool>)
    requires Proper(th)
    ensures forall p :: Latest(th, h, p) ==> Run(th, Status(0, alive), h).alive == h[p]
    ensures NoneDecided(th, h, 0) ==> Run(th, Status(0, alive), h).alive == alive
  {
    hide Run, Latest, NoneDecided;
    forall p | Latest(th, h, p) ensures 0 <= p < |h| && Run(th, Status(0, alive), h).alive == h[p] {
      LatestInRange(th, h, p);
      FlagSinceDecision(th, alive, h, p);
    }
    if NoneDecided(th, h, 0) { FlagWithoutDecision(th, alive, h); }
  }

  lemma LatestInRange(th: Thresholds, h: seq<bool>, p: int)
    requires Latest(th, h, p)
    ensures 0 <= p < |h|
  {
  }

  /** How often the flag went to `up`. */
  function Flips(th: Thresholds, s: Status, h: seq<bool>, up: bool): nat {
    if h == [] then 0
    else
      var before, after := Run(th, s, h[..|h| - 1]).alive, Run(th, s, h).alive;
      Flips(th, s, h[..|h| - 1], up) + if before != after && after == up then 1 else 0
  }

  /** Every flip uses up a full threshold of probes, and no probe counts twice. */
  lemma {:induction false} FlipBudget(th: Thresholds, alive: bool, h: seq<bool>)
    requires Proper(th)
    ensures var s := Status(0, alive); var count := Run(th, s, h).count;
      && V.Times(Flips(th, s, h, false), th.unhealthy) + V.Times(Flips(th, s, h, true), th.healthy)
         + (if count < 0 then -count else count) <= |h|
      && -th.unhealthy < count < th.healthy
  {
    if h != [] {
      FlipBudget(th, alive, h[..|h| - 1]);
      hide Run;
      RunStep(th, Status(0, alive), h);
    }
  }

  /** n probes flip the flag at most so often that downs * unhealthy + ups * healthy <= n. */
  lemma FlipsAreBounded(th: Thresholds, alive: bool, h: seq<bool>)
    requires Proper(th)
    ensures var s := Status(0, alive);
      Flips(th, s, h, false) * th.unhealthy + Flips(th, s, h, true) * th.healthy <= |h|
  {
    var s := Status(0, alive);
    FlipBudget(th, alive, h);
    V.TimesIsProduct(Flips(th, s, h, false), th.unhealthy);
    V.TimesIsProduct(Flips(th, s, h, true), th.healthy);
  }

  // ----- many backends in one map

  /** A probe of one backend, or a pruning to the backends of the pool. */
  datatype Event = Probe(url: string, ok: bool) | Pruning(active: set<string>)

  datatype Checker = Checker(consecutive: map<string, int>, alive: map<string, bool>)

  function StatusOf(c: Checker, url: string): Status {
    Status(CountOf(c.consecutive, url), url in c.alive && c.alive[url])
  }

  function Applied(th: Thresholds, c: Checker, e: Event): Checker {
    match e
    case Probe(url, ok) =>
      var s := Probed(th, StatusOf(c, url), ok);
      Checker(c.consecutive[url := s.count], c.alive[url := s.alive])
    case Pruning(active) =>
      c.(consecutive := map u | u in c.consecutive && u in active :: c.consecutive[u])
  }

  function RunAll(th: Thresholds, c: Checker, es: seq<Event>): Checker {
    if es == [] then c else Applied(th, RunAll(th, c, es[..|es| - 1]), es[|es| - 1])
  }

  /** The results of one backend's own probes. */
  function OwnResults(es: seq<Event>, url: string): seq<bool> {
    if es == [] then []
    else
      var h, e := OwnResults(es[..|es| - 1], url), es[|es| - 1];
      if e.Probe? && e.url == url then h + [e.ok] else h
  }

  /** A backend that stays in the pool is judged by its own probes alone. */
  lemma {:induction false} BackendsAreIndependent(th: Thresholds, c: Checker, es: seq<Event>, url: string)
    requires forall i :: 0 <= i < |es| && es[i].Pruning? ==> url in es[i].active
    ensures StatusOf(RunAll(th, c, es), url) == Run(th, StatusOf(c, url), OwnResults(es, url))
  {
    if es != [] {
      var e := es[|es| - 1];
      BackendsAreIndependent(th, c, es[..|es| - 1], url);
      if e.Probe? && e.url == url {
        RunAppend(th, StatusOf(c, url), OwnResults(es[..|es| - 1], url), e.ok);
      }
    }
  }

  lemma RunAppend(th: Thresholds, s: Status, h: seq<bool>, ok: bool)
    ensures Run(th, s, h + [ok]) == Probed(th, Run(th, s, h), ok)
  {
    assert (h + [ok])[..|h|] == h;
  }
}

/** Probes from any status whatever, with thresholds that may change from one probe to the next. */
module HealthUnderReload {
  import opened Health

  /** The status after the first `n` probes, each under the thresholds in force at it. */
  function RunUnder(ths: seq<Thresholds>, h: seq<bool>, n: nat, s: Status): Status
    requires n <= |ths| && n <= |h|
  {
    if n == 0 then s else Probed(ths[n - 1], RunUnder(ths, h, n - 1, s), h[n - 1])
  }

  /** What the counter already holds in a direction. */
  function Held(s: Status, ok: bool): nat {
    if ok then (if s.count > 0 then s.count else 0) else if s.count < 0 then -s.count else 0
  }

  /** The first `n` results are the same. */
  ghost predicate Same(h: seq<bool>, n: nat, ok: bool) {
    n <= |h| && forall i :: 0 <= i < n ==> h[i] == ok
  }

  /** Probe number `j` of a run completes a threshold, what the counter held at its beginning counted in. */
  predicate Reaches(ths: seq<Thresholds>, s: Status, ok: bool, j: nat)
    requires j < |ths|
  {
    Held(s, ok) + j + 1 >= if ok then ths[j].healthy else ths[j].unhealthy
  }

  /** Before the first such probe the flag stays and the counter goes on. */
  lemma {:induction false} NotYet(ths: seq<Thresholds>, h: seq<bool>, n: nat, s: Status, ok: bool)
    requires n <= |ths| && Same(h, n, ok) && forall j :: 0 <= j < n ==> !Reaches(ths, s, ok, j)
    ensures var e := RunUnder(ths, h, n, s);
      e.alive == s.alive && (n >= 1 ==> e.count == if ok then Held(s, ok) + n else -(Held(s, ok) + n))
  {
    if n > 0 {
      NotYet(ths, h, n - 1, s, ok);
      assert !Reaches(ths, s, ok, n - 1);
    }
  }

  /** The first such probe sets the flag to its direction, and the counter starts over. */
  lemma FirstReached(ths: seq<Thresholds>, h: seq<bool>, j: nat, s: Status, ok: bool)
    requires j < |ths| && Same(h, j + 1, ok)
    requires Reaches(ths, s, ok, j) && forall i :: 0 <= i < j ==> !Reaches(ths, s, ok, i)
    ensures RunUnder(ths, h, j + 1, s) == Status(0, ok)
  {
    NotYet(ths, h, j, s, ok);
  }

  lemma {:induction false} FlagStays(ths: seq<Thresholds>, h: seq<bool>, j: nat, n: nat, s: Status, ok: bool)
    requires j <= n <= |ths| && Same(h, n, ok) && RunUnder(ths, h, j, s).alive == ok
    ensures RunUnder(ths, h, n, s).alive == ok
  {
    if j < n { FlagStays(ths, h, j, n - 1, s, ok); }
  }

  lemma FirstOf(ths: seq<Thresholds>, s: Status, ok: bool, j: nat) returns (first: nat)
    requires j < |ths| && Reaches(ths, s, ok, j)
    ensures first <= j && Reaches(ths, s, ok, first) && forall i :: 0 <= i < first ==> !Reaches(ths, s, ok, i)
  {
    first := 0;
    while !Reaches(ths, s, ok, first)
      invariant first <= j && forall i :: 0 <= i < first ==> !Reaches(ths, s, ok, i)
      decreases j - first
    {
      first := first + 1;
    }
  }

  /**
    From any status, under thresholds that may change between probes, `n` equal results leave the flag in their
    direction exactly when it was there already or some probe of them completes the threshold in force at it,
    what the counter held in that direction at first counted in.
   */
  lemma RunDecides(ths: seq<Thresholds>, h: seq<bool>, n: nat, s: Status, ok: bool)
    requires n <= |ths| && Same(h, n, ok)
    ensures RunUnder(ths, h, n, s).alive == ok <==>
      s.alive == ok || exists j :: 0 <= j < n && Reaches(ths, s, ok, j)
  {
    hide RunUnder, Reaches;
    if j :| 0 <= j < n && Reaches(ths, s, ok, j) {
      var first := FirstOf(ths, s, ok, j);
      FirstReached(ths, h, first, s, ok);
      FlagStays(ths, h, first + 1, n, s, ok);
    } else {
      NotYet(ths, h, n, s, ok);
    }
  }

  /** So whatever the counter holds, as many equal probes as a threshold that stays in force decide the flag. */
  lemma ThresholdSuffices(ths: seq<Thresholds>, h: seq<bool>, n: nat, s: Status, ok: bool)
    requires 1 <= n <= |ths| && Same(h, n, ok) && n >= if ok then ths[n - 1].healthy else ths[n - 1].unhealthy
    ensures RunUnder(ths, h, n, s).alive == ok
  {
    assert Reaches(ths, s, ok, n - 1);
    RunDecides(ths, h, n, s, ok);
  }

  /** A counter at 3 under a threshold lowered from 5 to 2: the next good probe revives. */
  lemma LoweredThreshold()
    ensures Probed(Thresholds(3, 2), Status(3, false), true) == Status(0, true)
    ensures Probed(Thresholds(2, 3), Status(-4, true), false) == Status(0, false)
  {
  }
}

/** The health machine as the design document describes it, against the machine as coded. */
module HealthDesign {
  import opened Health
  import V = SmoothVectors

  /** One probe result: a run that reaches its threshold starts over only when it changes the flag. */
  function Documented(th: Thresholds, s: Status, ok: bool): Status {
    if ok then
      var count := (if s.count < 0 then 0 else s.count) + 1;
      if count >= th.healthy && !s.alive then Status(0, true) else s.(count := count)
    else
      var count := (if s.count > 0 then 0 else s.count) - 1;
      if -count >= th.unhealthy && s.alive then Status(0, false) else s.(count := count)
  }

  function RunDocumented(th: Thresholds, s: Status, h: seq<bool>): Status {
    if h == [] then s else Documented(th, RunDocumented(th, s, h[..|h| - 1]), h[|h| - 1])
  }

  lemma {:induction false} TrailingRunFits(h: seq<bool>)
    ensures TrailingRun(h) <= |h| && (h != [] ==> TrailingRun(h) >= 1)
  {
    if |h| >= 2 { TrailingRunFits(h[..|h| - 1]); }
  }

  /** The flag as the latest run of equal results found it. */
  function FlagBefore(th: Thresholds, alive: bool, h: seq<bool>): bool {
    TrailingRunFits(h);
    Run(th, Status(0, alive), h[..|h| - TrailingRun(h)]).alive
  }

  /** Adding a result either lengthens the latest run or begins one. */
  lemma FlagBeforeStep(th: Thresholds, alive: bool, h: seq<bool>)
    requires h != []
    ensures var f := h[..|h| - 1];
      FlagBefore(th, alive, h) ==
        if f != [] && f[|f| - 1] == h[|h| - 1] then FlagBefore(th, alive, f) else Run(th, Status(0, alive), f).alive
  {
    hide Run, TrailingRun;
    TrailingRunFits(h);
    TrailingRunStep(h);
    var f := h[..|h| - 1];
    TrailingRunFits(f);
    if f != [] && f[|f| - 1] == h[|h| - 1] {
      assert h[..|h| - TrailingRun(h)] == f[..|f| - TrailingRun(f)];
    } else {
      assert h[..|h| - TrailingRun(h)] == f;
    }
  }

  lemma {:induction false} FlagOfRun(th: Thresholds, alive: bool, h: seq<bool>)
    requires Proper(th) && h != []
    ensures Run(th, Status(0, alive), h).alive ==
      if TrailingRun(h) >= Limit(th, h[|h| - 1]) then h[|h| - 1] else FlagBefore(th, alive, h)
  {
    hide Run, TrailingRun, FlagBefore;
    var f := h[..|h| - 1];
    FlagAfterProbe(th, alive, h);
    assert h[..|h| - 1 + 1] == h;
    FlagBeforeStep(th, alive, h);
    TrailingRunStep(h);
    if f != [] && f[|f| - 1] == h[|h| - 1] { FlagOfRun(th, alive, f); }
  }

  /** The documented counter after a run of `n` results: it starts over once, if the run changes the flag. */
  function DocumentedCount(n: nat, limit: int, changes: bool): int {
    if changes && n >= limit then n - limit else n
  }

  lemma {:induction false} DocumentedStatus(th: Thresholds, alive: bool, h: seq<bool>)
    requires Proper(th)
    ensures var d := RunDocumented(th, Status(0, alive), h);
      && d.alive == Run(th, Status(0, alive), h).alive
      && d.count == if h == [] then 0 else
           var ok := h[|h| - 1];
           Signed(ok, DocumentedCount(TrailingRun(h), Limit(th, ok), FlagBefore(th, alive, h) != ok))
  {
    hide Run, TrailingRun, FlagBefore;
    if h == [] {
      RunOfNothing(th, Status(0, alive));
    } else {
      var f, ok := h[..|h| - 1], h[|h| - 1];
      DocumentedStatus(th, alive, f);
      FlagBeforeStep(th, alive, h);
      TrailingRunStep(h);
      FlagOfRun(th, alive, h);
      if f != [] { FlagOfRun(th, alive, f); } else { RunOfNothing(th, Status(0, alive)); }
    }
  }

  lemma RunOfNothing(th: Thresholds, s: Status)
    ensures Run(th, s, []) == s
  {
  }

  /** With no other writer the two machines raise and lower the flag at the same probes. */
  lemma SameFlags(th: Thresholds, alive: bool, h: seq<bool>, n: nat)
    requires Proper(th) && n <= |h|
    ensures RunDocumented(th, Status(0, alive), h[..n]).alive == Run(th, Status(0, alive), h[..n]).alive
  {
    DocumentedStatus(th, alive, h[..n]);
  }

  /**
    Their counters agree exactly while the latest run is shorter than its threshold, or shorter than twice its
    threshold when it found the flag the other way.
   */
  lemma CountersAgreeExactly(th: Thresholds, alive: bool, h: seq<bool>)
    requires Proper(th) && h != []
    ensures var n, limit := TrailingRun(h), Limit(th, h[|h| - 1]);
      RunDocumented(th, Status(0, alive), h).count == Run(th, Status(0, alive), h).count <==>
        n < limit || (FlagBefore(th, alive, h) != h[|h| - 1] && n < 2 * limit)
  {
    hide Run, RunDocumented, TrailingRun, FlagBefore, Leftover;
    var n, limit := TrailingRun(h), Limit(th, h[|h| - 1]);
    DocumentedStatus(th, alive, h);
    CounterIsTrailingRun(th, alive, h);
    LeftoverBelowTwice(n, limit);
  }

  lemma LeftoverBelowTwice(n: nat, limit: int)
    requires limit >= 1
    ensures n < limit ==> Leftover(n, limit) == n
    ensures limit <= n < 2 * limit ==> Leftover(n, limit) == n - limit
  {
    if n < limit {
      V.ModUnique(n, limit, 0, n);
    } else if n < 2 * limit {
      V.ModUnique(n, limit, 1, n - limit);
    }
  }

  /** Two good probes of an alive backend, with the default thresholds: the document counts 2, the code 0. */
  lemma CountersDiffer()
    ensures var th, h := Thresholds(3, 2), [true, true];
      && RunDocumented(th, Status(0, true), h) == Status(2, true)
      && Run(th, Status(0, true), h) == Status(0, true)
  {
    var th, h := Thresholds(3, 2), [true, true];
    assert h[..1] == [true];
    assert h[..1][..0] == [];
  }
}
