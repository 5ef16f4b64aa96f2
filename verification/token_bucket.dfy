/**
  The token bucket of internal/ratelimit/ratelimit.go. Time is a real number of seconds read from a clock
  that never goes back; a token count is a real number.
 */
module TokenBucket {

  datatype State = State(tokens: real, max: real, rate: real, lastTime: real)

  /** A new bucket is full. */
  function New(rate: real, burst: int, now: real): State {
    State(burst as real, burst as real, rate, now)
  }

  /** The tokens that flow in over `seconds`. */
  function Flow(rate: real, seconds: real): real {
    seconds * rate
  }

  function Refill(b: State, now: real): State {
    var tokens := b.tokens + Flow(b.rate, now - b.lastTime);
    b.(tokens := if tokens > b.max then b.max else tokens, lastTime := now)
  }

  function Spend(b: State, take: bool): State {
    if take then b.(tokens := b.tokens - 1.0) else b
  }

  /** One call: refill, then take a whole token if there is one. */
  function Allow(b: State, now: real): (State, bool) {
    var r := Refill(b, now);
    (Spend(r, r.tokens >= 1.0), r.tokens >= 1.0)
  }

  function Ceil(x: real): int {
    -((-x).Floor)
  }

  function RetryAfter(b: State): int {
    if b.rate <= 0.0 then 1
    else if 1.0 - b.tokens <= 0.0 then 1
    else Ceil((1.0 - b.tokens) / b.rate)
  }

  /** What `New` enforces, kept by every call. */
  predicate Valid(b: State) {
    0.0 <= b.tokens <= b.max && b.max >= 1.0 && b.rate > 0.0
  }

  class Bucket {
    var tokens: real
    const max: real
    const rate: real
    var lastTime: real
    /** The client the bucket serves; it keeps the buckets of two clients apart in proofs. */
    ghost const owner: string

    ghost function View(): State
      reads this
    {
      State(tokens, max, rate, lastTime)
    }

    constructor (rate: real, burst: int, now: real, ghost owner: string)
      ensures View() == New(rate, burst, now) && this.owner == owner
    {
      this.owner := owner;
      tokens, max, this.rate, lastTime := burst as real, burst as real, rate, now;
    }

    method TryTake(now: real) returns (ok: bool)
      modifies this
      ensures (View(), ok) == Allow(old(View()), now)
    {
      hide Flow;
      var elapsed := now - lastTime;
      tokens := tokens + Flow(rate, elapsed);
      if tokens > max {
        tokens := max;
      }
      lastTime := now;
      if tokens >= 1.0 {
        tokens := tokens - 1.0;
        return true;
      }
      return false;
    }

    method RetryAfterSeconds() returns (secs: int)
      ensures secs == RetryAfter(View())
      ensures tokens >= 1.0 || rate <= 0.0 ==> secs == 1
    {
      if rate <= 0.0 {
        return 1;
      }
      var deficit := 1.0 - tokens;
      if deficit <= 0.0 {
        return 1;
      }
      return Ceil(deficit / rate);
    }
  }

  // ----- runs

  /** Call times: none before the bucket's last refill, and never going back. */
  predicate Clock(b: State, times: seq<real>) {
    && (times != [] ==> b.lastTime <= times[0])
    && forall i, j :: 0 <= i <= j < |times| ==> times[i] <= times[j]
  }

  function Run(b: State, times: seq<real>): State {
    if times == [] then b else Allow(Run(b, times[..|times| - 1]), times[|times| - 1]).0
  }

  /** Whether the last of the calls is admitted. */
  function LastAdmitted(b: State, times: seq<real>): bool
    requires times != []
  {
    Allow(Run(b, times[..|times| - 1]), times[|times| - 1]).1
  }

  /** How many calls made at an instant in [s, t] are admitted. */
  function AdmittedIn(b: State, times: seq<real>, s: real, t: real): nat {
    if times == [] then 0
    else
      AdmittedIn(b, times[..|times| - 1], s, t)
      + if s <= times[|times| - 1] <= t && LastAdmitted(b, times) then 1 else 0
  }

  lemma FlowNonNegative(rate: real, seconds: real)
    requires rate >= 0.0 && seconds >= 0.0
    ensures Flow(rate, seconds) >= 0.0
  {
  }

  lemma FlowAdds(rate: real, x: real, y: real)
    ensures Flow(rate, x + y) == Flow(rate, x) + Flow(rate, y)
  {
  }

  lemma AllowKeepsValid(b: State, now: real)
    requires Valid(b) && b.lastTime <= now
    ensures Valid(Allow(b, now).0)
  {
    hide Flow;
    FlowNonNegative(b.rate, now - b.lastTime);
  }

  /** In every run the tokens stay between none and the burst size. */
  lemma {:induction false} TokensInRange(b: State, times: seq<real>)
    requires Valid(b) && Clock(b, times)
    ensures var r := Run(b, times);
      && Valid(r) && r.max == b.max && r.rate == b.rate
      && r.lastTime == if times == [] then b.lastTime else times[|times| - 1]
  {
    hide Flow;
    if times != [] {
      TokensInRange(b, times[..|times| - 1]);
      AllowKeepsValid(Run(b, times[..|times| - 1]), times[|times| - 1]);
    }
  }

  lemma RefillBound(b: State, now: real, s: real, n: int)
    requires n as real + b.tokens <= b.max + Flow(b.rate, b.lastTime - s)
    ensures n as real + Refill(b, now).tokens <= b.max + Flow(b.rate, now - s)
  {
    hide Flow;
    FlowAdds(b.rate, b.lastTime - s, now - b.lastTime);
    assert b.lastTime - s + (now - b.lastTime) == now - s;
  }

  /** Admissions since `s`, plus the tokens left, never exceed the burst and what has flowed in since. */
  lemma {:induction false} AdmittedAndLeft(b: State, times: seq<real>, s: real, t: real)
    requires Valid(b) && Clock(b, times) && times != [] && s <= times[|times| - 1] <= t
    ensures AdmittedIn(b, times, s, t) as real + Run(b, times).tokens
         <= b.max + Flow(b.rate, times[|times| - 1] - s)
  {
    hide Refill, Flow;
    var front, now := times[..|times| - 1], times[|times| - 1];
    var r := Run(b, front);
    TokensInRange(b, front);
    var n := AdmittedIn(b, front, s, t);
    assert n as real + Refill(r, now).tokens <= b.max + Flow(b.rate, now - s) by {
      if front != [] && s <= front[|front| - 1] {
        AdmittedAndLeft(b, front, s, t);
        RefillBound(r, now, s, n);
      } else {
        NoneBefore(b, front, s, t);
        FlowNonNegative(b.rate, now - s);
        RefillAtMostMax(r, now);
      }
    }
  }

  lemma RefillAtMostMax(b: State, now: real)
    ensures Refill(b, now).tokens <= b.max
  {
  }

  lemma {:induction false} NoneBefore(b: State, times: seq<real>, s: real, t: real)
    requires forall i :: 0 <= i < |times| ==> times[i] < s
    ensures AdmittedIn(b, times, s, t) == 0
  {
    if times != [] { NoneBefore(b, times[..|times| - 1], s, t); }
  }

  lemma FlowIs(rate: real, seconds: real)
    ensures Flow(rate, seconds) == rate * seconds
  {
  }

  lemma {:induction false} EnvelopeByFlow(b: State, times: seq<real>, s: real, t: real)
    requires Valid(b) && Clock(b, times) && s <= t
    ensures AdmittedIn(b, times, s, t) as real <= b.max + Flow(b.rate, t - s)
  {
    hide Flow, Refill;
    FlowNonNegative(b.rate, t - s);
    if times != [] {
      var last := times[|times| - 1];
      if s <= last <= t {
        AdmittedAndLeft(b, times, s, t);
        TokensInRange(b, times);
        FlowNonNegative(b.rate, t - last);
        FlowAdds(b.rate, last - s, t - last);
        assert last - s + (t - last) == t - s;
      } else {
        EnvelopeByFlow(b, times[..|times| - 1], s, t);
      }
    }
  }

  /** In any interval [s, t] a bucket admits at most burst + rate * (t - s) requests. */
  lemma RateEnvelope(b: State, times: seq<real>, s: real, t: real)
    requires Valid(b) && Clock(b, times) && s <= t
    ensures AdmittedIn(b, times, s, t) as real <= b.max + b.rate * (t - s)
  {
    hide Flow, AdmittedIn;
    EnvelopeByFlow(b, times, s, t);
    FlowIs(b.rate, t - s);
  }

  // ----- greedy optimality

  /** The bucket after answering the calls as `ds` says, whatever it says. */
  function RunPolicy(b: State, times: seq<real>, ds: seq<bool>): State
    requires |times| == |ds|
  {
    if times == [] then b
    else
      var n := |times| - 1;
      Spend(Refill(RunPolicy(b, times[..n], ds[..n]), times[n]), ds[n])
  }

  /** The policy `ds` admits only when its own bucket holds a whole token. */
  predicate Feasible(b: State, times: seq<real>, ds: seq<bool>)
    requires |times| == |ds|
  {
    times == [] ||
    var n := |times| - 1;
    && Feasible(b, times[..n], ds[..n])
    && (ds[n] ==> Refill(RunPolicy(b, times[..n], ds[..n]), times[n]).tokens >= 1.0)
  }

  function Decisions(b: State, times: seq<real>): (ds: seq<bool>)
    ensures |ds| == |times|
  {
    if times == [] then [] else Decisions(b, times[..|times| - 1]) + [LastAdmitted(b, times)]
  }

  function Count(ds: seq<bool>): nat {
    if ds == [] then 0 else Count(ds[..|ds| - 1]) + if ds[|ds| - 1] then 1 else 0
  }

  lemma OptimalStep(g: State, p: State, now: real, ahead: nat, take: bool)
    requires g.max == p.max && g.rate == p.rate && g.lastTime == p.lastTime
    requires p.tokens <= g.tokens + ahead as real
    requires take ==> Refill(p, now).tokens >= 1.0
    ensures var ahead' := ahead + (if Allow(g, now).1 then 1 else 0) - (if take then 1 else 0);
      ahead' >= 0 && Spend(Refill(p, now), take).tokens <= Allow(g, now).0.tokens + ahead' as real
  {
    hide Flow;
    assert Refill(p, now).tokens <= Refill(g, now).tokens + ahead as real;
  }

  lemma {:induction false} NeverBehind(b: State, times: seq<real>, ds: seq<bool>)
    requires |times| == |ds| && Feasible(b, times, ds)
    ensures Count(Decisions(b, times)) >= Count(ds)
    ensures var g, p := Run(b, times), RunPolicy(b, times, ds);
      && g.max == p.max && g.rate == p.rate && g.lastTime == p.lastTime
      && p.tokens <= g.tokens + (Count(Decisions(b, times)) - Count(ds)) as real
  {
    hide Refill;
    if times != [] {
      var n := |times| - 1;
      NeverBehind(b, times[..n], ds[..n]);
      RefillKeeps(Run(b, times[..n]), times[n]);
      RefillKeeps(RunPolicy(b, times[..n], ds[..n]), times[n]);
      var ahead := Count(Decisions(b, times[..n])) - Count(ds[..n]);
      OptimalStep(Run(b, times[..n]), RunPolicy(b, times[..n], ds[..n]), times[n], ahead, ds[n]);
      assert Decisions(b, times)[..n] == Decisions(b, times[..n]);
    }
  }

  lemma RefillKeeps(b: State, now: real)
    ensures var r := Refill(b, now); r.max == b.max && r.rate == b.rate && r.lastTime == now
  {
  }

  lemma {:induction false} DecisionsPrefix(b: State, times: seq<real>, k: nat)
    requires k <= |times|
    ensures Decisions(b, times)[..k] == Decisions(b, times[..k])
  {
    if k < |times| {
      var front := times[..|times| - 1];
      DecisionsPrefix(b, front, k);
      assert front[..k] == times[..k];
    } else {
      assert times[..k] == times;
    }
  }

  /** A run of the code is itself a feasible policy. */
  lemma {:induction false} CodeIsFeasible(b: State, times: seq<real>)
    ensures Feasible(b, times, Decisions(b, times)) && RunPolicy(b, times, Decisions(b, times)) == Run(b, times)
  {
    hide Refill;
    if times != [] {
      var n := |times| - 1;
      CodeIsFeasible(b, times[..n]);
      assert Decisions(b, times)[..n] == Decisions(b, times[..n]);
    }
  }

  /** At every prefix the code has admitted at least as many requests as any feasible policy. */
  lemma GreedyIsOptimal(b: State, times: seq<real>, ds: seq<bool>, k: nat)
    requires k <= |times| == |ds| && Feasible(b, times[..k], ds[..k])
    ensures Count(Decisions(b, times)[..k]) >= Count(ds[..k])
  {
    NeverBehind(b, times[..k], ds[..k]);
    DecisionsPrefix(b, times, k);
  }

  // ----- Retry-After

  lemma CeilBounds(x: real)
    ensures x <= Ceil(x) as real < x + 1.0
  {
  }

  /** A lone call `m` seconds after a refused one is admitted exactly when the deficit has flowed in. */
  lemma LoneRetry(b: State, m: real)
    requires Valid(b) && b.tokens < 1.0 && m >= 0.0
    ensures Allow(b, b.lastTime + m).1 <==> Flow(b.rate, m) >= 1.0 - b.tokens
  {
    hide Flow;
    assert b.lastTime + m - b.lastTime == m;
  }

  lemma DivideDeficit(m: real, deficit: real, rate: real)
    requires rate > 0.0
    ensures Flow(rate, m) >= deficit <==> m >= deficit / rate
  {
    var q := deficit / rate;
    assert q * rate == deficit;
    assert (m - q) * rate == Flow(rate, m) - deficit;
    if m < q { assert (q - m) * rate > 0.0; }
  }

  function After(now: real, secs: int): real {
    now + secs as real
  }

  lemma RetryAdmittedFrom(b: State, secs: int)
    requires Valid(b) && b.tokens < 1.0 && secs >= 0
    ensures RetryAfter(b) >= 1
    ensures Allow(b, After(b.lastTime, secs)).1 <==> secs >= RetryAfter(b)
  {
    hide Flow, Allow;
    var deficit := 1.0 - b.tokens;
    CeilBounds(deficit / b.rate);
    DivideDeficit(0.0, deficit, b.rate);
    assert Flow(b.rate, 0.0) == 0.0 by { FlowAdds(b.rate, 0.0, 0.0); }
    DivideDeficit(secs as real, deficit, b.rate);
    LoneRetry(b, secs as real);
  }

  /** The seconds reported after a refusal are the least whole number after which a lone retry succeeds. */
  lemma RetryAfterIsExact(b: State, now: real, secs: int)
    requires Valid(b) && b.lastTime <= now && !Allow(b, now).1 && secs >= 0
    ensures RetryAfter(Allow(b, now).0) >= 1
    ensures Allow(Allow(b, now).0, After(now, secs)).1 <==> secs >= RetryAfter(Allow(b, now).0)
  {
    AllowKeepsValid(b, now);
    RetryAdmittedFrom(Allow(b, now).0, secs);
  }
}
