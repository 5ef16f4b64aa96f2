/**
  The arithmetic of smooth weighted round-robin on a fixed list of alive backends.

  Position i of a weight vector `w` is the effective weight of the i-th alive backend, and position i of
  a value vector `v` is its running value. One selection adds `w` to `v`, takes the first largest entry
  and subtracts the total weight from it. The theorems are about all runs that start from zero values.
 */
module SmoothVectors {

  function Sum(v: seq<int>): int {
    if v == [] then 0 else v[0] + Sum(v[1..])
  }

  predicate AllZero(v: seq<int>) {
    forall i :: 0 <= i < |v| ==> v[i] == 0
  }

  predicate Weights(w: seq<int>) {
    w != [] && forall i :: 0 <= i < |w| ==> w[i] >= 1
  }

  function Plus(v: seq<int>, w: seq<int>): (u: seq<int>)
    requires |v| == |w|
    ensures |u| == |v| && forall i :: 0 <= i < |v| ==> u[i] == v[i] + w[i]
  {
    seq(|v|, i requires 0 <= i < |v| => v[i] + w[i])
  }

  /** The position of the first largest entry. */
  function FirstMax(u: seq<int>): (k: nat)
    requires u != []
    ensures k < |u|
    ensures forall j :: 0 <= j < |u| ==> u[j] <= u[k]
    ensures forall j :: 0 <= j < k ==> u[j] < u[k]
  {
    if |u| == 1 then 0 else
      var k := FirstMax(u[..|u| - 1]);
      if u[|u| - 1] > u[k] then |u| - 1 else k
  }

  function Pick(v: seq<int>, w: seq<int>): (k: nat)
    requires |v| == |w| && w != []
    ensures k < |w|
  {
    FirstMax(Plus(v, w))
  }

  function Paid(u: seq<int>, k: nat, W: int): (v: seq<int>)
    requires k < |u|
    ensures |v| == |u|
  {
    u[k := u[k] - W]
  }

  /** One selection. */
  function Next(v: seq<int>, w: seq<int>): (v': seq<int>)
    requires |v| == |w| && w != []
    ensures |v'| == |w|
  {
    var u, k := Plus(v, w), Pick(v, w);
    Paid(u, k, Sum(w))
  }

  /** The values after `t` selections from `v`. */
  function Run(v: seq<int>, w: seq<int>, t: nat): (v': seq<int>)
    requires |v| == |w| && w != []
    ensures |v'| == |w|
  {
    if t == 0 then v else Next(Run(v, w, t - 1), w)
  }

  /** Which backend the selection number `t` (counted from 0) of the run from `v` takes. */
  function PickAt(v: seq<int>, w: seq<int>, t: nat): (k: nat)
    requires |v| == |w| && w != []
    ensures k < |w|
  {
    Pick(Run(v, w, t), w)
  }

  /** How many of the selections numbered `start` up to, but not including, `end` take backend `i`. */
  function Picks(v: seq<int>, w: seq<int>, i: nat, start: nat, end: nat): nat
    requires |v| == |w| && w != [] && start <= end
    decreases end
  {
    if start == end then 0
    else Picks(v, w, i, start, end - 1) + if PickAt(v, w, end - 1) == i then 1 else 0
  }

  // ----- sums

  lemma {:induction false} SumUpdate(v: seq<int>, k: nat, x: int)
    requires k < |v|
    ensures Sum(v[k := x]) == Sum(v) - v[k] + x
  {
    if k == 0 {
      assert v[k := x][1..] == v[1..];
    } else {
      assert v[k := x][1..] == v[1..][k - 1 := x];
      SumUpdate(v[1..], k - 1, x);
    }
  }

  lemma {:induction false} SumPlus(v: seq<int>, w: seq<int>)
    requires |v| == |w|
    ensures Sum(Plus(v, w)) == Sum(v) + Sum(w)
  {
    if v != [] {
      assert Plus(v, w)[1..] == Plus(v[1..], w[1..]);
      SumPlus(v[1..], w[1..]);
    }
  }

  lemma {:induction false} SumAllZero(v: seq<int>)
    requires AllZero(v)
    ensures Sum(v) == 0
  {
    if v != [] { SumAllZero(v[1..]); }
  }

  lemma {:induction false} SumUpper(v: seq<int>, b: int)
    requires forall i :: 0 <= i < |v| ==> v[i] <= b
    ensures Sum(v) <= |v| * b
  {
    if v != [] { SumUpper(v[1..], b); }
  }

  lemma {:induction false} SumOfWeights(w: seq<int>)
    requires forall i :: 0 <= i < |w| ==> w[i] >= 1
    ensures Sum(w) >= |w|
  {
    if w != [] { SumOfWeights(w[1..]); }
  }

  lemma {:induction false} NonNegativeZeroSum(v: seq<int>)
    requires Sum(v) <= 0 && forall i :: 0 <= i < |v| ==> v[i] >= 0
    ensures AllZero(v)
  {
    if v != [] {
      SumNonNegative(v[1..]);
      NonNegativeZeroSum(v[1..]);
      forall i | 0 <= i < |v| ensures v[i] == 0 {
        if i > 0 { assert v[i] == v[1..][i - 1]; }
      }
    }
  }

  lemma {:induction false} SumNonNegative(v: seq<int>)
    requires forall i :: 0 <= i < |v| ==> v[i] >= 0
    ensures Sum(v) >= 0
  {
    if v != [] { SumNonNegative(v[1..]); }
  }

  lemma PositiveFactor(n: int, x: int)
    requires n >= 1 && n * x >= 1
    ensures x >= 1
  {
  }

  /** n * x by repeated addition: it keeps products of unknowns away from the solver. */
  function Times(n: nat, x: int): int {
    if n == 0 then 0 else Times(n - 1, x) + x
  }

  lemma {:induction false} TimesIsProduct(n: nat, x: int)
    ensures Times(n, x) == n * x
  {
    if n > 0 { TimesIsProduct(n - 1, x); }
  }

  // ----- one selection

  lemma PaidSum(u: seq<int>, k: nat, W: int)
    requires k < |u|
    ensures Sum(Paid(u, k, W)) == Sum(u) - W
  {
    hide Sum;
    SumUpdate(u, k, u[k] - W);
  }

  /** A selection keeps the sum of the values. */
  lemma NextKeepsSum(v: seq<int>, w: seq<int>)
    requires |v| == |w| && w != []
    ensures Sum(Next(v, w)) == Sum(v)
  {
    hide Plus, Pick, Sum, Paid;
    SumPlus(v, w);
    PaidSum(Plus(v, w), Pick(v, w), Sum(w));
  }

  /** With zero sum the winner stands above zero before it pays, so no value falls to -W. */
  lemma NextKeepsLowerBound(v: seq<int>, w: seq<int>)
    requires |v| == |w| && Weights(w) && Sum(v) == 0
    requires forall i :: 0 <= i < |v| ==> v[i] > -Sum(w)
    ensures forall i :: 0 <= i < |w| ==> Next(v, w)[i] > -Sum(w)
  {
    var u, k := Plus(v, w), Pick(v, w);
    SumPlus(v, w);
    SumOfWeights(w);
    SumUpper(u, u[k]);
    PositiveFactor(|u|, u[k]);
  }

  // ----- all runs from zero values

  lemma {:induction false} RunInvariant(v: seq<int>, w: seq<int>, t: nat)
    requires |v| == |w| && Weights(w) && AllZero(v)
    ensures Sum(Run(v, w, t)) == 0
    ensures forall i :: 0 <= i < |w| ==> Run(v, w, t)[i] > -Sum(w)
  {
    hide Sum, Next;
    if t == 0 {
      SumAllZero(v);
      SumOfWeights(w);
    } else {
      RunInvariant(v, w, t - 1);
      NextKeepsSum(Run(v, w, t - 1), w);
      NextKeepsLowerBound(Run(v, w, t - 1), w);
    }
  }

  lemma RunAt(v: seq<int>, w: seq<int>, i: nat, t: nat)
    requires |v| == |w| && i < |w|
    ensures Run(v, w, t + 1)[i] == Run(v, w, t)[i] + w[i] - if PickAt(v, w, t) == i then Sum(w) else 0
  {
  }

  lemma {:induction false} TimesLedger(v: seq<int>, w: seq<int>, i: nat, start: nat, end: nat)
    requires |v| == |w| && i < |w| && start <= end
    ensures Run(v, w, end)[i]
         == Run(v, w, start)[i] + Times(end - start, w[i]) - Times(Picks(v, w, i, start, end), Sum(w))
    decreases end
  {
    hide Run, PickAt, Sum;
    if start < end {
      TimesLedger(v, w, i, start, end - 1);
      RunAt(v, w, i, end - 1);
    }
  }

  /** A value is the weight earned over a window less W for every time the backend was taken in it. */
  lemma ValueLedger(v: seq<int>, w: seq<int>, i: nat, start: nat, end: nat)
    requires |v| == |w| && i < |w| && start <= end
    ensures Run(v, w, end)[i]
         == Run(v, w, start)[i] + (end - start) * w[i] - Picks(v, w, i, start, end) * Sum(w)
  {
    TimesLedger(v, w, i, start, end);
    TimesIsProduct(end - start, w[i]);
    TimesIsProduct(Picks(v, w, i, start, end), Sum(w));
  }

  lemma MultipleAboveMinus(W: nat, a: int, p: nat, x: int)
    requires W >= 1 && x == Times(W, a) - Times(p, W) && x > 0 - W
    ensures x >= 0
  {
    TimesIsProduct(W, a);
    TimesIsProduct(p, W);
    assert W * (a - p + 1) >= 1;
    PositiveFactor(W, a - p + 1);
    assert W * (a - p) >= 0;
  }

  lemma RunOfNothing(v: seq<int>, w: seq<int>)
    requires |v| == |w| && w != []
    ensures Run(v, w, 0) == v
  {
  }

  /** After W selections every value is back at zero. */
  lemma FullTurn(v: seq<int>, w: seq<int>)
    requires |v| == |w| && Weights(w) && AllZero(v)
    ensures Sum(w) >= 1 && Run(v, w, Sum(w)) == v
  {
    hide Sum, Run, Picks, Times;
    SumOfWeights(w);
    var W := Sum(w);
    var v' := Run(v, w, W);
    RunInvariant(v, w, W);
    RunOfNothing(v, w);
    forall i | 0 <= i < |w| ensures v'[i] >= 0 {
      TimesLedger(v, w, i, 0, W);
      MultipleAboveMinus(W, w[i], Picks(v, w, i, 0, W), v'[i]);
    }
    NonNegativeZeroSum(v');
  }

  lemma {:induction false} RunPeriodic(v: seq<int>, w: seq<int>, t: nat)
    requires |v| == |w| && Weights(w) && AllZero(v)
    ensures Sum(w) >= 1 && Run(v, w, t + Sum(w)) == Run(v, w, t)
  {
    hide Sum, Next;
    FullTurn(v, w);
    if t > 0 {
      RunPeriodic(v, w, t - 1);
      assert t + Sum(w) - 1 == t - 1 + Sum(w);
    }
  }

  lemma CancelFactor(W: nat, a: int, p: nat)
    requires W >= 1 && Times(W, a) == Times(p, W)
    ensures a == p
  {
    TimesIsProduct(W, a);
    TimesIsProduct(p, W);
  }

  /** Every window of W consecutive selections takes each backend exactly its weight times. */
  lemma ExactShare(v: seq<int>, w: seq<int>, i: nat, t: nat)
    requires |v| == |w| && Weights(w) && AllZero(v) && i < |w|
    ensures Sum(w) >= 1 && Picks(v, w, i, t, t + Sum(w)) == w[i]
  {
    hide Run, PickAt, Sum, Picks, Times;
    var W := Sum(w);
    RunPeriodic(v, w, t);
    TimesLedger(v, w, i, t, t + W);
    CancelFactor(W, w[i], Picks(v, w, i, t, t + W));
  }

  // ----- the lag bound

  /** The harmonic number 1 + 1/2 + ... + 1/n. */
  function Harmonic(n: nat): real {
    if n == 0 then 0.0 else Harmonic(n - 1) + 1.0 / (n as real)
  }

  /** How many positions a mask selects. A mask stands for a subset of the backends. */
  function Size(mask: seq<bool>): nat {
    if mask == [] then 0 else (if mask[0] then 1 else 0) + Size(mask[1..])
  }

  /** The sum of the selected values. */
  function Selected(v: seq<int>, mask: seq<bool>): int
    requires |v| == |mask|
  {
    if v == [] then 0 else (if mask[0] then v[0] else 0) + Selected(v[1..], mask[1..])
  }

  lemma {:induction false} SelectedPlus(v: seq<int>, w: seq<int>, mask: seq<bool>)
    requires |v| == |w| == |mask|
    ensures Selected(Plus(v, w), mask) == Selected(v, mask) + Selected(w, mask)
  {
    if v != [] {
      assert Plus(v, w)[1..] == Plus(v[1..], w[1..]);
      SelectedPlus(v[1..], w[1..], mask[1..]);
    }
  }

  lemma {:induction false} SelectedUpdate(v: seq<int>, mask: seq<bool>, k: nat, x: int)
    requires |v| == |mask| && k < |v|
    ensures Selected(v[k := x], mask) == Selected(v, mask) + if mask[k] then x - v[k] else 0
  {
    if k == 0 {
      assert v[k := x][1..] == v[1..];
    } else {
      assert v[k := x][1..] == v[1..][k - 1 := x];
      SelectedUpdate(v[1..], mask[1..], k - 1, x);
    }
  }

  lemma {:induction false} SelectOneMore(v: seq<int>, mask: seq<bool>, k: nat)
    requires |v| == |mask| && k < |v| && !mask[k]
    ensures Size(mask[k := true]) == Size(mask) + 1
    ensures Selected(v, mask[k := true]) == Selected(v, mask) + v[k]
  {
    if k == 0 {
      assert mask[k := true][1..] == mask[1..];
    } else {
      assert mask[k := true][1..] == mask[1..][k - 1 := true];
      SelectOneMore(v[1..], mask[1..], k - 1);
    }
  }

  lemma {:induction false} SelectedUpper(v: seq<int>, mask: seq<bool>, b: int)
    requires |v| == |mask| && forall i :: 0 <= i < |v| ==> v[i] <= b
    ensures Selected(v, mask) <= Size(mask) * b
  {
    if v != [] { SelectedUpper(v[1..], mask[1..], b); }
  }

  lemma {:induction false} SelectedWeights(w: seq<int>, mask: seq<bool>)
    requires |w| == |mask| && forall i :: 0 <= i < |w| ==> w[i] >= 1
    ensures Size(mask) <= |mask| && Selected(w, mask) <= Sum(w)
  {
    if w != [] { SelectedWeights(w[1..], mask[1..]); }
  }

  /** The most the values of `k` of the `n` backends may sum to: k*W*(1/(k+1) + ... + 1/n). */
  function LagLimit(W: int, n: nat, k: nat): real {
    k as real * W as real * (Harmonic(n) - Harmonic(k))
  }

  lemma {:induction false} HarmonicMonotone(k: nat, n: nat)
    requires k <= n
    ensures Harmonic(k) <= Harmonic(n)
  {
    if k < n { HarmonicMonotone(k, n - 1); }
  }

  lemma MulLe(c: real, x: real, y: real)
    requires c >= 0.0 && x <= y
    ensures c * x <= c * y
  {
  }

  lemma GreedyArith(k: real, W: real, d: real, r: real, a: real, b: real)
    requires k >= 0.0 && r > 0.0 && r * (k + 1.0) == 1.0
    requires a <= k * b
    requires a + b <= (k + 1.0) * W * d + W
    ensures a <= k * W * (d + r)
  {
    var limit := (k + 1.0) * W * d + W;
    MulLe(k, a + b, limit);
    assert (k + 1.0) * a <= k * limit;
    MulLe(r, (k + 1.0) * a, k * limit);
    assert r * ((k + 1.0) * a) == a by { assert r * ((k + 1.0) * a) == (r * (k + 1.0)) * a; }
    calc {
      r * (k * limit);
    ==
      (r * (k + 1.0)) * (k * W * d) + k * W * r;
    ==
      k * W * (d + r);
    }
  }

  /**
    The greedy step. If the winner of value `b` is outside a set of `k` backends with sum `a`, then the
    set together with the winner obeyed the limit for k + 1, up to the W units just handed out.
   */
  lemma GreedyStep(W: int, n: nat, k: nat, a: int, b: int)
    requires a <= k * b
    requires a as real + b as real <= LagLimit(W, n, k + 1) + W as real
    ensures a as real <= LagLimit(W, n, k)
  {
    assert (k * b) as real == k as real * b as real;
    GreedyArith(k as real, W as real, Harmonic(n) - Harmonic(k + 1), 1.0 / (k + 1) as real, a as real, b as real);
  }

  lemma LagStepArith(W: int, v: int, w: int, limit: real)
    requires v as real <= limit && w <= W
    ensures (v + w - W) as real <= limit
  {
  }

  /** What one selection does to the values of a set of backends. */
  lemma SelectedNext(v: seq<int>, w: seq<int>, mask: seq<bool>)
    requires |v| == |w| == |mask| && w != []
    ensures Selected(Next(v, w), mask)
         == Selected(v, mask) + Selected(w, mask) - if mask[Pick(v, w)] then Sum(w) else 0
  {
    hide Selected, Sum, Plus, Pick;
    var u, k := Plus(v, w), Pick(v, w);
    SelectedPlus(v, w, mask);
    SelectedUpdate(u, mask, k, u[k] - Sum(w));
  }

  ghost predicate WithinLag(v: seq<int>, w: seq<int>) {
    forall mask: seq<bool> :: |mask| == |v| ==> Selected(v, mask) as real <= LagLimit(Sum(w), |w|, Size(mask))
  }

  lemma NextWithinLag(v: seq<int>, w: seq<int>, mask: seq<bool>)
    requires |v| == |w| == |mask| && Weights(w) && WithinLag(v, w)
    ensures Selected(Next(v, w), mask) as real <= LagLimit(Sum(w), |w|, Size(mask))
  {
    hide Sum, Plus, Next, Size, Selected, LagLimit;
    var n, W := |w|, Sum(w);
    var u, k := Plus(v, w), Pick(v, w);
    SelectedNext(v, w, mask);
    SelectedWeights(w, mask);
    if mask[k] {
      LagStepArith(W, Selected(v, mask), Selected(w, mask), LagLimit(W, n, Size(mask)));
    } else {
      var more := mask[k := true];
      SelectOneMore(u, mask, k);
      SelectedPlus(v, w, mask);
      SelectedPlus(v, w, more);
      SelectedWeights(w, more);
      SelectedUpper(u, mask, u[k]);
      assert Selected(v, more) as real <= LagLimit(W, n, Size(mask) + 1);
      GreedyStep(W, n, Size(mask), Selected(u, mask), u[k]);
    }
  }

  lemma LagLimitNonNegative(W: int, n: nat, k: nat)
    requires W >= 0 && k <= n
    ensures LagLimit(W, n, k) >= 0.0
  {
    HarmonicMonotone(k, n);
  }

  /** At every moment and for every set of backends, the values of the set sum to at most its lag limit. */
  lemma {:induction false} LagBound(v: seq<int>, w: seq<int>, t: nat)
    requires |v| == |w| && Weights(w) && AllZero(v)
    ensures WithinLag(Run(v, w, t), w)
  {
    hide Next, Selected, Size, LagLimit, Sum, Harmonic;
    var v' := Run(v, w, t);
    if t > 0 { LagBound(v, w, t - 1); }
    forall mask: seq<bool> | |mask| == |v'|
      ensures Selected(v', mask) as real <= LagLimit(Sum(w), |w|, Size(mask))
    {
      if t == 0 {
        SelectedUpper(v, mask, 0);
        SumOfWeights(w);
        SelectedWeights(w, mask);
        LagLimitNonNegative(Sum(w), |w|, Size(mask));
      } else {
        NextWithinLag(Run(v, w, t - 1), w, mask);
      }
    }
  }

  lemma {:induction false} SelectNone(v: seq<int>, mask: seq<bool>)
    requires |v| == |mask| && forall j :: 0 <= j < |mask| ==> !mask[j]
    ensures Selected(v, mask) == 0 && Size(mask) == 0
  {
    if v != [] { SelectNone(v[1..], mask[1..]); }
  }

  lemma SelectSingle(v: seq<int>, i: nat) returns (mask: seq<bool>)
    requires i < |v|
    ensures |mask| == |v| && Selected(v, mask) == v[i] && Size(mask) == 1
  {
    var none := seq(|v|, j => false);
    SelectNone(v, none);
    SelectOneMore(v, none, i);
    mask := none[i := true];
  }

  /** No single value exceeds W*(1/2 + ... + 1/n). */
  lemma SingleLag(v: seq<int>, w: seq<int>, i: nat, t: nat)
    requires |v| == |w| && Weights(w) && AllZero(v) && i < |w|
    ensures Run(v, w, t)[i] as real <= Sum(w) as real * (Harmonic(|w|) - 1.0)
  {
    hide Run, Selected, Size, LagLimit, Harmonic, Sum;
    var mask := SelectSingle(Run(v, w, t), i);
    LagBound(v, w, t);
    LagLimitOne(Sum(w), |w|);
  }

  lemma LagLimitOne(W: int, n: nat)
    ensures LagLimit(W, n, 1) == W as real * (Harmonic(n) - 1.0)
  {
    assert Harmonic(1) == Harmonic(0) + 1.0;
  }

  lemma GapArith(v0: int, v1: int, T: nat, x: int, W: int, h: real)
    requires v1 == v0 + Times(T, x) && v0 > -W && v1 as real <= W as real * (h - 1.0)
    ensures T as real * x as real < W as real * h
  {
    TimesIsProduct(T, x);
    assert (T * x) as real == T as real * x as real;
  }

  /** A backend of weight w passed over for `T` selections in a row has T*w < W*(1 + 1/2 + ... + 1/n). */
  lemma GapBound(v: seq<int>, w: seq<int>, i: nat, t: nat, T: nat)
    requires |v| == |w| && Weights(w) && AllZero(v) && i < |w| && Picks(v, w, i, t, t + T) == 0
    ensures T as real * w[i] as real < Sum(w) as real * Harmonic(|w|)
  {
    hide Run, Harmonic, Sum, Picks;
    TimesLedger(v, w, i, t, t + T);
    RunInvariant(v, w, t);
    SingleLag(v, w, i, t + T);
    GapArith(Run(v, w, t)[i], Run(v, w, t + T)[i], T, w[i], Sum(w), Harmonic(|w|));
  }

  lemma {:induction false} HarmonicAtMost(n: nat)
    ensures Harmonic(n) <= n as real
  {
    if n > 0 {
      HarmonicAtMost(n - 1);
      assert 1.0 / n as real <= 1.0;
    }
  }

  lemma MagnitudeArith(v: int, x: int, W: int, n: nat, h: real)
    requires v as real <= W as real * (h - 1.0) && h <= n as real && 0 <= x <= W
    ensures v + x <= n * W
  {
    MulLe(W as real, h - 1.0, n as real - 1.0);
    assert W as real * (n as real - 1.0) == (n * W - W) as real;
  }

  /** Even before the winner pays, every value lies strictly above -W and at most at n*W. */
  lemma MagnitudeBound(v: seq<int>, w: seq<int>, i: nat, t: nat)
    requires |v| == |w| && Weights(w) && AllZero(v) && i < |w|
    ensures -Sum(w) < Run(v, w, t)[i] && Run(v, w, t)[i] + w[i] <= |w| * Sum(w)
  {
    hide Run, Harmonic, Sum, Selected, Size;
    RunInvariant(v, w, t);
    SingleLag(v, w, i, t);
    HarmonicAtMost(|w|);
    var mask := SelectSingle(w, i);
    SelectedWeights(w, mask);
    MagnitudeArith(Run(v, w, t)[i], w[i], Sum(w), |w|, Harmonic(|w|));
  }

  // ----- equal weights

  predicate AllEqual(w: seq<int>, c: int) {
    forall i :: 0 <= i < |w| ==> w[i] == c
  }

  lemma {:induction false} SumAllEqual(w: seq<int>, c: int)
    requires AllEqual(w, c)
    ensures Sum(w) == Times(|w|, c)
  {
    if w != [] { SumAllEqual(w[1..], c); }
  }

  /** The values after r of n equal shares: those already served are a full turn behind. */
  predicate Turned(v: seq<int>, c: int, r: nat) {
    r < |v| && forall i :: 0 <= i < |v| ==> v[i] == Times(r, c) - if i < r then Times(|v|, c) else 0
  }

  lemma {:induction false} TimesPositive(n: nat, c: int)
    requires n >= 1 && c >= 1
    ensures Times(n, c) >= 1
  {
    if n > 1 { TimesPositive(n - 1, c); }
  }

  lemma TurnedZero(v: seq<int>, c: int)
    requires v != [] && AllZero(v)
    ensures Turned(v, c, 0)
  {
  }

  lemma TurnedStep(v: seq<int>, w: seq<int>, c: int, r: nat)
    requires |v| == |w| && c >= 1 && AllEqual(w, c) && Turned(v, c, r)
    ensures Pick(v, w) == r
    ensures Turned(Next(v, w), c, if r + 1 == |w| then 0 else r + 1)
  {
    var u, k := Plus(v, w), Pick(v, w);
    SumAllEqual(w, c);
    TimesPositive(|w|, c);
    assert u[r] <= u[k];
    assert Times(r + 1, c) == Times(r, c) + c;
  }

  /** With equal weights the run from zero values goes round the list in order. */
  lemma {:induction false} EqualWeightsCycle(v: seq<int>, w: seq<int>, c: int, t: nat)
    requires |v| == |w| && w != [] && AllZero(v) && c >= 1 && AllEqual(w, c)
    ensures PickAt(v, w, t) == t % |w|
    ensures Turned(Run(v, w, t), c, t % |w|)
  {
    hide Turned, AllEqual, Pick, Next;
    if t > 0 {
      EqualWeightsCycle(v, w, c, t - 1);
      ModSuccessor(t - 1, |w|);
      TurnedStep(Run(v, w, t - 1), w, c, (t - 1) % |w|);
    } else {
      TurnedZero(v, c);
    }
    TurnedStep(Run(v, w, t), w, c, t % |w|);
  }

  lemma ModSuccessor(t: nat, n: nat)
    requires n >= 1
    ensures (t + 1) % n == if t % n + 1 == n then 0 else t % n + 1
  {
    var q, r := t / n, t % n;
    if r + 1 == n {
      ModUnique(t + 1, n, q + 1, 0);
    } else {
      ModUnique(t + 1, n, q, r + 1);
    }
  }

  lemma ModUnique(x: int, n: int, q: int, r: int)
    requires n >= 1 && x == n * q + r && 0 <= r < n
    ensures x % n == r
  {
    var q', r' := x / n, x % n;
    assert n * (q' - q) == r - r';
    assert n * (q' - q + 1) >= 1;
    PositiveFactor(n, q' - q + 1);
    assert n * (q - q' + 1) >= 1;
    PositiveFactor(n, q - q' + 1);
  }
}
