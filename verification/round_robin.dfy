/** Plain round-robin over a wrapping 64-bit counter (internal/algo/round_robin.go). */
module RoundRobin {
  import opened Common
  import opened Backends
  import SmoothVectors

  /** The counter is a uint64. */
  const WORD: int := 0x1_0000_0000_0000_0000

  /** A slice length is a signed 64-bit int. */
  const MAX_LEN: int := 0x7FFF_FFFF_FFFF_FFFF

  /** Position `i` steps after `start`, going round. */
  function Around(start: nat, i: nat, n: nat): (p: nat)
    requires n >= 1
    ensures p < n
  {
    (start + i) % n
  }

  /** The counter after the atomic add. */
  function Bumped(current: nat): (c: nat)
    ensures c < WORD
  {
    (current + 1) % WORD
  }

  /** The position at which a call starts to scan. */
  function Entry(current: nat, n: nat): (p: nat)
    requires n >= 1
    ensures p < n
  {
    Bumped(current) % n
  }

  /** The first alive position met going round from `start`, skipping the first `i` positions. */
  function Scan(alive: seq<bool>, start: nat, i: nat): (found: Option<nat>)
    requires i <= |alive|
    ensures found.Some? ==> found.value < |alive| && alive[found.value]
    decreases |alive| - i
  {
    if i == |alive| then None
    else
      var idx := Around(start, i, |alive|);
      if alive[idx] then Some(idx) else Scan(alive, start, i + 1)
  }

  /** One selection: the new counter and the chosen position. */
  function Step(current: nat, alive: seq<bool>): (nat, Option<nat>) {
    if alive == [] then (current, None)
    else
      match Scan(alive, Entry(current, |alive|), 0)
      case None => (Bumped(current), None)
      case Some(idx) => (idx, Some(idx))
  }

  ghost function Flags(bs: seq<Backend>): (alive: seq<bool>)
    reads bs
    ensures |alive| == |bs| && forall i :: 0 <= i < |bs| ==> alive[i] == bs[i].alive
  {
    if bs == [] then [] else Flags(bs[..|bs| - 1]) + [bs[|bs| - 1].alive]
  }

  class Selector {
    var current: nat

    constructor ()
      ensures current == 0
    {
      current := 0;
    }

    method Next(backends: seq<Backend>) returns (peer: Backend?)
      requires current < WORD && |backends| <= MAX_LEN
      modifies this
      ensures current < WORD
      ensures current == Step(old(current), Flags(backends)).0
      ensures match Step(old(current), Flags(backends)).1
              case None => peer == null
              case Some(i) => peer == backends[i]
    {
      var n := |backends|;
      if n == 0 {
        return null;
      }
      var next := Entry(current, n);
      current := Bumped(current);
      for i := 0 to n
        invariant current == Bumped(old(current))
        invariant Scan(Flags(backends), next, 0) == Scan(Flags(backends), next, i)
      {
        var idx := Around(next, i, n);
        if backends[idx].alive {
          current := idx;
          return backends[idx];
        }
      }
      return null;
    }
  }

  // ----- sequential calls with a fixed alive set

  function Run(current: nat, alive: seq<bool>, t: nat): nat {
    if t == 0 then current else Step(Run(current, alive, t - 1), alive).0
  }

  /** The position that call number `t` (from 0) returns. */
  function PickAt(current: nat, alive: seq<bool>, t: nat): Option<nat> {
    Step(Run(current, alive, t), alive).1
  }

  /** How often the calls numbered `start` up to, but not including, `end` return position `p`. */
  function TimesPicked(current: nat, alive: seq<bool>, p: nat, start: nat, end: nat): nat
    requires start <= end
    decreases end
  {
    if start == end then 0
    else TimesPicked(current, alive, p, start, end - 1) + if PickAt(current, alive, end - 1) == Some(p) then 1 else 0
  }

  /** The alive positions in list order. */
  function AliveAt(alive: seq<bool>): (l: seq<nat>)
    ensures forall p :: p in l <==> 0 <= p < |alive| && alive[p]
    ensures forall i, j :: 0 <= i < j < |l| ==> l[i] < l[j]
  {
    if alive == [] then []
    else
      var front := AliveAt(alive[..|alive| - 1]);
      assert forall i :: 0 <= i < |front| ==> front[i] in front;
      if alive[|alive| - 1] then front + [|alive| - 1] else front
  }

  lemma {:induction false} ScanFinds(alive: seq<bool>, start: nat, i: nat, d: nat)
    requires i <= d < |alive| && alive[Around(start, d, |alive|)]
    requires forall e :: i <= e < d ==> !alive[Around(start, e, |alive|)]
    ensures Scan(alive, start, i) == Some(Around(start, d, |alive|))
    decreases d - i
  {
    hide Around;
    if i < d { ScanFinds(alive, start, i + 1, d); }
  }

  lemma {:induction false} ScanFails(alive: seq<bool>, start: nat, i: nat)
    requires i <= |alive| && Scan(alive, start, i).None?
    ensures forall e :: i <= e < |alive| ==> !alive[Around(start, e, |alive|)]
    decreases |alive| - i
  {
    hide Around;
    if i < |alive| { ScanFails(alive, start, i + 1); }
  }

  lemma ModSmall(x: nat, n: nat)
    requires n >= 1 && x < 2 * n
    ensures x % n == if x < n then x else x - n
  {
    SmoothVectors.ModUnique(x, n, if x < n then 0 else 1, if x < n then x else x - n);
  }

  /** The steps it takes from `start` to `p`, going round. */
  function Distance(start: nat, p: nat, n: nat): (d: nat)
    requires start < n && p < n
    ensures d < n
  {
    if p >= start then p - start else p + n - start
  }

  lemma AroundDistance(start: nat, p: nat, n: nat)
    requires start < n && p < n
    ensures Around(start, Distance(start, p, n), n) == p
  {
    ModSmall(start + Distance(start, p, n), n);
  }

  lemma DistanceAround(start: nat, e: nat, n: nat)
    requires start < n && e < n
    ensures Distance(start, Around(start, e, n), n) == e
  {
    ModSmall(start + e, n);
  }

  /** A call returns nil only when no backend is alive. */
  lemma NilOnlyWhenNoneAlive(current: nat, alive: seq<bool>)
    ensures Step(current, alive).1.None? <==> forall p :: 0 <= p < |alive| ==> !alive[p]
  {
    hide Around, Entry, Bumped, Distance;
    if alive != [] && Step(current, alive).1.None? {
      var start := Entry(current, |alive|);
      ScanFails(alive, start, 0);
      forall p | 0 <= p < |alive| ensures !alive[p] {
        AroundDistance(start, p, |alive|);
      }
    }
  }

  lemma EntryAfter(p: nat, n: nat)
    requires p < n <= MAX_LEN
    ensures Entry(p, n) == if p + 1 == n then 0 else p + 1
  {
    ModSmall(p + 1, WORD);
    ModSmall(p + 1, n);
  }

  /** The first alive position at or after the entry point, going round, is the one returned. */
  lemma StepReturns(current: nat, alive: seq<bool>, p: nat)
    requires p < |alive| && alive[p]
    requires forall q :: 0 <= q < |alive| && alive[q] ==>
      Distance(Entry(current, |alive|), p, |alive|) <= Distance(Entry(current, |alive|), q, |alive|)
    ensures Step(current, alive) == (p, Some(p))
  {
    hide Around, Entry, Bumped, Distance;
    var n := |alive|;
    var start := Entry(current, n);
    AroundDistance(start, p, n);
    forall e | 0 <= e < Distance(start, p, n) ensures !alive[Around(start, e, n)] {
      DistanceAround(start, e, n);
    }
    ScanFinds(alive, start, 0, Distance(start, p, n));
  }

  /** From the j-th alive position the next call goes to the one after it, going round. */
  lemma NextAlive(alive: seq<bool>, j: nat)
    requires |alive| <= MAX_LEN && j < |AliveAt(alive)|
    ensures var k := if j + 1 == |AliveAt(alive)| then 0 else j + 1;
      Step(AliveAt(alive)[j], alive) == (AliveAt(alive)[k], Some(AliveAt(alive)[k]))
  {
    hide AliveAt, Step, Entry;
    var l, n := AliveAt(alive), |alive|;
    assert l[j] in l;
    EntryAfter(l[j], n);
    var k := if j + 1 == |l| then 0 else j + 1;
    assert l[k] in l;
    var start := Entry(l[j], n);
    forall q | 0 <= q < n && alive[q] ensures Distance(start, l[k], n) <= Distance(start, q, n) {
      assert q in l;
      var i :| 0 <= i < |l| && l[i] == q;
      assert i <= j ==> l[i] <= l[j];
      assert i > j ==> l[k] <= l[i];
      assert l[0] <= l[i];
      assert l[i] <= l[|l| - 1];
    }
    StepReturns(l[j], alive, l[k]);
  }

  /** The k alive backends are returned in cyclic list order, from whatever counter the calls start. */
  lemma {:induction false} CyclesFrom(current: nat, alive: seq<bool>, j: nat, t: nat)
    requires |alive| <= MAX_LEN && j < |AliveAt(alive)| && PickAt(current, alive, 0) == Some(AliveAt(alive)[j])
    ensures PickAt(current, alive, t) == Some(AliveAt(alive)[Around(j, t, |AliveAt(alive)|)])
  {
    hide AliveAt, Step, Around;
    var l := AliveAt(alive);
    if t == 0 {
      AroundZero(j, |l|);
    } else {
      CyclesFrom(current, alive, j, t - 1);
      AroundSuccessor(j, t - 1, |l|);
      StepMovesTo(Run(current, alive, t - 1), alive);
      NextAlive(alive, Around(j, t - 1, |l|));
    }
  }

  lemma StepMovesTo(current: nat, alive: seq<bool>)
    requires Step(current, alive).1.Some?
    ensures Step(current, alive).0 == Step(current, alive).1.value
  {
  }

  lemma AroundZero(j: nat, n: nat)
    requires j < n
    ensures Around(j, 0, n) == j
  {
    ModSmall(j, n);
  }

  lemma AroundSuccessor(j: nat, t: nat, n: nat)
    requires n >= 1
    ensures Around(j, t + 1, n) == if Around(j, t, n) + 1 == n then 0 else Around(j, t, n) + 1
  {
    SmoothVectors.ModSuccessor(j + t, n);
  }

  lemma FirstPick(current: nat, alive: seq<bool>, p: nat) returns (j: nat)
    requires p < |alive| && alive[p]
    ensures j < |AliveAt(alive)| && PickAt(current, alive, 0) == Some(AliveAt(alive)[j])
  {
    NilOnlyWhenNoneAlive(current, alive);
    var q := PickAt(current, alive, 0).value;
    assert q in AliveAt(alive);
    j :| 0 <= j < |AliveAt(alive)| && AliveAt(alive)[j] == q;
  }

  /** How many steps s of [t, t + len) come to position r of n, going round from j. */
  function Visits(j: nat, t: nat, len: nat, n: nat, r: nat): nat
    requires n >= 1
  {
    if len == 0 then 0 else Visits(j, t, len - 1, n, r) + if Around(j, t + len - 1, n) == r then 1 else 0
  }

  lemma {:induction false} VisitsShift(j: nat, t: nat, len: nat, n: nat, r: nat)
    requires n >= 1
    ensures Visits(j, t, len + 1, n, r) == Visits(j, t + 1, len, n, r) + if Around(j, t, n) == r then 1 else 0
  {
    hide Around;
    if len > 0 {
      VisitsShift(j, t, len - 1, n, r);
      assert t + 1 + len - 1 == t + len;
    }
  }

  lemma {:induction false} VisitsFromZero(len: nat, n: nat, r: nat)
    requires len <= n && r < n
    ensures Visits(0, 0, len, n, r) == if r < len then 1 else 0
  {
    if len > 0 {
      VisitsFromZero(len - 1, n, r);
      ModSmall(len - 1, n);
    }
  }

  lemma AroundPeriod(j: nat, t: nat, n: nat)
    requires n >= 1
    ensures Around(j, t + n, n) == Around(j, t, n)
  {
    SmoothVectors.ModUnique(j + t + n, n, (j + t) / n + 1, (j + t) % n);
  }

  lemma {:induction false} VisitsMoveStart(j: nat, t: nat, len: nat, n: nat, r: nat)
    requires n >= 1
    ensures Visits(j, t, len, n, r) == Visits(0, j + t, len, n, r)
  {
    if len > 0 { VisitsMoveStart(j, t, len - 1, n, r); }
  }

  lemma {:induction false} OneVisitFrom(t: nat, n: nat, r: nat)
    requires r < n
    ensures Visits(0, t, n, n, r) == 1
  {
    hide Around, Visits;
    if t == 0 {
      VisitsFromZero(n, n, r);
    } else {
      OneVisitFrom(t - 1, n, r);
      VisitsShift(0, t - 1, n, n, r);
      VisitsLast(0, t - 1, n, n, r);
      AroundPeriod(0, t - 1, n);
    }
  }

  lemma VisitsLast(j: nat, t: nat, len: nat, n: nat, r: nat)
    requires n >= 1
    ensures Visits(j, t, len + 1, n, r) == Visits(j, t, len, n, r) + if Around(j, t + len, n) == r then 1 else 0
  {
    hide Around;
  }

  lemma {:induction false} PickedAsVisits(current: nat, alive: seq<bool>, j: nat, i: nat, t: nat, len: nat)
    requires |alive| <= MAX_LEN && j < |AliveAt(alive)| && i < |AliveAt(alive)|
    requires PickAt(current, alive, 0) == Some(AliveAt(alive)[j])
    ensures TimesPicked(current, alive, AliveAt(alive)[i], t, t + len) == Visits(j, t, len, |AliveAt(alive)|, i)
  {
    hide PickAt, Around, AliveAt;
    if len > 0 {
      PickedAsVisits(current, alive, j, i, t, len - 1);
      CyclesFrom(current, alive, j, t + len - 1);
    }
  }

  /** With k backends alive, every k consecutive calls return each of them exactly once. */
  lemma Fairness(current: nat, alive: seq<bool>, p: nat, t: nat)
    requires |alive| <= MAX_LEN && p < |alive| && alive[p]
    ensures TimesPicked(current, alive, p, t, t + |AliveAt(alive)|) == 1
  {
    hide PickAt, TimesPicked, Visits, AliveAt;
    var l := AliveAt(alive);
    var j := FirstPick(current, alive, p);
    assert p in l;
    var i :| 0 <= i < |l| && l[i] == p;
    PickedAsVisits(current, alive, j, i, t, |l|);
    VisitsMoveStart(j, t, |l|, |l|, i);
    OneVisitFrom(j + t, |l|, i);
  }

  /** While every backend is dead the counter keeps counting and wraps round at 2^64. */
  lemma {:induction false} DeadCallsCount(current: nat, alive: seq<bool>, t: nat)
    requires current < WORD && alive != [] && forall p :: 0 <= p < |alive| ==> !alive[p]
    ensures Run(current, alive, t) == Around(current, t, WORD)
  {
    hide Step, Around;
    if t == 0 {
      AroundZero(current, WORD);
    } else {
      DeadCallsCount(current, alive, t - 1);
      DeadStep(Around(current, t - 1, WORD), alive);
      AroundSuccessor(current, t - 1, WORD);
    }
  }

  /** After any number of calls that found nobody alive, the scan starts where the wrapped 64-bit counter says. */
  lemma EntryAfterDead(current: nat, alive: seq<bool>, t: nat, n: nat)
    requires current < WORD && alive != [] && n >= 1 && forall p :: 0 <= p < |alive| ==> !alive[p]
    ensures Entry(Run(current, alive, t), n) == (current + t + 1) % 0x1_0000_0000_0000_0000 % n
  {
    hide Run;
    DeadCallsCount(current, alive, t);
    AroundSuccessor(current, t, WORD);
    ModSmall(Around(current, t, WORD) + 1, WORD);
    assert Bumped(Around(current, t, WORD)) == Around(current, t + 1, WORD);
  }

  /** A call without backends finds nobody and leaves the counter alone. */
  lemma EmptyCall(current: nat, t: nat)
    ensures Run(current, [], t) == current && PickAt(current, [], t) == None
  {
    if t > 0 { EmptyCall(current, t - 1); }
  }

  lemma DeadStep(current: nat, alive: seq<bool>)
    requires current < WORD && alive != [] && forall p :: 0 <= p < |alive| ==> !alive[p]
    ensures Step(current, alive) == (if current + 1 == WORD then 0 else current + 1, None)
  {
    NilOnlyWhenNoneAlive(current, alive);
    ModSmall(current + 1, WORD);
  }
}

/** Equal weights make smooth weighted round-robin the plain round-robin. */
module RoundRobinAgreement {
  import opened Common
  import R = RoundRobin
  import W = WeightedRoundRobin
  import SmoothVectors

  lemma {:induction false} AllAliveKept(cs: seq<W.Candidate>)
    requires forall c :: c in cs ==> c.alive
    ensures W.AliveOnly(cs) == cs
  {
    if cs != [] {
      forall c | c in cs[..|cs| - 1] ensures c.alive { assert c in cs; }
      AllAliveKept(cs[..|cs| - 1]);
      assert cs[|cs| - 1] in cs;
    }
  }

  lemma WeightedCycles(m: map<string, int>, cs: seq<W.Candidate>, w: int, t: nat)
    requires cs != [] && W.Distinct(cs) && W.Fresh(m, cs)
    requires forall c :: c in cs ==> c.alive && W.Effective(c) == w
    ensures W.PickedUrl(m, cs, t) == Some(cs[t % |cs|].url)
  {
    hide W.PickedUrl, W.AliveOnly, W.ValuesOf, W.WeightsOf, W.Calls, SmoothVectors.Run, SmoothVectors.PickAt;
    AllAliveKept(cs);
    W.FreshVectors(m, cs);
    W.CallsAreRun(m, cs, t);
    assert cs[0] in cs;
    SmoothVectors.EqualWeightsCycle(W.ValuesOf(m, cs), W.WeightsOf(cs), w, t);
  }

  lemma {:induction false} EveryPosition(alive: seq<bool>)
    requires forall p :: 0 <= p < |alive| ==> alive[p]
    ensures |R.AliveAt(alive)| == |alive| && forall i :: 0 <= i < |alive| ==> R.AliveAt(alive)[i] == i
  {
    if alive != [] { EveryPosition(alive[..|alive| - 1]); }
  }

  lemma AllAliveFirst(current: nat, alive: seq<bool>)
    requires alive != [] && forall p :: 0 <= p < |alive| ==> alive[p]
    ensures R.PickAt(current, alive, 0) == Some(R.Entry(current, |alive|))
  {
    hide R.Entry;
    R.StepReturns(current, alive, R.Entry(current, |alive|));
  }

  /**
    With all backends alive and equally weighted, the weighted algorithm started afresh returns the backends
    in list order, and from its call number `Entry` on it returns the very sequence round-robin returns.
   */
  lemma SameSequence(m: map<string, int>, cs: seq<W.Candidate>, w: int, current: nat, alive: seq<bool>, t: nat)
    requires 1 <= |cs| == |alive| <= R.MAX_LEN && W.Distinct(cs) && W.Fresh(m, cs)
    requires forall c :: c in cs ==> c.alive && W.Effective(c) == w
    requires forall p :: 0 <= p < |alive| ==> alive[p]
    ensures W.PickedUrl(m, cs, t) == Some(cs[t % |cs|].url)
    ensures R.PickAt(current, alive, t).Some?
    ensures W.PickedUrl(m, cs, R.Entry(current, |cs|) + t) == Some(cs[R.PickAt(current, alive, t).value].url)
  {
    hide W.PickedUrl, R.Entry, R.PickAt, R.AliveAt, R.Step, R.Distance;
    var r := R.Entry(current, |cs|);
    WeightedCycles(m, cs, w, t);
    WeightedCycles(m, cs, w, r + t);
    EveryPosition(alive);
    AllAliveFirst(current, alive);
    R.CyclesFrom(current, alive, r, t);
  }
}
