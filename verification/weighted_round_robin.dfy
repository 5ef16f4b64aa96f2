/**
  Smooth weighted round-robin (internal/algo/weighted_round_robin.go).

  `Step` is one selection as a function of the running values and of a snapshot of the backends it is
  given; the class updates its map in place and is proved to perform exactly that step.
 */
module WeightedRoundRobin {
  import opened Common
  import opened Backends
  import V = SmoothVectors

  /** What a selection reads of a backend. */
  datatype Candidate = Candidate(url: string, weight: int, alive: bool)

  /** A weight that is not positive counts as 1. */
  function Effective(c: Candidate): int {
    if c.weight <= 0 then 1 else c.weight
  }

  /** Reading an absent key of the map gives zero. */
  function Value(m: map<string, int>, url: string): (v: int)
    ensures url !in m ==> v == 0
  {
    if url in m then m[url] else 0
  }

  function Urls(cs: seq<Candidate>): set<string> {
    set c | c in cs :: c.url
  }

  ghost predicate Distinct(cs: seq<Candidate>) {
    forall i, j :: 0 <= i < j < |cs| ==> cs[i].url != cs[j].url
  }

  function Pruned(m: map<string, int>, cs: seq<Candidate>): map<string, int> {
    map u | u in m && u in Urls(cs) :: m[u]
  }

  function Total(cs: seq<Candidate>): int {
    if cs == [] then 0
    else Total(cs[..|cs| - 1]) + if cs[|cs| - 1].alive then Effective(cs[|cs| - 1]) else 0
  }

  function Raised(m: map<string, int>, cs: seq<Candidate>): map<string, int> {
    if cs == [] then m
    else
      var r, c := Raised(m, cs[..|cs| - 1]), cs[|cs| - 1];
      if c.alive then r[c.url := Value(r, c.url) + Effective(c)] else r
  }

  /** The first alive candidate of largest value. */
  function Best(m: map<string, int>, cs: seq<Candidate>): (best: Option<nat>)
    ensures best.None? <==> forall i :: 0 <= i < |cs| ==> !cs[i].alive
    ensures best.Some? ==> best.value < |cs| && cs[best.value].alive
    ensures best.Some? ==>
      forall i :: 0 <= i < |cs| && cs[i].alive ==>
        && Value(m, cs[i].url) <= Value(m, cs[best.value].url)
        && (i < best.value ==> Value(m, cs[i].url) < Value(m, cs[best.value].url))
  {
    if cs == [] then None
    else
      var k, c := Best(m, cs[..|cs| - 1]), cs[|cs| - 1];
      if c.alive && (k.None? || Value(m, c.url) > Value(m, cs[k.value].url)) then Some(|cs| - 1) else k
  }

  /** One selection: the new running values, and the position chosen (None when no backend is alive). */
  function Step(m: map<string, int>, cs: seq<Candidate>): (map<string, int>, Option<nat>) {
    var r := Raised(Pruned(m, cs), cs);
    match Best(r, cs)
    case None => (r, None)
    case Some(k) => (r[cs[k].url := Value(r, cs[k].url) - Total(cs)], Some(k))
  }

  ghost function Snapshot(bs: seq<Backend>): (cs: seq<Candidate>)
    reads bs
    ensures |cs| == |bs|
    ensures forall i :: 0 <= i < |bs| ==> cs[i] == Candidate(bs[i].url, bs[i].weight, bs[i].alive)
  {
    if bs == [] then []
    else
      var b := bs[|bs| - 1];
      Snapshot(bs[..|bs| - 1]) + [Candidate(b.url, b.weight, b.alive)]
  }

  class Selector {
    var currentWeights: map<string, int>

    constructor ()
      ensures currentWeights == map[]
    {
      currentWeights := map[];
    }

    /** Drops the keys of backends that are no longer offered, visiting the map in any order. */
    method Prune(backends: seq<Backend>)
      modifies this
      ensures currentWeights == Pruned(old(currentWeights), Snapshot(backends))
    {
      var active: set<string> := {};
      for i := 0 to |backends|
        invariant active == set j | 0 <= j < i :: backends[j].url
        invariant currentWeights == old(currentWeights)
      {
        active := active + {backends[i].url};
      }
      assert active == Urls(Snapshot(backends)) by {
        var cs := Snapshot(backends);
        forall u | u in active ensures u in Urls(cs) {
          var j :| 0 <= j < |backends| && backends[j].url == u;
          assert cs[j] in cs;
        }
      }
      var todo := currentWeights.Keys;
      while todo != {}
        invariant todo <= old(currentWeights).Keys
        invariant currentWeights
               == map u | u in old(currentWeights) && (u in active || u in todo) :: old(currentWeights)[u]
      {
        var key :| key in todo;
        if key !in active {
          currentWeights := currentWeights - {key};
        }
        todo := todo - {key};
      }
    }

    /** Adds every alive backend's weight to its value and returns the total weight. */
    method Accumulate(backends: seq<Backend>) returns (totalWeight: int)
      modifies this
      ensures totalWeight == Total(Snapshot(backends))
      ensures currentWeights == Raised(old(currentWeights), Snapshot(backends))
    {
      ghost var cs := Snapshot(backends);
      totalWeight := 0;
      for i := 0 to |backends|
        invariant totalWeight == Total(cs[..i])
        invariant currentWeights == Raised(old(currentWeights), cs[..i])
      {
        assert cs[..i + 1][..i] == cs[..i];
        var b := backends[i];
        if b.alive {
          var weight := b.weight;
          if weight <= 0 {
            weight := 1;
          }
          totalWeight := totalWeight + weight;
          currentWeights := currentWeights[b.url := Value(currentWeights, b.url) + weight];
        }
      }
      assert cs[..|backends|] == cs;
    }

    /** Scans for the alive backend of largest value, keeping the first on ties. */
    method Choose(backends: seq<Backend>) returns (best: Backend?)
      ensures match Best(currentWeights, Snapshot(backends))
              case None => best == null
              case Some(k) => best == backends[k]
    {
      ghost var cs := Snapshot(backends);
      ghost var k := None;
      best := null;
      for i := 0 to |backends|
        invariant k == Best(currentWeights, cs[..i])
        invariant if k.None? then best == null else best == backends[k.value]
      {
        assert cs[..i + 1][..i] == cs[..i];
        var b := backends[i];
        if b.alive {
          if best == null || Value(currentWeights, b.url) > Value(currentWeights, best.url) {
            best, k := b, Some(i);
          }
        }
      }
      assert cs[..|backends|] == cs;
    }

    method Next(backends: seq<Backend>) returns (best: Backend?)
      modifies this
      ensures currentWeights == Step(old(currentWeights), Snapshot(backends)).0
      ensures match Step(old(currentWeights), Snapshot(backends)).1
              case None => best == null
              case Some(k) => best == backends[k]
    {
      hide Pruned, Raised, Total, Best, Snapshot;
      Prune(backends);
      var totalWeight := Accumulate(backends);
      best := Choose(backends);
      if best != null {
        currentWeights := currentWeights[best.url := Value(currentWeights, best.url) - totalWeight];
      }
    }
  }

  // ----- conservation, for any snapshots whatsoever

  /** The sum of all running values. */
  ghost function SumMap(m: map<string, int>): int {
    if m == map[] then 0
    else
      var u :| u in m;
      m[u] + SumMap(m - {u})
  }

  lemma {:induction false} SumMapRemove(m: map<string, int>, u: string)
    requires u in m
    ensures SumMap(m) == m[u] + SumMap(m - {u})
    decreases |m|
  {
    var p :| p in m && SumMap(m) == m[p] + SumMap(m - {p});
    if p != u {
      SumMapRemove(m - {p}, u);
      assert u in m - {p};
      SumMapRemove(m - {u}, p);
      assert m - {p} - {u} == m - {u} - {p};
    }
  }

  lemma SumMapSet(m: map<string, int>, u: string, x: int)
    ensures SumMap(m[u := x]) == SumMap(m) - Value(m, u) + x
  {
    SumMapRemove(m[u := x], u);
    assert m[u := x] - {u} == m - {u};
    if u in m {
      SumMapRemove(m, u);
    } else {
      assert m - {u} == m;
    }
  }

  lemma {:induction false} SumRaised(m: map<string, int>, cs: seq<Candidate>)
    ensures SumMap(Raised(m, cs)) == SumMap(m) + Total(cs)
  {
    if cs != [] {
      var c := cs[|cs| - 1];
      var r := Raised(m, cs[..|cs| - 1]);
      SumRaised(m, cs[..|cs| - 1]);
      SumMapSet(r, c.url, Value(r, c.url) + Effective(c));
    }
  }

  lemma {:induction false} SumSplit(m: map<string, int>, keep: set<string>)
    ensures SumMap(m) == SumMap(map u | u in m && u in keep :: m[u]) + SumMap(m - keep)
    decreases |m|
  {
    var kept := map u | u in m && u in keep :: m[u];
    if m != map[] {
      var p :| p in m;
      SumMapRemove(m, p);
      SumSplit(m - {p}, keep);
      var kept' := map u | u in m - {p} && u in keep :: (m - {p})[u];
      if p in keep {
        SumMapRemove(kept, p);
        assert kept - {p} == kept';
        assert (m - {p}) - keep == m - keep;
      } else {
        SumMapRemove(m - keep, p);
        assert kept == kept';
        assert (m - {p}) - keep == m - keep - {p};
      }
    } else {
      assert kept == map[] && m - keep == map[];
    }
  }

  lemma NoneAliveTotal(cs: seq<Candidate>)
    requires forall i :: 0 <= i < |cs| ==> !cs[i].alive
    ensures Total(cs) == 0
  {
  }

  /**
    Whatever is alive and whatever the weights, a selection changes the sum of all running values only by
    forgetting the values of the keys it prunes.
   */
  lemma Conservation(m: map<string, int>, cs: seq<Candidate>)
    ensures SumMap(Step(m, cs).0) == SumMap(m) - SumMap(m - Urls(cs))
  {
    hide SumMap, Raised, Total, Best, Urls, Value;
    var p := Pruned(m, cs);
    var r := Raised(p, cs);
    SumSplit(m, Urls(cs));
    assert p == map u | u in m && u in Urls(cs) :: m[u];
    SumRaised(p, cs);
    match Best(r, cs)
    case None => NoneAliveTotal(cs);
    case Some(k) => SumMapSet(r, cs[k].url, Value(r, cs[k].url) - Total(cs));
  }

  /** The values after a selection for each snapshot of a history. */
  function RunHistory(m: map<string, int>, history: seq<seq<Candidate>>): map<string, int> {
    if history == [] then m else Step(RunHistory(m, history[..|history| - 1]), history[|history| - 1]).0
  }

  lemma {:induction false} RaisedKeys(m: map<string, int>, cs: seq<Candidate>)
    ensures m.Keys <= Raised(m, cs).Keys <= m.Keys + Urls(cs)
  {
    if cs != [] {
      RaisedKeys(m, cs[..|cs| - 1]);
      assert cs[|cs| - 1] in cs;
      forall c | c in cs[..|cs| - 1] ensures c in cs {}
    }
  }

  lemma StepKeys(m: map<string, int>, cs: seq<Candidate>)
    ensures Step(m, cs).0.Keys <= Urls(cs)
  {
    var r := Raised(Pruned(m, cs), cs);
    RaisedKeys(Pruned(m, cs), cs);
    var k := Best(r, cs);
    if k.Some? { assert cs[k.value] in cs; }
  }

  /** From a fresh map the sum stays zero while no snapshot drops a URL of the one before it. */
  lemma {:induction false} HistoryKeepsZeroSum(history: seq<seq<Candidate>>)
    requires forall i :: 0 < i < |history| ==> Urls(history[i - 1]) <= Urls(history[i])
    ensures SumMap(RunHistory(map[], history)) == 0
  {
    if history != [] {
      var n := |history| - 1;
      var m := RunHistory(map[], history[..n]);
      HistoryKeepsZeroSum(history[..n]);
      Conservation(m, history[n]);
      assert m - Urls(history[n]) == map[] by {
        if n > 0 {
          assert history[..n][n - 1] == history[n - 1];
          StepKeys(RunHistory(map[], history[..n][..n - 1]), history[n - 1]);
        }
      }
    }
  }

  // ----- a fixed list of backends: the run is the run of its alive backends' vectors

  function AliveOnly(cs: seq<Candidate>): (as_: seq<Candidate>)
    ensures forall i :: 0 <= i < |as_| ==> as_[i].alive && as_[i] in cs
  {
    if cs == [] then []
    else AliveOnly(cs[..|cs| - 1]) + if cs[|cs| - 1].alive then [cs[|cs| - 1]] else []
  }

  function WeightsOf(cs: seq<Candidate>): (w: seq<int>)
    ensures |w| == |cs| && forall i :: 0 <= i < |cs| ==> w[i] == Effective(cs[i])
  {
    if cs == [] then [] else WeightsOf(cs[..|cs| - 1]) + [Effective(cs[|cs| - 1])]
  }

  function ValuesOf(m: map<string, int>, cs: seq<Candidate>): (v: seq<int>)
    ensures |v| == |cs| && forall i :: 0 <= i < |cs| ==> v[i] == Value(m, cs[i].url)
  {
    if cs == [] then [] else ValuesOf(m, cs[..|cs| - 1]) + [Value(m, cs[|cs| - 1].url)]
  }

  lemma {:induction false} AliveDistinct(cs: seq<Candidate>)
    requires Distinct(cs)
    ensures Distinct(AliveOnly(cs))
  {
    if cs != [] {
      var front, c := cs[..|cs| - 1], cs[|cs| - 1];
      AliveDistinct(front);
      forall i | 0 <= i < |AliveOnly(front)| ensures AliveOnly(front)[i].url != c.url {
        assert AliveOnly(front)[i] in front;
      }
    }
  }

  lemma {:induction false} AliveMember(cs: seq<Candidate>, c: Candidate)
    requires c in cs && c.alive
    ensures c in AliveOnly(cs)
  {
    if c != cs[|cs| - 1] {
      assert c in cs[..|cs| - 1];
      AliveMember(cs[..|cs| - 1], c);
    }
  }

  lemma {:induction false} TotalIsSum(cs: seq<Candidate>)
    ensures Total(cs) == V.Sum(WeightsOf(AliveOnly(cs)))
  {
    if cs != [] {
      var front, c := cs[..|cs| - 1], cs[|cs| - 1];
      TotalIsSum(front);
      if c.alive {
        var as_ := AliveOnly(front);
        assert (as_ + [c])[..|as_|] == as_;
        SumAppend(WeightsOf(as_), Effective(c));
      } else {
        assert AliveOnly(cs) == AliveOnly(front);
      }
    }
  }

  lemma {:induction false} SumAppend(v: seq<int>, x: int)
    ensures V.Sum(v + [x]) == V.Sum(v) + x
  {
    if v != [] {
      assert (v + [x])[1..] == v[1..] + [x];
      SumAppend(v[1..], x);
    }
  }

  lemma {:induction false} RaisedAt(m: map<string, int>, cs: seq<Candidate>, url: string)
    requires Distinct(cs)
    ensures forall i :: 0 <= i < |cs| && cs[i].url == url ==>
      Value(Raised(m, cs), url) == Value(m, url) + if cs[i].alive then Effective(cs[i]) else 0
    ensures url !in Urls(cs) ==> Value(Raised(m, cs), url) == Value(m, url)
  {
    if cs != [] {
      var front, c := cs[..|cs| - 1], cs[|cs| - 1];
      RaisedAt(m, front, url);
      assert c in cs;
      if c.url == url {
        assert url !in Urls(front);
      } else if url !in Urls(cs) {
        forall d | d in front ensures d in cs {}
        assert url !in Urls(front);
      }
    }
  }

  lemma FirstMaxAppend(m: map<string, int>, as_: seq<Candidate>, c: Candidate)
    ensures V.FirstMax(ValuesOf(m, as_ + [c])) ==
      if as_ == [] || Value(m, c.url) > Value(m, as_[V.FirstMax(ValuesOf(m, as_))].url) then |as_|
      else V.FirstMax(ValuesOf(m, as_))
  {
    assert (as_ + [c])[..|as_|] == as_;
    var u := ValuesOf(m, as_ + [c]);
    assert u[..|u| - 1] == ValuesOf(m, as_);
  }

  lemma {:induction false} BestIsFirstMax(m: map<string, int>, cs: seq<Candidate>)
    ensures Best(m, cs).Some? <==> AliveOnly(cs) != []
    ensures AliveOnly(cs) != [] ==>
      cs[Best(m, cs).value] == AliveOnly(cs)[V.FirstMax(ValuesOf(m, AliveOnly(cs)))]
  {
    hide V.FirstMax, ValuesOf, Value;
    if cs != [] {
      var front, c := cs[..|cs| - 1], cs[|cs| - 1];
      BestIsFirstMax(m, front);
      var as_ := AliveOnly(front);
      if c.alive {
        assert AliveOnly(cs) == as_ + [c];
        FirstMaxAppend(m, as_, c);
      } else {
        assert AliveOnly(cs) == as_;
      }
    }
  }

  lemma RaisedVector(m: map<string, int>, cs: seq<Candidate>)
    requires Distinct(cs)
    ensures ValuesOf(Raised(Pruned(m, cs), cs), AliveOnly(cs))
         == V.Plus(ValuesOf(m, AliveOnly(cs)), WeightsOf(AliveOnly(cs)))
  {
    var as_ := AliveOnly(cs);
    var r := Raised(Pruned(m, cs), cs);
    forall i | 0 <= i < |as_|
      ensures Value(r, as_[i].url) == Value(m, as_[i].url) + Effective(as_[i])
    {
      RaisedAt(Pruned(m, cs), cs, as_[i].url);
      assert as_[i] in cs;
    }
  }

  /** On the alive backends a selection chooses as the vector algorithm does. */
  lemma StepPicks(m: map<string, int>, cs: seq<Candidate>)
    requires Distinct(cs) && AliveOnly(cs) != []
    ensures Step(m, cs).1.Some?
    ensures cs[Step(m, cs).1.value] == AliveOnly(cs)[V.Pick(ValuesOf(m, AliveOnly(cs)), WeightsOf(AliveOnly(cs)))]
  {
    hide AliveOnly, ValuesOf, WeightsOf, Raised, Pruned, Best, V.FirstMax, V.Plus;
    RaisedVector(m, cs);
    BestIsFirstMax(Raised(Pruned(m, cs), cs), cs);
  }

  lemma StepAt(m: map<string, int>, cs: seq<Candidate>, url: string)
    requires Step(m, cs).1.Some?
    ensures Value(Step(m, cs).0, url) == Value(Raised(Pruned(m, cs), cs), url)
      - if cs[Step(m, cs).1.value].url == url then Total(cs) else 0
  {
    hide Raised, Pruned, Total, Best;
  }

  lemma NextAt(v: seq<int>, w: seq<int>, i: nat)
    requires |v| == |w| && i < |w|
    ensures V.Next(v, w)[i] == V.Plus(v, w)[i] - if i == V.Pick(v, w) then V.Sum(w) else 0
  {
    hide V.Sum, V.Plus, V.Pick;
  }

  /** On the alive backends a selection is one step of the vector algorithm. */
  lemma StepIsNext(m: map<string, int>, cs: seq<Candidate>)
    requires Distinct(cs) && AliveOnly(cs) != []
    ensures ValuesOf(Step(m, cs).0, AliveOnly(cs))
         == V.Next(ValuesOf(m, AliveOnly(cs)), WeightsOf(AliveOnly(cs)))
  {
    hide AliveOnly, ValuesOf, WeightsOf, Raised, Pruned, Total, Step, V.Next, V.Pick, V.Sum;
    var as_ := AliveOnly(cs);
    var v, w := ValuesOf(m, as_), WeightsOf(as_);
    AliveDistinct(cs);
    RaisedVector(m, cs);
    StepPicks(m, cs);
    TotalIsSum(cs);
    var k := V.Pick(v, w);
    forall i | 0 <= i < |as_| ensures ValuesOf(Step(m, cs).0, as_)[i] == V.Next(v, w)[i] {
      StepAt(m, cs, as_[i].url);
      NextAt(v, w, i);
      assert as_[i].url == as_[k].url <==> i == k;
      assert ValuesOf(Raised(Pruned(m, cs), cs), as_)[i] == Value(Raised(Pruned(m, cs), cs), as_[i].url);
    }
  }

  /** The values after `t` selections over the same backends. */
  function Calls(m: map<string, int>, cs: seq<Candidate>, t: nat): map<string, int> {
    if t == 0 then m else Step(Calls(m, cs, t - 1), cs).0
  }

  /** The URL that selection number `t` returns. */
  function PickedUrl(m: map<string, int>, cs: seq<Candidate>, t: nat): Option<string> {
    match Step(Calls(m, cs, t), cs).1
    case None => None
    case Some(k) => Some(cs[k].url)
  }

  /** How often the selections numbered `start` up to, but not including, `end` return a URL. */
  function TimesPicked(m: map<string, int>, cs: seq<Candidate>, url: string, start: nat, end: nat): nat
    requires start <= end
    decreases end
  {
    if start == end then 0
    else TimesPicked(m, cs, url, start, end - 1) + if PickedUrl(m, cs, end - 1) == Some(url) then 1 else 0
  }

  /** A map that holds nothing, or only zeros, for the backends at hand. */
  ghost predicate Fresh(m: map<string, int>, cs: seq<Candidate>) {
    forall c :: c in cs ==> Value(m, c.url) == 0
  }

  lemma {:induction false} CallsAreRun(m: map<string, int>, cs: seq<Candidate>, t: nat)
    requires Distinct(cs) && AliveOnly(cs) != []
    ensures var as_ := AliveOnly(cs);
      var v, w := ValuesOf(m, as_), WeightsOf(as_);
      && ValuesOf(Calls(m, cs, t), as_) == V.Run(v, w, t)
      && PickedUrl(m, cs, t) == Some(as_[V.PickAt(v, w, t)].url)
  {
    hide AliveOnly, ValuesOf, WeightsOf, Step, V.Pick, V.Next;
    if t > 0 {
      CallsAreRun(m, cs, t - 1);
      StepIsNext(Calls(m, cs, t - 1), cs);
    }
    StepPicks(Calls(m, cs, t), cs);
  }

  lemma PickedUrlIs(m: map<string, int>, cs: seq<Candidate>, i: nat, t: nat)
    requires Distinct(cs) && i < |AliveOnly(cs)|
    ensures PickedUrl(m, cs, t) == Some(AliveOnly(cs)[i].url)
      <==> V.PickAt(ValuesOf(m, AliveOnly(cs)), WeightsOf(AliveOnly(cs)), t) == i
  {
    hide Calls, PickedUrl, ValuesOf, WeightsOf, AliveOnly, V.PickAt, V.Run;
    CallsAreRun(m, cs, t);
    AliveDistinct(cs);
  }

  lemma {:induction false} TimesPickedIsPicks(m: map<string, int>, cs: seq<Candidate>, i: nat, start: nat, end: nat)
    requires Distinct(cs) && i < |AliveOnly(cs)| && start <= end
    ensures var as_ := AliveOnly(cs);
      TimesPicked(m, cs, as_[i].url, start, end) == V.Picks(ValuesOf(m, as_), WeightsOf(as_), i, start, end)
    decreases end
  {
    hide Calls, PickedUrl, ValuesOf, WeightsOf, AliveOnly, V.PickAt;
    if start < end {
      TimesPickedIsPicks(m, cs, i, start, end - 1);
      PickedUrlIs(m, cs, i, end - 1);
    }
  }

  lemma FreshVectors(m: map<string, int>, cs: seq<Candidate>)
    requires Fresh(m, cs)
    ensures V.AllZero(ValuesOf(m, AliveOnly(cs)))
    ensures AliveOnly(cs) != [] ==> V.Weights(WeightsOf(AliveOnly(cs)))
  {
  }

  lemma AliveIndex(cs: seq<Candidate>, c: Candidate) returns (i: nat)
    requires c in cs && c.alive
    ensures i < |AliveOnly(cs)| && AliveOnly(cs)[i] == c
  {
    AliveMember(cs, c);
    i :| 0 <= i < |AliveOnly(cs)| && AliveOnly(cs)[i] == c;
  }

  /** The running value of an alive backend, found in the run of the vectors. */
  lemma CallsAt(m: map<string, int>, cs: seq<Candidate>, c: Candidate, t: nat) returns (i: nat)
    requires Distinct(cs) && c in cs && c.alive
    ensures i < |AliveOnly(cs)| && AliveOnly(cs)[i] == c
    ensures Value(Calls(m, cs, t), c.url) == V.Run(ValuesOf(m, AliveOnly(cs)), WeightsOf(AliveOnly(cs)), t)[i]
  {
    hide Calls, AliveOnly, ValuesOf, WeightsOf, V.Run;
    i := AliveIndex(cs, c);
    CallsAreRun(m, cs, t);
    assert ValuesOf(Calls(m, cs, t), AliveOnly(cs))[i] == Value(Calls(m, cs, t), c.url);
  }

  // ----- the promises, for the code's own map and picks

  /** In every window of W consecutive calls each alive backend is returned exactly its weight times. */
  lemma ExactProportion(m: map<string, int>, cs: seq<Candidate>, c: Candidate, t: nat)
    requires Distinct(cs) && Fresh(m, cs) && c in cs && c.alive
    ensures Total(cs) >= 1 && TimesPicked(m, cs, c.url, t, t + Total(cs)) == Effective(c)
  {
    hide TimesPicked, ValuesOf, WeightsOf, AliveOnly, Total;
    var i := AliveIndex(cs, c);
    FreshVectors(m, cs);
    TotalIsSum(cs);
    var as_ := AliveOnly(cs);
    V.ExactShare(ValuesOf(m, as_), WeightsOf(as_), i, t);
    TimesPickedIsPicks(m, cs, i, t, t + Total(cs));
  }

  /** W calls later every alive backend's running value is what it was. */
  lemma ValuesReturn(m: map<string, int>, cs: seq<Candidate>, c: Candidate, t: nat)
    requires Distinct(cs) && Fresh(m, cs) && c in cs && c.alive
    ensures Total(cs) >= 1 && Value(Calls(m, cs, t + Total(cs)), c.url) == Value(Calls(m, cs, t), c.url)
  {
    hide Calls, AliveOnly, ValuesOf, WeightsOf, Total, V.Sum, V.Run;
    FreshVectors(m, cs);
    TotalIsSum(cs);
    AliveMember(cs, c);
    V.RunPeriodic(ValuesOf(m, AliveOnly(cs)), WeightsOf(AliveOnly(cs)), t);
    var i := CallsAt(m, cs, c, t);
    var j := CallsAt(m, cs, c, t + Total(cs));
    AliveDistinct(cs);
    assert i == j;
  }

  /** A running value is exactly what the backend earned less W for each time it was returned. */
  lemma ValueIsEarnedLessPaid(m: map<string, int>, cs: seq<Candidate>, c: Candidate, t: nat)
    requires Distinct(cs) && Fresh(m, cs) && c in cs && c.alive
    ensures Value(Calls(m, cs, t), c.url) == t * Effective(c) - TimesPicked(m, cs, c.url, 0, t) * Total(cs)
  {
    hide Calls, AliveOnly, Total, TimesPicked, V.Sum, V.Picks;
    var i := CallsAt(m, cs, c, t);
    FreshVectors(m, cs);
    TotalIsSum(cs);
    var as_ := AliveOnly(cs);
    var v, w := ValuesOf(m, as_), WeightsOf(as_);
    TimesPickedIsPicks(m, cs, i, 0, t);
    V.ValueLedger(v, w, i, 0, t);
    assert V.Run(v, w, 0) == v;
  }

  /** A running value lies strictly above -W and at most at W*(1/2 + ... + 1/n). */
  lemma ValueRange(m: map<string, int>, cs: seq<Candidate>, c: Candidate, t: nat)
    requires Distinct(cs) && Fresh(m, cs) && c in cs && c.alive
    ensures -Total(cs) < Value(Calls(m, cs, t), c.url)
    ensures Value(Calls(m, cs, t), c.url) as real
         <= Total(cs) as real * (V.Harmonic(|AliveOnly(cs)|) - 1.0)
    ensures Value(Calls(m, cs, t), c.url) + Effective(c) <= |AliveOnly(cs)| * Total(cs)
  {
    hide Calls, AliveOnly, ValuesOf, WeightsOf, Total, V.Sum, V.Harmonic, V.Run;
    var i := CallsAt(m, cs, c, t);
    FreshVectors(m, cs);
    TotalIsSum(cs);
    var as_ := AliveOnly(cs);
    var v, w := ValuesOf(m, as_), WeightsOf(as_);
    V.SingleLag(v, w, i, t);
    V.MagnitudeBound(v, w, i, t);
  }

  /** The values of any k of the n alive backends sum to at most k*W*(1/(k+1) + ... + 1/n). */
  lemma SubsetLag(m: map<string, int>, cs: seq<Candidate>, mask: seq<bool>, t: nat)
    requires Distinct(cs) && Fresh(m, cs) && AliveOnly(cs) != [] && |mask| == |AliveOnly(cs)|
    ensures V.Selected(ValuesOf(Calls(m, cs, t), AliveOnly(cs)), mask) as real
         <= V.LagLimit(Total(cs), |AliveOnly(cs)|, V.Size(mask))
  {
    hide Calls, AliveOnly, Total, V.Sum, V.Selected, V.LagLimit, V.Size, V.Run;
    FreshVectors(m, cs);
    TotalIsSum(cs);
    CallsAreRun(m, cs, t);
    V.LagBound(ValuesOf(m, AliveOnly(cs)), WeightsOf(AliveOnly(cs)), t);
  }

  /** Any T consecutive calls with T*weight >= W*(1 + 1/2 + ... + 1/n) return the backend at least once. */
  lemma PickedWithin(m: map<string, int>, cs: seq<Candidate>, c: Candidate, t: nat, T: nat)
    requires Distinct(cs) && Fresh(m, cs) && c in cs && c.alive
    requires T as real * Effective(c) as real >= Total(cs) as real * V.Harmonic(|AliveOnly(cs)|)
    ensures TimesPicked(m, cs, c.url, t, t + T) >= 1
  {
    hide AliveOnly, Total, V.Sum, V.Harmonic, V.Picks, TimesPicked;
    var i := AliveIndex(cs, c);
    FreshVectors(m, cs);
    TotalIsSum(cs);
    var as_ := AliveOnly(cs);
    var v, w := ValuesOf(m, as_), WeightsOf(as_);
    TimesPickedIsPicks(m, cs, i, t, t + T);
    if V.Picks(v, w, i, t, t + T) == 0 {
      V.GapBound(v, w, i, t, T);
    }
  }

  // ----- in terms of the configured weights

  function AliveWeight(cs: seq<Candidate>): int {
    if cs == [] then 0
    else AliveWeight(cs[..|cs| - 1]) + if cs[|cs| - 1].alive then cs[|cs| - 1].weight else 0
  }

  lemma {:induction false} TotalIsAliveWeight(cs: seq<Candidate>)
    requires forall c :: c in cs && c.alive ==> c.weight >= 1
    ensures Total(cs) == AliveWeight(cs)
  {
    if cs != [] {
      assert cs[|cs| - 1] in cs;
      TotalIsAliveWeight(cs[..|cs| - 1]);
    }
  }

  /** Over any window as long as the sum of the alive weights, each backend is picked as often as its weight says. */
  lemma ShareIsWeight(m: map<string, int>, cs: seq<Candidate>, c: Candidate, t: nat)
    requires Distinct(cs) && Fresh(m, cs) && c in cs && c.alive
    requires forall b :: b in cs && b.alive ==> b.weight >= 1
    ensures AliveWeight(cs) >= 1 && TimesPicked(m, cs, c.url, t, t + AliveWeight(cs)) == c.weight
  {
    hide TimesPicked, Fresh, Distinct;
    TotalIsAliveWeight(cs);
    ExactProportion(m, cs, c, t);
  }

  /** Every weight that is not positive becomes 1. */
  function Normalized(cs: seq<Candidate>): (ns: seq<Candidate>)
    ensures |ns| == |cs|
    ensures forall i :: 0 <= i < |cs| ==> ns[i] == if cs[i].weight <= 0 then cs[i].(weight := 1) else cs[i]
  {
    if cs == [] then []
    else
      var c := cs[|cs| - 1];
      Normalized(cs[..|cs| - 1]) + [if c.weight <= 0 then c.(weight := 1) else c]
  }

  lemma NormalizedLast(cs: seq<Candidate>)
    requires cs != []
    ensures var n, ns := |cs| - 1, Normalized(cs);
      && ns != [] && ns[..|ns| - 1] == Normalized(cs[..n]) && ns[|ns| - 1].url == cs[n].url
      && ns[|ns| - 1].alive == cs[n].alive && Effective(ns[|ns| - 1]) == Effective(cs[n])
  {
  }

  lemma RaisedLast(m: map<string, int>, cs: seq<Candidate>)
    requires cs != []
    ensures var r, c := Raised(m, cs[..|cs| - 1]), cs[|cs| - 1];
      Raised(m, cs) == if c.alive then r[c.url := Value(r, c.url) + Effective(c)] else r
  {
  }

  lemma {:induction false} NormalizedRaised(m: map<string, int>, cs: seq<Candidate>)
    ensures Raised(m, Normalized(cs)) == Raised(m, cs)
  {
    if cs == [] {
      assert Normalized(cs) == cs;
    } else {
      hide Normalized, Effective, Raised, Value;
      NormalizedLast(cs);
      RaisedLast(m, cs);
      RaisedLast(m, Normalized(cs));
      NormalizedRaised(m, cs[..|cs| - 1]);
    }
  }

  lemma {:induction false} NormalizedTotal(cs: seq<Candidate>)
    ensures Total(Normalized(cs)) == Total(cs)
  {
    if cs != [] {
      hide Normalized, Effective;
      NormalizedLast(cs);
      NormalizedTotal(cs[..|cs| - 1]);
    }
  }

  /** Best looks at URLs and flags only. */
  lemma NormalizedBest(m: map<string, int>, cs: seq<Candidate>)
    ensures Best(m, Normalized(cs)) == Best(m, cs)
  {
    hide Best, Normalized;
    var a, b := Best(m, Normalized(cs)), Best(m, cs);
    if a.Some? { assert cs[a.value].alive; }
    if b.Some? { assert Normalized(cs)[b.value].alive; }
  }

  lemma NormalizedUrls(cs: seq<Candidate>)
    ensures Urls(Normalized(cs)) == Urls(cs)
  {
    forall u ensures u in Urls(Normalized(cs)) <==> u in Urls(cs) {
      if u in Urls(cs) {
        var i :| 0 <= i < |cs| && cs[i].url == u;
        assert Normalized(cs)[i] in Normalized(cs);
      }
      if u in Urls(Normalized(cs)) {
        var i :| 0 <= i < |cs| && Normalized(cs)[i].url == u;
        assert cs[i] in cs;
      }
    }
  }

  /** A weight that is not positive counts as 1: no pick and no value depends on which such weight it is. */
  lemma NormalizedStep(m: map<string, int>, cs: seq<Candidate>)
    ensures Step(m, Normalized(cs)) == Step(m, cs)
  {
    hide Raised, Total, Best, Urls;
    NormalizedUrls(cs);
    assert Pruned(m, Normalized(cs)) == Pruned(m, cs);
    NormalizedRaised(Pruned(m, cs), cs);
    NormalizedTotal(cs);
    NormalizedBest(Raised(Pruned(m, cs), cs), cs);
  }
}
