/** Hot reload as diff and patch (internal/reload/reload.go, cmd/golb/main.go). */
module Reload {
  import opened Common
  import opened Pool

  datatype BackendConfig = BackendConfig(url: string, weight: int)

  datatype HealthCheck = HealthCheck(path: string, interval: real, timeout: real, unhealthy: int, healthy: int)

  datatype TLS = TLS(enabled: bool, certFile: string, keyFile: string, minVersion: string)

  datatype Config = Config(backends: seq<BackendConfig>, algorithm: string, health: HealthCheck, tls: TLS)

  datatype Diff = Diff(
    added: seq<BackendConfig>,
    removed: seq<string>,
    changed: seq<BackendConfig>,
    newAlgorithm: Option<string>,
    newHealth: Option<HealthCheck>,
    tlsChanged: bool)
  {
    /** No actionable change. */
    predicate Empty() {
      added == [] && removed == [] && changed == [] && newAlgorithm.None? && newHealth.None? && !tlsChanged
    }
  }

  /** What parsing a backend URL yields. */
  datatype Parsed = Unparsable | Parsed(scheme: string, host: string)

  datatype Error =
    | InvalidURL(url: string)
    | SchemeNotHttp(url: string)
    | NoHost(url: string)
    | UnknownAlgorithm(name: string)

  // ----- the last entry of a URL decides

  /** The weights a list of entries stands for when it is read into a map: the last entry of a URL counts. */
  function LastWeights(bcs: seq<BackendConfig>): map<string, int> {
    if bcs == [] then map[]
    else LastWeights(bcs[..|bcs| - 1])[bcs[|bcs| - 1].url := bcs[|bcs| - 1].weight]
  }

  /** The weights a list of entries stands for when each is registered in turn: the first entry of a URL counts. */
  function FirstWeights(m: map<string, int>, bcs: seq<BackendConfig>): map<string, int> {
    if bcs == [] then m
    else
      var w, b := FirstWeights(m, bcs[..|bcs| - 1]), bcs[|bcs| - 1];
      if b.url in w then w else w[b.url := b.weight]
  }

  ghost predicate DistinctUrls(bcs: seq<BackendConfig>) {
    forall i, j :: 0 <= i < j < |bcs| ==> bcs[i].url != bcs[j].url
  }

  /** The entries of `m` that satisfy `keep`, once each and in any order. */
  ghost predicate Lists(bcs: seq<BackendConfig>, m: map<string, int>, keep: set<string>) {
    && DistinctUrls(bcs)
    && (forall i :: 0 <= i < |bcs| ==> bcs[i].url in m && bcs[i].url in keep && m[bcs[i].url] == bcs[i].weight)
    && (forall u :: u in m && u in keep ==> exists i :: 0 <= i < |bcs| && bcs[i].url == u)
  }

  function AddedUrls(o: map<string, int>, n: map<string, int>): set<string> {
    n.Keys - o.Keys
  }

  function ChangedUrls(o: map<string, int>, n: map<string, int>): set<string> {
    set u | u in n && u in o && o[u] != n[u]
  }

  /** `d` is what separates two configurations, in one of the orders in which a map can be visited. */
  ghost predicate IsDiff(old_: Config, new_: Config, d: Diff) {
    var o, n := LastWeights(old_.backends), LastWeights(new_.backends);
    && Lists(d.added, n, AddedUrls(o, n))
    && Lists(d.changed, n, ChangedUrls(o, n))
    && (forall u :: u in d.removed <==> u in o.Keys - n.Keys)
    && (forall i, j :: 0 <= i < j < |d.removed| ==> d.removed[i] != d.removed[j])
    && d.newAlgorithm == (if old_.algorithm != new_.algorithm then Some(new_.algorithm) else None)
    && d.newHealth == (if old_.health != new_.health then Some(new_.health) else None)
    && (d.tlsChanged <==> old_.tls != new_.tls)
  }

  method ReadWeights(bcs: seq<BackendConfig>) returns (m: map<string, int>)
    ensures m == LastWeights(bcs)
  {
    m := map[];
    for i := 0 to |bcs|
      invariant m == LastWeights(bcs[..i])
    {
      assert bcs[..i + 1][..i] == bcs[..i];
      m := m[bcs[i].url := bcs[i].weight];
    }
    assert bcs[..|bcs|] == bcs;
  }

  method ComputeDiff(old_: Config, new_: Config) returns (d: Diff)
    ensures IsDiff(old_, new_, d)
  {
    var oldBackends := ReadWeights(old_.backends);
    var newBackends := ReadWeights(new_.backends);
    var added, changed := Separate(oldBackends, newBackends);

    var removed := Missing(oldBackends, newBackends);
    var newAlgorithm := if old_.algorithm != new_.algorithm then Some(new_.algorithm) else None;
    var newHealth := if old_.health != new_.health then Some(new_.health) else None;
    d := Diff(added, removed, changed, newAlgorithm, newHealth, old_.tls != new_.tls);
  }

  /** The URLs of the old map that the new one lacks, met in any order of the old map. */
  method Missing(o: map<string, int>, n: map<string, int>) returns (removed: seq<string>)
    ensures forall u :: u in removed <==> u in o.Keys - n.Keys
    ensures forall i, j :: 0 <= i < j < |removed| ==> removed[i] != removed[j]
  {
    removed := [];
    var todo := o.Keys;
    while todo != {}
      invariant todo <= o.Keys
      invariant forall u :: u in removed <==> u in o.Keys - n.Keys - todo
      invariant forall i, j :: 0 <= i < j < |removed| ==> removed[i] != removed[j]
    {
      var u :| u in todo;
      if u !in n {
        assert u !in removed;
        assert forall i :: 0 <= i < |removed| ==> removed[i] in removed;
        removed := removed + [u];
      }
      todo := todo - {u};
    }
  }

  /** The added and the reweighted entries, met in any order of the new map. */
  method Separate(o: map<string, int>, n: map<string, int>)
    returns (added: seq<BackendConfig>, changed: seq<BackendConfig>)
    ensures Lists(added, n, AddedUrls(o, n)) && Lists(changed, n, ChangedUrls(o, n))
  {
    added, changed := [], [];
    var todo := n.Keys;
    while todo != {}
      invariant todo <= n.Keys
      invariant Lists(added, n, AddedUrls(o, n) - todo)
      invariant Lists(changed, n, ChangedUrls(o, n) - todo)
    {
      hide Lists;
      var u :| u in todo;
      if u !in o {
        ListsExtend(added, n, AddedUrls(o, n) - todo, u);
        added := added + [BackendConfig(u, n[u])];
        assert AddedUrls(o, n) - todo + {u} == AddedUrls(o, n) - (todo - {u});
        assert ChangedUrls(o, n) - todo == ChangedUrls(o, n) - (todo - {u});
      } else if o[u] != n[u] {
        ListsExtend(changed, n, ChangedUrls(o, n) - todo, u);
        changed := changed + [BackendConfig(u, n[u])];
        assert ChangedUrls(o, n) - todo + {u} == ChangedUrls(o, n) - (todo - {u});
        assert AddedUrls(o, n) - todo == AddedUrls(o, n) - (todo - {u});
      } else {
        assert ChangedUrls(o, n) - todo == ChangedUrls(o, n) - (todo - {u});
        assert AddedUrls(o, n) - todo == AddedUrls(o, n) - (todo - {u});
      }
      todo := todo - {u};
    }
    assert AddedUrls(o, n) - {} == AddedUrls(o, n) && ChangedUrls(o, n) - {} == ChangedUrls(o, n);
  }

  lemma ListsExtend(bcs: seq<BackendConfig>, m: map<string, int>, keep: set<string>, u: string)
    requires Lists(bcs, m, keep) && u in m && u !in keep
    ensures Lists(bcs + [BackendConfig(u, m[u])], m, keep + {u})
  {
    var bcs' := bcs + [BackendConfig(u, m[u])];
    forall v | v in m && v in keep + {u} ensures exists i :: 0 <= i < |bcs'| && bcs'[i].url == v {
      if v == u {
        assert bcs'[|bcs|].url == v;
      } else {
        var i :| 0 <= i < |bcs| && bcs[i].url == v;
        assert bcs'[i].url == v;
      }
    }
  }

  // ----- applying a diff, on weights

  function Keys(bcs: seq<BackendConfig>): set<string> {
    set i | 0 <= i < |bcs| :: bcs[i].url
  }

  /** The weights after setting, in turn, the weight of every listed URL that is present. */
  function Reweighted(m: map<string, int>, bcs: seq<BackendConfig>): map<string, int> {
    if bcs == [] then m
    else
      var w, b := Reweighted(m, bcs[..|bcs| - 1]), bcs[|bcs| - 1];
      if b.url in w then w[b.url := b.weight] else w
  }

  /** What applying a diff does to the weights of a pool. */
  function Patched(m: map<string, int>, d: Diff): map<string, int> {
    Reweighted(FirstWeights(m, d.added) - Names(d.removed), d.changed)
  }

  lemma {:induction false} FirstWeightsAt(m: map<string, int>, bcs: seq<BackendConfig>, u: string)
    requires DistinctUrls(bcs)
    ensures u in FirstWeights(m, bcs) <==> u in m || u in Keys(bcs)
    ensures u in m ==> FirstWeights(m, bcs)[u] == m[u]
    ensures forall i :: 0 <= i < |bcs| && bcs[i].url == u && u !in m ==> FirstWeights(m, bcs)[u] == bcs[i].weight
  {
    if bcs != [] {
      FirstWeightsAt(m, bcs[..|bcs| - 1], u);
      KeysLast(bcs);
    }
  }

  lemma KeysLast(bcs: seq<BackendConfig>)
    requires bcs != []
    ensures Keys(bcs) == Keys(bcs[..|bcs| - 1]) + {bcs[|bcs| - 1].url}
  {
    forall u | u in Keys(bcs[..|bcs| - 1]) ensures u in Keys(bcs) {
      var i :| 0 <= i < |bcs| - 1 && bcs[..|bcs| - 1][i].url == u;
      assert bcs[i].url == u;
    }
  }

  lemma {:induction false} ReweightedAt(m: map<string, int>, bcs: seq<BackendConfig>, u: string)
    requires DistinctUrls(bcs)
    ensures u in Reweighted(m, bcs) <==> u in m
    ensures u in m && u !in Keys(bcs) ==> Reweighted(m, bcs)[u] == m[u]
    ensures forall i :: 0 <= i < |bcs| && bcs[i].url == u && u in m ==> Reweighted(m, bcs)[u] == bcs[i].weight
  {
    if bcs != [] {
      ReweightedAt(m, bcs[..|bcs| - 1], u);
      KeysLast(bcs);
    }
  }

  lemma ListsKeys(bcs: seq<BackendConfig>, m: map<string, int>, keep: set<string>)
    requires Lists(bcs, m, keep) && keep <= m.Keys
    ensures Keys(bcs) == keep
  {
  }

  lemma ListsAt(bcs: seq<BackendConfig>, m: map<string, int>, keep: set<string>, u: string) returns (i: nat)
    requires Lists(bcs, m, keep) && u in m && u in keep
    ensures i < |bcs| && bcs[i].url == u && bcs[i].weight == m[u]
  {
    i :| 0 <= i < |bcs| && bcs[i].url == u;
  }

  /** The weight a pool ends up with for one URL, whatever else it held. */
  function Expected(m: map<string, int>, o: map<string, int>, n: map<string, int>, u: string): Option<int> {
    if u in n then
      if u in o then
        if u !in m then None else Some(if o[u] != n[u] then n[u] else m[u])
      else Some(if u in m then m[u] else n[u])
    else if u in o then None
    else if u in m then Some(m[u]) else None
  }

  /** Patching any pool with the diff, in any order of it, acts URL by URL as expected. */
  lemma PatchPointwise(m: map<string, int>, old_: Config, new_: Config, d: Diff, u: string)
    requires IsDiff(old_, new_, d)
    ensures var p := Patched(m, d);
      (if u in p then Some(p[u]) else None)
      == Expected(m, LastWeights(old_.backends), LastWeights(new_.backends), u)
  {
    hide LastWeights, FirstWeights, Reweighted, Keys, Lists, DistinctUrls;
    var o, n := LastWeights(old_.backends), LastWeights(new_.backends);
    DiffLists(old_, new_, d);
    FirstWeightsAt(m, d.added, u);
    var a := FirstWeights(m, d.added) - Names(d.removed);
    ReweightedAt(a, d.changed, u);
    ListsKeys(d.added, n, AddedUrls(o, n));
    ListsKeys(d.changed, n, ChangedUrls(o, n));
    if u in AddedUrls(o, n) {
      var i := ListsAt(d.added, n, AddedUrls(o, n), u);
    }
    if u in ChangedUrls(o, n) {
      var i := ListsAt(d.changed, n, ChangedUrls(o, n), u);
    }
  }

  lemma DiffLists(old_: Config, new_: Config, d: Diff)
    requires IsDiff(old_, new_, d)
    ensures var o, n := LastWeights(old_.backends), LastWeights(new_.backends);
      && Lists(d.added, n, AddedUrls(o, n)) && Lists(d.changed, n, ChangedUrls(o, n))
    ensures DistinctUrls(d.added) && DistinctUrls(d.changed)
  {
    hide LastWeights, DistinctUrls;
  }

  /** A pool that holds the old configuration holds the new one after the patch, whatever the order. */
  lemma RoundTrip(old_: Config, new_: Config, d: Diff)
    requires IsDiff(old_, new_, d)
    ensures Patched(LastWeights(old_.backends), d) == LastWeights(new_.backends)
  {
    hide LastWeights, Patched, IsDiff;
    var o, n := LastWeights(old_.backends), LastWeights(new_.backends);
    forall u ensures u in Patched(o, d) <==> u in n {
      PatchPointwise(o, old_, new_, d, u);
    }
    forall u | u in n ensures Patched(o, d)[u] == n[u] {
      PatchPointwise(o, old_, new_, d, u);
    }
  }

  /** A diff is empty exactly when nothing it looks at differs. */
  lemma EmptyDiffExactly(old_: Config, new_: Config, d: Diff)
    requires IsDiff(old_, new_, d)
    ensures d.Empty() <==>
      && LastWeights(old_.backends) == LastWeights(new_.backends)
      && old_.algorithm == new_.algorithm && old_.health == new_.health && old_.tls == new_.tls
  {
    hide LastWeights;
    var o, n := LastWeights(old_.backends), LastWeights(new_.backends);
    if d.Empty() {
      RoundTrip(old_, new_, d);
    } else if o == n {
      ListsHead(d.added, n, AddedUrls(o, n));
      ListsHead(d.changed, n, ChangedUrls(o, n));
      InHead(d.removed);
    }
  }

  lemma ListsHead(bcs: seq<BackendConfig>, m: map<string, int>, keep: set<string>)
    requires Lists(bcs, m, keep)
    ensures bcs != [] ==> bcs[0].url in keep && bcs[0].url in m
  {
  }

  lemma InHead(s: seq<string>)
    ensures s != [] ==> s[0] in s
  {
  }

  /** The position of the first entry of a URL. */
  function FirstEntry(bcs: seq<BackendConfig>, u: string): (i: nat)
    requires u in Keys(bcs)
    ensures i < |bcs| && bcs[i].url == u && forall j :: 0 <= j < i ==> bcs[j].url != u
  {
    KeysLast(bcs);
    if u in Keys(bcs[..|bcs| - 1]) then FirstEntry(bcs[..|bcs| - 1], u) else |bcs| - 1
  }

  /** The position of the last entry of a URL. */
  function LastEntry(bcs: seq<BackendConfig>, u: string): (i: nat)
    requires u in Keys(bcs)
    ensures i < |bcs| && bcs[i].url == u && forall j :: i < j < |bcs| ==> bcs[j].url != u
  {
    KeysLast(bcs);
    if bcs[|bcs| - 1].url == u then |bcs| - 1 else LastEntry(bcs[..|bcs| - 1], u)
  }

  lemma {:induction false} ExtremeWeights(bcs: seq<BackendConfig>, u: string)
    ensures u in LastWeights(bcs) <==> u in Keys(bcs)
    ensures u in FirstWeights(map[], bcs) <==> u in Keys(bcs)
    ensures u in Keys(bcs) ==>
      && LastWeights(bcs)[u] == bcs[LastEntry(bcs, u)].weight
      && FirstWeights(map[], bcs)[u] == bcs[FirstEntry(bcs, u)].weight
  {
    if bcs != [] {
      ExtremeWeights(bcs[..|bcs| - 1], u);
      KeysLast(bcs);
    }
  }

  /**
    Startup keeps the first entry of a URL and a reload the last: a started pool holds what reloading compares
    against exactly when the first and the last entry of every URL carry the same weight.
   */
  lemma StartupMatchesExactly(bcs: seq<BackendConfig>)
    ensures FirstWeights(map[], bcs) == LastWeights(bcs) <==>
      forall u :: u in Keys(bcs) ==> bcs[FirstEntry(bcs, u)].weight == bcs[LastEntry(bcs, u)].weight
  {
    hide Keys, FirstWeights, LastWeights, FirstEntry, LastEntry;
    forall u
      ensures u in LastWeights(bcs) <==> u in Keys(bcs)
      ensures u in FirstWeights(map[], bcs) <==> u in Keys(bcs)
      ensures u in Keys(bcs) ==>
        && LastWeights(bcs)[u] == bcs[LastEntry(bcs, u)].weight
        && FirstWeights(map[], bcs)[u] == bcs[FirstEntry(bcs, u)].weight
    {
      ExtremeWeights(bcs, u);
    }
    if forall u :: u in Keys(bcs) ==> bcs[FirstEntry(bcs, u)].weight == bcs[LastEntry(bcs, u)].weight {
      assert FirstWeights(map[], bcs).Keys == LastWeights(bcs).Keys;
    }
  }

  /** One URL listed twice with different weights: startup takes the first weight, the diff the second. */
  lemma DuplicatesDiffer(url: string, first: int, last: int)
    requires first != last
    ensures var bcs := [BackendConfig(url, first), BackendConfig(url, last)];
      FirstWeights(map[], bcs) == map[url := first] && LastWeights(bcs) == map[url := last]
      && FirstWeights(map[], bcs) != LastWeights(bcs)
  {
    var one := [BackendConfig(url, first)];
    var bcs := [BackendConfig(url, first), BackendConfig(url, last)];
    assert one[..0] == [];
    assert bcs[..1] == one;
    assert LastWeights(one) == map[url := first];
    assert FirstWeights(map[], one) == map[url := first];
    assert LastWeights(bcs) == map[url := last];
    assert map[url := first][url] != map[url := last][url];
  }
}
