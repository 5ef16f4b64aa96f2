/** Applying a diff to the running pool, balancer and health checker, and the reload loop around it. */
module Applying {
  import opened Common
  import opened Backends
  import opened Pool
  import opened Reload
  import H = Health

  predicate KnownAlgorithm(name: string) {
    name == "round_robin" || name == "least_connections" || name == "weighted_round_robin"
  }

  /** A selection algorithm; its own state is the subject of other modules. */
  class Algorithm {
    const name: string

    constructor (name: string)
      ensures this.name == name
    {
      this.name := name;
    }
  }

  method NewAlgorithm(name: string) returns (a: Algorithm?)
    ensures a == null <==> !KnownAlgorithm(name)
    ensures a != null ==> fresh(a) && a.name == name
  {
    if KnownAlgorithm(name) {
      a := new Algorithm(name);
    } else {
      a := null;
    }
  }

  class Balancer {
    var algo: Algorithm

    constructor (algo: Algorithm)
      ensures this.algo == algo
    {
      this.algo := algo;
    }

    method SetAlgorithm(algo: Algorithm)
      modifies this
      ensures this.algo == algo
    {
      this.algo := algo;
    }
  }

  function UrlError(parse: string -> Parsed, url: string): Option<Error> {
    match parse(url)
    case Unparsable => Some(InvalidURL(url))
    case Parsed(scheme, host) =>
      if scheme != "http" && scheme != "https" then Some(SchemeNotHttp(url))
      else if host == "" then Some(NoHost(url))
      else None
  }

  /** The error of the first entry that has one. */
  function FirstUrlError(parse: string -> Parsed, bcs: seq<BackendConfig>): Option<Error> {
    if bcs == [] then None
    else if UrlError(parse, bcs[0].url).Some? then UrlError(parse, bcs[0].url)
    else FirstUrlError(parse, bcs[1..])
  }

  /** Why a diff is refused, if it is. */
  function Rejection(parse: string -> Parsed, d: Diff): Option<Error> {
    if FirstUrlError(parse, d.added).Some? then FirstUrlError(parse, d.added)
    else if d.newAlgorithm.Some? && !KnownAlgorithm(d.newAlgorithm.value) then
      Some(UnknownAlgorithm(d.newAlgorithm.value))
    else None
  }

  lemma HoldsUrls(bs: seq<Backend>, u: string)
    ensures Holds(bs, u) <==> u in Urls(bs)
  {
  }

  class Applier {
    const pool: ServerPool
    const proxy: Balancer
    const health: H.HealthChecker
    const parse: string -> Parsed

    constructor (pool: ServerPool, proxy: Balancer, health: H.HealthChecker, parse: string -> Parsed)
      ensures this.pool == pool && this.proxy == proxy && this.health == health && this.parse == parse
    {
      this.pool, this.proxy, this.health, this.parse := pool, proxy, health, parse;
    }

    /** Registers one entry as a new, alive backend, unless its URL is registered already. */
    method AddOne(bc: BackendConfig)
      requires Distinct(pool.backends)
      modifies pool
      ensures Distinct(pool.backends)
      ensures WeightsIn(pool.backends) == var w := old(WeightsIn(pool.backends));
        if bc.url in w then w else w[bc.url := bc.weight]
      ensures pool.backends == old(pool.backends)
        || exists b: Backend :: fresh(b) && b.alive && b.activeConns == 0 && pool.backends == old(pool.backends) + [b]
    {
      hide Distinct, WeightsIn, Holds, Urls;
      var b := new Backend(bc.url, bc.weight);
      b.SetAlive(true);
      HoldsUrls(pool.backends, bc.url);
      if bc.url !in WeightsIn(pool.backends) {
        WeightsAppend(pool.backends, b);
      }
      pool.AddBackend(b);
    }

    lemma WeightsAppend(bs: seq<Backend>, b: Backend)
      requires Distinct(bs) && b.url !in Urls(bs)
      ensures Distinct(bs + [b]) && WeightsIn(bs + [b]) == WeightsIn(bs)[b.url := b.weight]
    {
      assert forall i :: 0 <= i < |bs| ==> bs[i].url in Urls(bs);
      UrlsAppend(bs, b);
      WeightsEqual(bs + [b], WeightsIn(bs)[b.url := b.weight]);
    }

    lemma UrlsAppend(bs: seq<Backend>, b: Backend)
      ensures Urls(bs + [b]) == Urls(bs) + {b.url}
    {
      forall u | u in Urls(bs) + {b.url} ensures u in Urls(bs + [b]) {
        if u == b.url {
          assert (bs + [b])[|bs|].url == u;
        } else {
          var i :| 0 <= i < |bs| && bs[i].url == u;
          assert (bs + [b])[i].url == u;
        }
      }
    }

    method AddAll(bcs: seq<BackendConfig>)
      requires Distinct(pool.backends)
      modifies pool
      ensures Distinct(pool.backends)
      ensures WeightsIn(pool.backends) == FirstWeights(old(WeightsIn(pool.backends)), bcs)
      ensures old(pool.backends) <= pool.backends
      ensures forall b :: b in pool.backends && b !in old(pool.backends) ==> fresh(b) && b.alive && b.activeConns == 0
    {
      hide Distinct, WeightsIn, FirstWeights;
      ghost var w := WeightsIn(pool.backends);
      NoneRegistered(w);
      for i := 0 to |bcs|
        invariant Distinct(pool.backends)
        invariant WeightsIn(pool.backends) == FirstWeights(w, bcs[..i])
        invariant old(pool.backends) <= pool.backends
        invariant forall b :: b in pool.backends && b !in old(pool.backends) ==>
          fresh(b) && b.alive && b.activeConns == 0
      {
        FirstWeightsOn(w, bcs, i);
        AddOne(bcs[i]);
      }
      assert bcs[..|bcs|] == bcs;
    }

    /** Registers the entries of the startup configuration in turn, and stops at the first bad URL. */
    method Register(bcs: seq<BackendConfig>) returns (err: Option<Error>)
      requires pool.backends == []
      modifies pool
      ensures err == FirstUrlError(parse, bcs)
      ensures Distinct(pool.backends)
      ensures err.None? ==> WeightsIn(pool.backends) == FirstWeights(map[], bcs)
      ensures forall b :: b in pool.backends ==> fresh(b) && b.alive && b.activeConns == 0
    {
      hide UrlError, WeightsIn, Distinct, FirstWeights;
      EmptyPool(pool.backends);
      for i := 0 to |bcs|
        invariant FirstUrlError(parse, bcs) == FirstUrlError(parse, bcs[i..])
        invariant Distinct(pool.backends) && WeightsIn(pool.backends) == FirstWeights(map[], bcs[..i])
        invariant forall b :: b in pool.backends ==> fresh(b) && b.alive && b.activeConns == 0
      {
        err := UrlError(parse, bcs[i].url);
        if err.Some? {
          return;
        }
        assert bcs[i..][1..] == bcs[i + 1..];
        FirstWeightsOn(map[], bcs, i);
        AddOne(bcs[i]);
      }
      assert bcs[..|bcs|] == bcs;
      err := None;
    }

    method RemoveAll(urls: seq<string>)
      modifies pool
      ensures pool.backends == WithoutAll(old(pool.backends), urls)
    {
      for i := 0 to |urls|
        invariant pool.backends == WithoutAll(old(pool.backends), urls[..i])
      {
        assert urls[..i + 1][..i] == urls[..i];
        var found := pool.Remove(urls[i]);
      }
      assert urls[..|urls|] == urls;
    }

    /** The registered backends by URL. */
    method ByURL() returns (m: map<string, Backend>)
      requires Distinct(pool.backends)
      ensures m.Keys == Urls(pool.backends)
      ensures forall u :: u in m ==> m[u] in pool.backends && m[u].url == u
    {
      var bs := pool.Snapshot();
      m := map[];
      for i := 0 to |bs|
        invariant m.Keys == Urls(bs[..i])
        invariant forall u :: u in m ==> m[u] in bs && m[u].url == u
      {
        UrlsAppend(bs[..i], bs[i]);
        assert bs[..i + 1] == bs[..i] + [bs[i]];
        m := m[bs[i].url := bs[i]];
      }
      assert bs[..|bs|] == bs;
    }

    method SetOne(b: Backend, weight: int)
      requires Distinct(pool.backends) && b in pool.backends
      modifies b`weight
      ensures WeightsIn(pool.backends) == old(WeightsIn(pool.backends))[b.url := weight]
    {
      ghost var w := WeightsIn(pool.backends);
      b.SetWeight(weight);
      ghost var j :| 0 <= j < |pool.backends| && pool.backends[j] == b;
      assert b.url in Urls(pool.backends);
      WeightsEqual(pool.backends, w[b.url := weight]);
    }

    method ReweightAll(bcs: seq<BackendConfig>)
      requires Distinct(pool.backends)
      modifies (set b | b in pool.backends)`weight
      ensures WeightsIn(pool.backends) == Reweighted(old(WeightsIn(pool.backends)), bcs)
    {
      ghost var w := WeightsIn(pool.backends);
      var byURL := ByURL();
      for i := 0 to |bcs|
        invariant WeightsIn(pool.backends) == Reweighted(w, bcs[..i])
      {
        assert bcs[..i + 1][..i] == bcs[..i];
        if bcs[i].url in byURL {
          SetOne(byURL[bcs[i].url], bcs[i].weight);
        }
      }
      assert bcs[..|bcs|] == bcs;
    }

    /** The checks made before anything is changed. */
    method Validate(d: Diff) returns (err: Option<Error>, newAlgo: Algorithm?)
      ensures err == Rejection(parse, d)
      ensures err.None? && d.newAlgorithm.Some? ==>
        newAlgo != null && fresh(newAlgo) && newAlgo.name == d.newAlgorithm.value
    {
      newAlgo := null;
      for i := 0 to |d.added|
        invariant FirstUrlError(parse, d.added) == FirstUrlError(parse, d.added[i..])
      {
        err := UrlError(parse, d.added[i].url);
        if err.Some? {
          return;
        }
        assert d.added[i..][1..] == d.added[i + 1..];
      }
      if d.newAlgorithm.Some? {
        newAlgo := NewAlgorithm(d.newAlgorithm.value);
        if newAlgo == null {
          return Some(UnknownAlgorithm(d.newAlgorithm.value)), null;
        }
      }
      err := None;
    }

    lemma PatchedMember(start: seq<Backend>, grown: seq<Backend>, removed: seq<string>, b: Backend)
      requires Distinct(grown) && start <= grown
      ensures b in start ==> (b in WithoutAll(grown, removed) <==> b.url !in removed)
      ensures b in WithoutAll(grown, removed) ==> b in grown
    {
      hide Distinct, WithoutAll;
      WithoutAllMember(grown, removed, b);
      if b in start {
        var i :| 0 <= i < |start| && start[i] == b;
        assert grown[i] == b;
      }
    }

    method AddThenRemove(added: seq<BackendConfig>, removed: seq<string>)
      requires Distinct(pool.backends)
      modifies pool
      ensures Distinct(pool.backends)
      ensures WeightsIn(pool.backends) == FirstWeights(old(WeightsIn(pool.backends)), added) - Names(removed)
      ensures forall b :: b in old(pool.backends) ==> (b in pool.backends <==> b.url !in removed)
      ensures forall b :: b in pool.backends && b !in old(pool.backends) ==> fresh(b) && b.alive && b.activeConns == 0
    {
      hide Distinct, WeightsIn, WithoutAll, FirstWeights, Names;
      ghost var start := pool.backends;
      AddAll(added);
      ghost var grown := pool.backends;
      WithoutAllDistinct(grown, removed);
      WeightsWithoutAll(grown, removed);
      RemoveAll(removed);
      forall b | b in start ensures b in pool.backends <==> b.url !in removed {
        PatchedMember(start, grown, removed, b);
      }
      forall b | b in pool.backends ensures b in grown {
        PatchedMember(start, grown, removed, b);
      }
    }

    /** The pool part of the mutation phase: add, then remove, then reweight. */
    method PatchPool(d: Diff)
      requires Distinct(pool.backends)
      modifies pool, (set b | b in pool.backends)`weight
      ensures Distinct(pool.backends)
      ensures WeightsIn(pool.backends) == Patched(old(WeightsIn(pool.backends)), d)
      ensures forall b :: b in old(pool.backends) ==> (b in pool.backends <==> b.url !in d.removed)
      ensures forall b :: b in pool.backends && b !in old(pool.backends) ==> fresh(b) && b.alive && b.activeConns == 0
    {
      hide Distinct, WeightsIn, FirstWeights, Reweighted, Names;
      AddThenRemove(d.added, d.removed);
      ReweightAll(d.changed);
    }

    /**
      A refused diff changes nothing at all. An accepted one patches the pool: backends that stay are the same
      objects with their alive flag and connection count, and new ones are alive and idle.
     */
    method Apply(d: Diff) returns (err: Option<Error>)
      requires Distinct(pool.backends)
      modifies pool, proxy, health, (set b | b in pool.backends)`weight
      ensures Distinct(pool.backends)
      ensures err == Rejection(parse, d)
      ensures err.Some? ==>
        && unchanged(pool) && unchanged(proxy) && unchanged(health)
        && forall b :: b in pool.backends ==> b.weight == old(b.weight)
      ensures err.None? ==>
        && WeightsIn(pool.backends) == Patched(old(WeightsIn(pool.backends)), d)
        && (forall b :: b in old(pool.backends) ==> (b in pool.backends <==> b.url !in d.removed))
        && (forall b :: b in old(pool.backends) ==>
              b.alive == old(b.alive) && b.activeConns == old(b.activeConns))
        && (forall b :: b in pool.backends && b !in old(pool.backends) ==>
              fresh(b) && b.alive && b.activeConns == 0)
      ensures err.None? ==>
        if d.newAlgorithm.Some? then fresh(proxy.algo) && proxy.algo.name == d.newAlgorithm.value
        else unchanged(proxy)
      ensures err.None? ==>
        match d.newHealth
        case None => unchanged(health)
        case Some(hc) =>
          && health.path == hc.path && health.consecutive == old(health.consecutive)
          && health.interval == (if hc.interval > 0.0 then hc.interval else old(health.interval))
          && health.timeout == (if hc.timeout > 0.0 then hc.timeout else old(health.timeout))
          && health.Limits() == H.Thresholds(H.AtLeastOne(hc.unhealthy), H.AtLeastOne(hc.healthy))
    {
      hide Distinct, WeightsIn, Patched, Rejection;
      var newAlgo;
      err, newAlgo := Validate(d);
      if err.Some? {
        return;
      }
      PatchPool(d);
      if d.newAlgorithm.Some? {
        proxy.SetAlgorithm(newAlgo);
      }
      if d.newHealth.Some? {
        var hc := d.newHealth.value;
        health.UpdateConfig(hc.path, hc.interval, hc.timeout, hc.unhealthy, hc.healthy);
      }
    }
  }

  // ----- the reload loop

  /** Whether a reload is accepted; `None` stands for a file that does not load. */
  ghost predicate Accepted(parse: string -> Parsed, cur: Config, next: Option<Config>) {
    && next.Some? && next.value.backends != [] && KnownAlgorithm(next.value.algorithm)
    && forall u :: u in AddedUrls(LastWeights(cur.backends), LastWeights(next.value.backends)) ==>
         UrlError(parse, u).None?
  }

  /** The configuration in force after a run of reload requests: the last accepted one. */
  ghost function InForce(parse: string -> Parsed, cur: Config, requests: seq<Option<Config>>): Config {
    if requests == [] then cur
    else
      var c, r := InForce(parse, cur, requests[..|requests| - 1]), requests[|requests| - 1];
      if Accepted(parse, c, r) then r.value else c
  }

  lemma {:induction false} NoUrlError(parse: string -> Parsed, bcs: seq<BackendConfig>)
    ensures FirstUrlError(parse, bcs).None? <==> forall i :: 0 <= i < |bcs| ==> UrlError(parse, bcs[i].url).None?
  {
    if bcs != [] {
      NoUrlError(parse, bcs[1..]);
      if FirstUrlError(parse, bcs).None? {
        forall i | 0 <= i < |bcs| ensures UrlError(parse, bcs[i].url).None? {
          if i > 0 { assert bcs[i] == bcs[1..][i - 1]; }
        }
      }
    }
  }

  /** The names and URLs that are taken, in so many words: nothing else is, and nothing of these is refused. */
  lemma AcceptedExactly(parse: string -> Parsed, d: Diff)
    ensures Rejection(parse, d).None? <==>
      && (forall i :: 0 <= i < |d.added| ==>
            var p := parse(d.added[i].url);
            p.Parsed? && p.scheme in ["http", "https"] && p.host != "")
      && (d.newAlgorithm.Some? ==>
            d.newAlgorithm.value in ["round_robin", "least_connections", "weighted_round_robin"])
  {
    hide FirstUrlError;
    NoUrlError(parse, d.added);
  }

  /** The error named is that of the first bad entry. */
  lemma {:induction false} FirstErrorIsFirst(parse: string -> Parsed, bcs: seq<BackendConfig>, i: nat)
    requires i < |bcs| && UrlError(parse, bcs[i].url).Some?
    requires forall j :: 0 <= j < i ==> UrlError(parse, bcs[j].url).None?
    ensures FirstUrlError(parse, bcs) == UrlError(parse, bcs[i].url)
  {
    if i > 0 { FirstErrorIsFirst(parse, bcs[1..], i - 1); }
  }

  /** A reload is accepted if and only if it loads, lists backends, names an algorithm, and its new URLs are good. */
  lemma AcceptsExactly(parse: string -> Parsed, cur: Config, next: Option<Config>)
    ensures Accepted(parse, cur, next) <==>
      && next.Some? && next.value.backends != []
      && next.value.algorithm in ["round_robin", "least_connections", "weighted_round_robin"]
      && forall u :: u in Keys(next.value.backends) && u !in Keys(cur.backends) ==>
           parse(u).Parsed? && parse(u).scheme in ["http", "https"] && parse(u).host != ""
  {
    hide LastWeights, Keys;
    if next.Some? {
      var o, n := LastWeights(cur.backends), LastWeights(next.value.backends);
      forall u
        ensures u in AddedUrls(o, n) <==> u in Keys(next.value.backends) && u !in Keys(cur.backends)
        ensures UrlError(parse, u).None? <==>
          parse(u).Parsed? && parse(u).scheme in ["http", "https"] && parse(u).host != ""
      {
        ExtremeKeys(cur.backends, u);
        ExtremeKeys(next.value.backends, u);
      }
    }
  }

  lemma ExtremeKeys(bcs: seq<BackendConfig>, u: string)
    ensures u in LastWeights(bcs) <==> u in Keys(bcs)
  {
    hide LastWeights, Keys;
    ExtremeWeights(bcs, u);
  }

  /** In whatever order a diff is met, it is refused or not for the same reason: the URLs it adds. */
  lemma RejectionOfDiff(parse: string -> Parsed, old_: Config, new_: Config, d: Diff)
    requires IsDiff(old_, new_, d) && new_.backends != [] && KnownAlgorithm(new_.algorithm)
    ensures Rejection(parse, d).None? <==> Accepted(parse, old_, Some(new_))
  {
    hide LastWeights, FirstUrlError, UrlError;
    var o, n := LastWeights(old_.backends), LastWeights(new_.backends);
    NoUrlError(parse, d.added);
    ListsKeys(d.added, n, AddedUrls(o, n));
    if Rejection(parse, d).None? {
      forall u | u in AddedUrls(o, n) ensures UrlError(parse, u).None? {
        var i := ListsAt(d.added, n, AddedUrls(o, n), u);
      }
    } else {
      var i :| 0 <= i < |d.added| && UrlError(parse, d.added[i].url).Some?;
      assert d.added[i].url in Keys(d.added);
    }
  }

  class Reloader {
    const applier: Applier
    var currentCfg: Config

    /** The running pool, algorithm and health check are those of the configuration in force. */
    ghost predicate InStep()
      reads this, applier.pool, applier.pool.backends, applier.proxy, applier.health
    {
      && Distinct(applier.pool.backends)
      && WeightsIn(applier.pool.backends) == LastWeights(currentCfg.backends)
      && applier.proxy.algo.name == currentCfg.algorithm
      && HealthInStep()
    }

    /** A duration that is not positive leaves the health checker the one it had. */
    ghost predicate HealthInStep()
      reads this, applier.health
    {
      var hc := currentCfg.health;
      && applier.health.path == hc.path
      && applier.health.Limits() == H.Thresholds(H.AtLeastOne(hc.unhealthy), H.AtLeastOne(hc.healthy))
      && (hc.interval > 0.0 ==> applier.health.interval == hc.interval)
      && (hc.timeout > 0.0 ==> applier.health.timeout == hc.timeout)
    }

    constructor (applier: Applier, cfg: Config)
      ensures this.applier == applier && currentCfg == cfg
    {
      this.applier, currentCfg := applier, cfg;
    }

    /**
      One reload request. Backends whose URL the accepted configuration has are the same objects with their alive
      flag and connection count, all others are gone, and new ones are alive and idle.
     */
    method Reload(request: Option<Config>)
      requires InStep()
      modifies this, applier.pool, applier.proxy, applier.health, (set b | b in applier.pool.backends)`weight
      ensures InStep()
      ensures currentCfg == if Accepted(applier.parse, old(currentCfg), request) then request.value else old(currentCfg)
      ensures forall b :: b in old(applier.pool.backends) ==>
        && (b in applier.pool.backends <==> b.url in LastWeights(currentCfg.backends))
        && b.alive == old(b.alive) && b.activeConns == old(b.activeConns)
      ensures forall b :: b in applier.pool.backends && b !in old(applier.pool.backends) ==>
        fresh(b) && b.alive && b.activeConns == 0
    {
      hide Distinct, WeightsIn, LastWeights, UrlError;
      UrlsHeld(applier.pool.backends, currentCfg);
      if request.None? || request.value.backends == [] {
        return;
      }
      var newCfg := request.value;
      var a := NewAlgorithm(newCfg.algorithm);
      if a == null {
        return;
      }
      Adopt(newCfg);
    }

    method Adopt(newCfg: Config)
      requires InStep() && newCfg.backends != [] && KnownAlgorithm(newCfg.algorithm)
      modifies this, applier.pool, applier.proxy, applier.health, (set b | b in applier.pool.backends)`weight
      ensures InStep()
      ensures currentCfg == if Accepted(applier.parse, old(currentCfg), Some(newCfg)) then newCfg else old(currentCfg)
      ensures forall b :: b in old(applier.pool.backends) ==>
        (b in applier.pool.backends <==> b.url in LastWeights(currentCfg.backends))
      ensures forall b :: b in old(applier.pool.backends) ==>
        b.alive == old(b.alive) && b.activeConns == old(b.activeConns)
      ensures forall b :: b in applier.pool.backends && b !in old(applier.pool.backends) ==>
        fresh(b) && b.alive && b.activeConns == 0
    {
      hide Distinct, WeightsIn, LastWeights, IsDiff, Patched, Rejection, UrlError, Lists, Accepted, KnownAlgorithm;
      UrlsHeld(applier.pool.backends, currentCfg);
      var d := ComputeDiff(currentCfg, newCfg);
      RejectionOfDiff(applier.parse, currentCfg, newCfg, d);
      RoundTrip(currentCfg, newCfg, d);
      OtherDifferences(currentCfg, newCfg, d);
      var err := applier.Apply(d);
      if err.None? {
        currentCfg := newCfg;
      } else {
        WeightsUnchanged(applier.pool.backends);
      }
    }

    twostate lemma WeightsUnchanged(bs: seq<Backend>)
      requires forall b :: b in bs ==> b.weight == old(b.weight)
      ensures WeightsIn(bs) == old(WeightsIn(bs))
    {
    }

    lemma OtherDifferences(old_: Config, new_: Config, d: Diff)
      requires IsDiff(old_, new_, d)
      ensures d.newAlgorithm == if old_.algorithm != new_.algorithm then Some(new_.algorithm) else None
      ensures d.newHealth == if old_.health != new_.health then Some(new_.health) else None
      ensures forall u :: u in LastWeights(old_.backends) ==> (u in d.removed <==> u !in LastWeights(new_.backends))
    {
      hide LastWeights;
    }

    lemma UrlsHeld(bs: seq<Backend>, cfg: Config)
      requires WeightsIn(bs) == LastWeights(cfg.backends)
      ensures forall b :: b in bs ==> b.url in LastWeights(cfg.backends)
    {
      hide LastWeights;
      forall b | b in bs ensures b.url in LastWeights(cfg.backends) {
        UrlsOfMembers(bs, b.url);
      }
    }

    /** The URL has been in every configuration in force. */
    ghost predicate AlwaysListed(start: Config, requests: seq<Option<Config>>, url: string) {
      forall k :: 0 <= k <= |requests| ==> url in LastWeights(InForce(applier.parse, start, requests[..k]).backends)
    }

    lemma AlwaysListedStep(start: Config, requests: seq<Option<Config>>, i: nat, url: string)
      requires i < |requests|
      ensures AlwaysListed(start, requests[..i + 1], url) <==>
        && AlwaysListed(start, requests[..i], url)
        && url in LastWeights(InForce(applier.parse, start, requests[..i + 1]).backends)
    {
      hide LastWeights, InForce;
      var longer, shorter := requests[..i + 1], requests[..i];
      assert longer[..i + 1] == longer;
      assert forall k :: 0 <= k <= i ==> longer[..k] == shorter[..k];
      if AlwaysListed(start, longer, url) {
        assert url in LastWeights(InForce(applier.parse, start, longer[..i + 1]).backends);
        forall k | 0 <= k <= |shorter|
          ensures url in LastWeights(InForce(applier.parse, start, shorter[..k]).backends)
        {
          assert longer[..k] == shorter[..k];
        }
      }
    }

    /**
      Over any run of requests, accepted or not, the system follows the last accepted configuration, and a
      backend is still the same object exactly when its URL has been in every configuration on the way.
     */
    method Serve(requests: seq<Option<Config>>)
      requires InStep()
      modifies this, applier.pool, applier.proxy, applier.health, (set b | b in applier.pool.backends)`weight
      ensures InStep()
      ensures currentCfg == InForce(applier.parse, old(currentCfg), requests)
      ensures forall b :: b in old(applier.pool.backends) ==>
        && (b in applier.pool.backends <==> AlwaysListed(old(currentCfg), requests, b.url))
        && b.alive == old(b.alive) && b.activeConns == old(b.activeConns)
    {
      hide Distinct, WeightsIn, LastWeights, Accepted, AlwaysListed, HealthInStep;
      ghost var start, members := currentCfg, applier.pool.backends;
      ListedAtFirst(members, start);
      for i := 0 to |requests|
        invariant InStep()
        invariant currentCfg == InForce(applier.parse, start, requests[..i])
        invariant forall b :: b in applier.pool.backends ==> b in members || fresh(b)
        invariant forall b :: b in members ==>
          (b in applier.pool.backends <==> AlwaysListed(start, requests[..i], b.url))
        invariant forall b :: b in members ==> b.alive == old(b.alive) && b.activeConns == old(b.activeConns)
      {
        assert requests[..i + 1][..i] == requests[..i];
        Reload(requests[i]);
        forall url: string
          ensures AlwaysListed(start, requests[..i + 1], url) <==>
            AlwaysListed(start, requests[..i], url) && url in LastWeights(currentCfg.backends)
        {
          AlwaysListedStep(start, requests, i, url);
        }
      }
      assert requests[..|requests|] == requests;
    }

    lemma ListedAtFirst(bs: seq<Backend>, cfg: Config)
      requires WeightsIn(bs) == LastWeights(cfg.backends)
      ensures forall b :: b in bs ==> AlwaysListed(cfg, [], b.url)
    {
      hide LastWeights;
      UrlsHeld(bs, cfg);
    }
  }

  // ----- startup

  datatype Startup = Started(reloader: Reloader) | NoBackends | Refused(error: Error)

  /**
    Startup refuses an empty list, an unknown algorithm or the first bad URL, in this order. Otherwise it
    registers the entries in turn, so that the running system is in step with the configuration exactly when
    no URL is listed with two weights at its first and last entry.
   */
  method Start(parse: string -> Parsed, cfg: Config) returns (s: Startup)
    ensures s.NoBackends? <==> cfg.backends == []
    ensures s.Refused? <==>
      cfg.backends != [] && (!KnownAlgorithm(cfg.algorithm) || FirstUrlError(parse, cfg.backends).Some?)
    ensures s.Refused? ==>
      Some(s.error) == if !KnownAlgorithm(cfg.algorithm) then Some(UnknownAlgorithm(cfg.algorithm))
                       else FirstUrlError(parse, cfg.backends)
    ensures s.Started? ==>
      var a := s.reloader.applier;
      && fresh(s.reloader) && fresh(a) && fresh(a.pool) && fresh(a.proxy) && fresh(a.health)
      && s.reloader.currentCfg == cfg && a.parse == parse
      && WeightsIn(a.pool.backends) == FirstWeights(map[], cfg.backends)
      && (forall b :: b in a.pool.backends ==> fresh(b) && b.alive && b.activeConns == 0)
      && (s.reloader.InStep() <==> forall u :: u in Keys(cfg.backends) ==>
            cfg.backends[FirstEntry(cfg.backends, u)].weight == cfg.backends[LastEntry(cfg.backends, u)].weight)
  {
    hide Distinct, WeightsIn, LastWeights, FirstWeights, FirstUrlError, KnownAlgorithm, Keys, FirstEntry, LastEntry;
    if cfg.backends == [] {
      return NoBackends;
    }
    var algo := NewAlgorithm(cfg.algorithm);
    if algo == null {
      return Refused(UnknownAlgorithm(cfg.algorithm));
    }
    var pool := new ServerPool();
    var proxy := new Balancer(algo);
    var hc := cfg.health;
    var health := new H.HealthChecker(hc.path, hc.interval, hc.timeout, hc.unhealthy, hc.healthy);
    var applier := new Applier(pool, proxy, health, parse);
    var err := applier.Register(cfg.backends);
    if err.Some? {
      return Refused(err.value);
    }
    StartupMatchesExactly(cfg.backends);
    var reloader := new Reloader(applier, cfg);
    s := Started(reloader);
  }

  lemma EmptyPool(bs: seq<Backend>)
    requires bs == []
    ensures Distinct(bs) && WeightsIn(bs) == FirstWeights(map[], [])
  {
  }

  lemma NoneRegistered(m: map<string, int>)
    ensures FirstWeights(m, []) == m
  {
  }

  lemma FirstWeightsOn(m: map<string, int>, bcs: seq<BackendConfig>, i: nat)
    requires i < |bcs|
    ensures var w := FirstWeights(m, bcs[..i]);
      FirstWeights(m, bcs[..i + 1]) == if bcs[i].url in w then w else w[bcs[i].url := bcs[i].weight]
  {
    assert bcs[..i + 1][..i] == bcs[..i];
  }
}
