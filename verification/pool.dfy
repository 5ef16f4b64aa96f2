/** The set of registered backends (internal/pool). */
module Pool {
  import opened Backends

  predicate Holds(bs: seq<Backend>, url: string) {
    exists i :: 0 <= i < |bs| && bs[i].url == url
  }

  /** No two registered backends share a URL. */
  ghost predicate Distinct(bs: seq<Backend>) {
    forall i, j :: 0 <= i < j < |bs| ==> bs[i].url != bs[j].url
  }

  /** The position of the first backend of a URL. */
  function Position(bs: seq<Backend>, url: string): (i: nat)
    requires Holds(bs, url)
    ensures i < |bs| && bs[i].url == url && forall j :: 0 <= j < i ==> bs[j].url != url
  {
    if bs[0].url == url then 0
    else
      assert Holds(bs[1..], url) by {
        var k :| 0 <= k < |bs| && bs[k].url == url;
        assert bs[1..][k - 1].url == url;
      }
      Position(bs[1..], url) + 1
  }

  /** The list without its first backend of the given URL. */
  function Without(bs: seq<Backend>, url: string): seq<Backend> {
    if Holds(bs, url) then bs[..Position(bs, url)] + bs[Position(bs, url) + 1..] else bs
  }

  function Urls(bs: seq<Backend>): set<string> {
    set i | 0 <= i < |bs| :: bs[i].url
  }

  /** The weight of every registered URL. */
  ghost function WeightsIn(bs: seq<Backend>): (m: map<string, int>)
    reads bs
    ensures m.Keys == Urls(bs)
    ensures Distinct(bs) ==> forall i :: 0 <= i < |bs| ==> bs[i].url in m && m[bs[i].url] == bs[i].weight
  {
    map u | u in Urls(bs) :: bs[Position(bs, u)].weight
  }

  lemma DropMembers(bs: seq<Backend>, p: nat, b: Backend)
    requires Distinct(bs) && p < |bs|
    ensures b in bs[..p] + bs[p + 1..] <==> b in bs && b.url != bs[p].url
  {
    var w := bs[..p] + bs[p + 1..];
    if b in bs && b.url != bs[p].url {
      var i :| 0 <= i < |bs| && bs[i] == b;
      assert w[if i < p then i else i - 1] == b;
    }
  }

  lemma DropDistinct(bs: seq<Backend>, p: nat)
    requires Distinct(bs) && p < |bs|
    ensures Distinct(bs[..p] + bs[p + 1..])
  {
  }

  lemma UrlsOfMembers(bs: seq<Backend>, url: string)
    ensures url in Urls(bs) <==> exists b :: b in bs && b.url == url
  {
    if url in Urls(bs) {
      var i :| 0 <= i < |bs| && bs[i].url == url;
      assert bs[i] in bs;
    }
  }

  /** Removing a URL from distinct backends removes exactly that backend and keeps the order of the others. */
  lemma WithoutMembers(bs: seq<Backend>, url: string)
    requires Distinct(bs)
    ensures Distinct(Without(bs, url))
    ensures forall b :: b in Without(bs, url) <==> b in bs && b.url != url
    ensures Urls(Without(bs, url)) == Urls(bs) - {url}
  {
    if Holds(bs, url) {
      DropDistinct(bs, Position(bs, url));
      forall b ensures b in Without(bs, url) <==> b in bs && b.url != url {
        DropMembers(bs, Position(bs, url), b);
      }
    } else {
      forall b | b in bs ensures b.url != url {}
    }
    hide Without, Urls, Holds, Distinct;
    forall u ensures u in Urls(Without(bs, url)) <==> u in Urls(bs) - {url} {
      UrlsOfMembers(bs, u);
      UrlsOfMembers(Without(bs, url), u);
    }
  }

  lemma WeightsEqual(bs: seq<Backend>, m: map<string, int>)
    requires Distinct(bs) && m.Keys == Urls(bs)
    requires forall i :: 0 <= i < |bs| ==> bs[i].url in m && m[bs[i].url] == bs[i].weight
    ensures WeightsIn(bs) == m
  {
    forall u | u in m ensures WeightsIn(bs)[u] == m[u] {
      var i :| 0 <= i < |bs| && bs[i].url == u;
    }
  }

  lemma WeightsWithout(bs: seq<Backend>, url: string)
    requires Distinct(bs)
    ensures WeightsIn(Without(bs, url)) == WeightsIn(bs) - {url}
  {
    hide Without, Holds;
    WithoutMembers(bs, url);
    var bs', m := Without(bs, url), WeightsIn(bs) - {url};
    forall i | 0 <= i < |bs'| ensures bs'[i].url in m && m[bs'[i].url] == bs'[i].weight {
      var b := bs'[i];
      assert b in bs' && b in bs && b.url != url;
      var j :| 0 <= j < |bs| && bs[j] == bs'[i];
    }
    WeightsEqual(bs', m);
  }

  /** The list after removing the URLs one after the other. */
  function WithoutAll(bs: seq<Backend>, urls: seq<string>): seq<Backend> {
    if urls == [] then bs else Without(WithoutAll(bs, urls[..|urls| - 1]), urls[|urls| - 1])
  }

  lemma {:induction false} WithoutAllDistinct(bs: seq<Backend>, urls: seq<string>)
    requires Distinct(bs)
    ensures Distinct(WithoutAll(bs, urls))
  {
    hide Distinct, Without;
    if urls != [] {
      WithoutAllDistinct(bs, urls[..|urls| - 1]);
      WithoutMembers(WithoutAll(bs, urls[..|urls| - 1]), urls[|urls| - 1]);
    }
  }

  /** Removing a list of URLs from distinct backends keeps exactly the backends of other URLs. */
  lemma {:induction false} WithoutAllMember(bs: seq<Backend>, urls: seq<string>, b: Backend)
    requires Distinct(bs)
    ensures b in WithoutAll(bs, urls) <==> b in bs && b.url !in urls
  {
    hide Distinct, Without;
    if urls != [] {
      var front, last := urls[..|urls| - 1], urls[|urls| - 1];
      WithoutAllMember(bs, front, b);
      WithoutAllDistinct(bs, front);
      WithoutMembers(WithoutAll(bs, front), last);
      assert urls == front + [last];
    }
  }

  function Names(urls: seq<string>): set<string> {
    set u | u in urls
  }

  lemma NamesLast(urls: seq<string>)
    requires urls != []
    ensures Names(urls) == Names(urls[..|urls| - 1]) + {urls[|urls| - 1]}
  {
    assert urls == urls[..|urls| - 1] + [urls[|urls| - 1]];
  }

  lemma {:induction false} WeightsWithoutAll(bs: seq<Backend>, urls: seq<string>)
    requires Distinct(bs)
    ensures WeightsIn(WithoutAll(bs, urls)) == WeightsIn(bs) - Names(urls)
  {
    hide Distinct, Without, WeightsIn;
    if urls != [] {
      var front, last := urls[..|urls| - 1], urls[|urls| - 1];
      WeightsWithoutAll(bs, front);
      WithoutAllDistinct(bs, front);
      WeightsWithout(WithoutAll(bs, front), last);
      NamesLast(urls);
      var m := WeightsIn(bs);
      assert m - Names(front) - {last} == m - Names(urls);
    }
  }

  class ServerPool {
    var backends: seq<Backend>

    constructor ()
      ensures backends == []
    {
      backends := [];
    }

    /** Registers a backend, unless its URL is registered already. */
    method AddBackend(b: Backend)
      modifies this
      ensures backends == if Holds(old(backends), b.url) then old(backends) else old(backends) + [b]
    {
      for i := 0 to |backends|
        invariant backends == old(backends)
        invariant forall j :: 0 <= j < i ==> backends[j].url != b.url
      {
        if backends[i].url == b.url {
          return;
        }
      }
      backends := backends + [b];
    }

    /** A snapshot that later changes of the pool do not touch. */
    method Snapshot() returns (bs: seq<Backend>)
      ensures bs == backends
    {
      bs := backends;
    }

    method Remove(rawURL: string) returns (found: bool)
      modifies this
      ensures backends == Without(old(backends), rawURL)
      ensures found <==> Holds(old(backends), rawURL)
    {
      for i := 0 to |backends|
        invariant backends == old(backends)
        invariant forall j :: 0 <= j < i ==> backends[j].url != rawURL
      {
        if backends[i].url == rawURL {
          backends := backends[..i] + backends[i + 1..];
          return true;
        }
      }
      return false;
    }

    /** Sets the alive flag of the first backend of that URL, and of no other backend. */
    method MarkBackendStatus(url: string, alive: bool)
      modifies (set b | b in backends && b.url == url)`alive
      ensures Holds(backends, url) ==>
        var p := Position(backends, url);
        backends[p].alive == alive && forall b: Backend :: b in backends && b != backends[p] ==> b.alive == old(b.alive)
      ensures Distinct(backends) ==> forall b: Backend :: b in backends ==>
        b.alive == if b.url == url then alive else old(b.alive)
    {
      for i := 0 to |backends|
        invariant forall b: Backend :: b in backends ==> b.alive == old(b.alive)
        invariant forall j :: 0 <= j < i ==> backends[j].url != url
      {
        if backends[i].url == url {
          backends[i].SetAlive(alive);
          return;
        }
      }
    }
  }
}
