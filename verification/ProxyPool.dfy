/** The pool of relay proxies of internal/manager/manager.go: New, RegisterPeer,
    getOrCreateProxy, and the launches of Run. */
module ProxyPool {
  import opened Basics

  type Url = string
  type Peer = Bytes
  /** An InternalProxy, by order of creation. */
  type Proxy = nat

  datatype Launch = Launch(url: Url, proxy: Proxy)

  class Manager {
    var peers: map<Peer, Url>          // the relay URL of each registered peer, "" for none
    var proxies: map<Url, Proxy>
    var created: nat
    var launched: seq<Launch>          // the connect loops Run has started
    var running: bool

    /** Every peer's relay has a proxy of its own. */
    ghost predicate Pooled()
      reads this
    {
      && (forall id :: id in peers && peers[id] != "" ==> peers[id] in proxies)
      && (forall u :: u in proxies ==> proxies[u] < created)
      && (forall u, v :: u in proxies && v in proxies && proxies[u] == proxies[v] ==> u == v)
    }

    /** ... and once Run has been called every proxy has exactly one connect loop. */
    ghost predicate Valid()
      reads this
    {
      Pooled() && if running then Covers(launched, proxies) else launched == []
    }

    /** New: the interface relay, if any, gets its proxy at once. */
    constructor (interfaceUrl: Url)
      ensures Valid() && !running && peers == map[]
      ensures proxies.Keys == if interfaceUrl != "" then {interfaceUrl} else {}
    {
      peers, launched, running := map[], [], false;
      if interfaceUrl != "" {
        proxies, created := map[interfaceUrl := 0], 1;
      } else {
        proxies, created := map[], 0;
      }
    }

    method GetOrCreateProxy(url: Url) returns (p: Proxy)
      requires Pooled()
      modifies this`proxies, this`created
      ensures Pooled() && url in proxies && p == proxies[url]
      ensures url in old(proxies) ==> proxies == old(proxies) && created == old(created)
      ensures url !in old(proxies) ==> proxies == old(proxies)[url := old(created)] && created == old(created) + 1
    {
      if url in proxies {
        return proxies[url];
      }
      p := created;
      proxies, created := proxies[url := p], created + 1;
    }

    /** RegisterPeer, which must come before Run: a second registration is refused. */
    method RegisterPeer(id: Peer, url: Url) returns (ok: bool)
      requires Valid() && !running
      modifies this`peers, this`proxies, this`created
      ensures Valid() && ok == (id !in old(peers))
      ensures peers == if ok then old(peers)[id := url] else old(peers)
      ensures proxies.Keys == old(proxies.Keys) + if ok && url != "" then {url} else {}
      ensures forall u :: u in old(proxies) ==> proxies[u] == old(proxies)[u]
    {
      if id in peers {
        return false;
      }
      if url != "" {
        var _ := GetOrCreateProxy(url);
      }
      peers := peers[id := url];
      ok := true;
    }

    /** Run: one connect loop per proxy in the pool. */
    method Run()
      requires Valid() && !running
      modifies this`launched, this`running
      ensures Valid() && running
    {
      var todo := proxies.Keys;
      ghost var served: map<Url, Proxy> := map[];
      while todo != {}
        invariant todo <= proxies.Keys && served.Keys == proxies.Keys - todo
        invariant forall u :: u in served ==> served[u] == proxies[u]
        invariant Covers(launched, served)
        decreases todo
      {
        var url :| url in todo;
        CoverOne(launched, served, url, proxies[url]);
        launched := launched + [Launch(url, proxies[url])];
        served := served[url := proxies[url]];
        todo := todo - {url};
      }
      assert served == proxies;
      running := true;
    }

    /** connectPeerWithCtx and retryConnectPeer: an unknown peer and a peer without relay are
        errors; looking up any other while running creates nothing and finds a proxy that has its
        connect loop. */
    method ProxyOf(id: Peer) returns (p: Option<Proxy>)
      requires Valid() && running
      modifies this`proxies, this`created
      ensures Valid() && proxies == old(proxies) && created == old(created)
      ensures p.Some? <==> id in peers && peers[id] != ""
      ensures p.Some? ==> Launch(peers[id], p.value) in launched
    {
      if id !in peers || peers[id] == "" {
        return None;
      }
      var q := GetOrCreateProxy(peers[id]);
      p := Some(q);
    }
  }

  /** The launches are exactly the entries of the pool, each once. */
  ghost predicate Covers(launched: seq<Launch>, proxies: map<Url, Proxy>)
  {
    && (forall u :: u in proxies ==> Launch(u, proxies[u]) in launched)
    && (forall l :: l in launched ==> l.url in proxies && l.proxy == proxies[l.url])
    && (forall i, j :: 0 <= i < j < |launched| ==> launched[i] != launched[j])
  }

  lemma CoverOne(launched: seq<Launch>, proxies: map<Url, Proxy>, url: Url, p: Proxy)
    requires Covers(launched, proxies) && url !in proxies
    ensures Covers(launched + [Launch(url, p)], proxies[url := p])
  {
    var l' := launched + [Launch(url, p)];
    assert l'[|launched|] == Launch(url, p);
    forall u | u in proxies ensures Launch(u, proxies[u]) in l' {
      var i :| 0 <= i < |launched| && launched[i] == Launch(u, proxies[u]);
      assert l'[i] == launched[i];
    }
  }
}
