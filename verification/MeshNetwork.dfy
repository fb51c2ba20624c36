/** A full mesh of routers, each with its clients, whose mirrors have converged: a put
    anywhere reaches every matching subscription anywhere exactly once, and a question every
    matching queryable. */
module MeshNetwork {
  import opened Wrappers
  import opened MeshMsg
  import opened MeshTables
  import opened MeshRouter
  import opened D = MeshDelivery
  import K = KeyExpr

  /** kind: subscriptions for puts, queryables for questions; clients: what of the kind each client
      declared; home: the router it is connected to. */
  datatype Net = Net(kind: DeclKind, cores: map<string, Core>, clients: map<string, map<nat, string>>, home: map<string, string>)

  function Dec(net: Net, who: Who, id: nat): Decl { Decl(who, DKey(net.kind, id)) }

  // ---------------------------------------------------------------- convergence

  ghost predicate PeerWired(net: Net, r: string, p: string, role: Role) {
    if role.Router? then p in net.cores else p in net.clients && p !in net.cores && p in net.home && net.home[p] == r
  }

  /** A router has a session with every other router and with its own clients, and no other. */
  ghost predicate RouterWired(net: Net, r: string, c: Core) {
    && PeersOk(c)
    && r !in c.byPeer
    && (forall u :: u in c.sessions ==> PeerWired(net, r, c.sessions[u].peer, c.sessions[u].role))
    && (forall s :: s in net.cores && s != r ==> s in c.byPeer)
  }

  ghost predicate ClientWired(net: Net, k: string) {
    k !in net.cores && k in net.home && net.home[k] in net.cores && k in net.cores[net.home[k]].byPeer
  }

  ghost predicate Wired(net: Net) {
    && (forall r :: r in net.cores ==> RouterWired(net, r, net.cores[r]))
    && (forall k :: k in net.clients ==> ClientWired(net, k))
  }

  /** A session of c with peer p holds exactly these declarations of the kind. */
  ghost predicate Mirror(net: Net, c: Core, p: string, subs: map<nat, string>)
    requires p in c.byPeer
  {
    var u := c.byPeer[p];
    && (forall id :: Dec(net, There(u), id) in c.live <==> id in subs)
    && (forall id :: id in subs ==> c.live[Dec(net, There(u), id)] == subs[id])
  }

  function OutOf(c: Core, kind: DeclKind): map<nat, string> { map i | i in c.t.out && c.t.out[i].0 == kind :: c.t.out[i].1 }

  ghost predicate Converged(net: Net) {
    && Wired(net)
    && (forall r :: r in net.cores ==> Sound(net.cores[r]))
    && (forall k :: k in net.clients ==> Mirror(net, net.cores[net.home[k]], k, net.clients[k]))
    && (forall r, s :: r in net.cores && s in net.cores && r != s ==> Mirror(net, net.cores[r], s, OutOf(net.cores[s], net.kind)))
  }

  // ---------------------------------------------------------------- a put

  predicate IsNode(net: Net, n: string) { n in net.cores || n in net.clients }

  /** The router a put enters, and the session it enters by. */
  function EntryRouter(net: Net, src: string): string
    requires src in net.cores || src in net.home
  {
    if src in net.cores then src else net.home[src]
  }

  ghost function EntryFrom(net: Net, src: string): Option<nat>
    requires Wired(net) && IsNode(net, src)
  {
    if src in net.cores then None else Some(net.cores[net.home[src]].byPeer[src])
  }

  /** The sessions over which the entry router passes it on. */
  ghost function First(net: Net, src: string, key: string): set<nat>
    requires Wired(net) && IsNode(net, src)
  {
    Onward(net.cores[EntryRouter(net, src)], EntryFrom(net, src), net.kind, key)
  }

  /** The sessions over which another router s passes it on. */
  ghost function Second(net: Net, src: string, key: string, s: string): set<nat>
    requires Wired(net) && IsNode(net, src) && s in net.cores && s != EntryRouter(net, src)
  {
    Onward(net.cores[s], Some(net.cores[s].byPeer[EntryRouter(net, src)]), net.kind, key)
  }

  ghost function OneHop(net: Net, src: string, key: string, n: string): set<nat>
    requires Wired(net) && IsNode(net, src)
  {
    set u | u in First(net, src, key) && net.cores[EntryRouter(net, src)].sessions[u].peer == n
  }

  ghost predicate ByTwo(net: Net, src: string, key: string, n: string, u: nat, v: nat)
    requires Wired(net) && IsNode(net, src)
  {
    var r := EntryRouter(net, src);
    && u in First(net, src, key)
    && var s := net.cores[r].sessions[u].peer;
       s in net.cores && s != r && v in Second(net, src, key, s) && net.cores[s].sessions[v].peer == n
  }

  ghost function AllUids(net: Net): set<nat> { set r, u | r in net.cores && u in net.cores[r].sessions :: u }

  ghost function TwoHop(net: Net, src: string, key: string, n: string): set<(nat, nat)>
    requires Wired(net) && IsNode(net, src)
  {
    set u, v | u in AllUids(net) && v in AllUids(net) && ByTwo(net, src, key, n, u, v) :: (u, v)
  }

  /** How often the put arrives at node n. */
  ghost function Arrivals(net: Net, src: string, key: string, n: string): nat
    requires Wired(net) && IsNode(net, src)
  {
    (if n == src then 1 else 0)
    + (if n != src && n == EntryRouter(net, src) then 1 else 0)
    + |OneHop(net, src, key, n)| + |TwoHop(net, src, key, n)|
  }

  /** Declaration id of node n matches the key. */
  ghost predicate Wanted(net: Net, n: string, id: nat, key: string) {
    if n in net.cores then Dec(net, Here, id) in net.cores[n].live && K.Intersects(net.cores[n].live[Dec(net, Here, id)], key)
    else n in net.clients && id in net.clients[n] && K.Intersects(net.clients[n][id], key)
  }

  /** Samples, or questions, handed to declaration id of node n: one per arrival, if the node finds it. */
  ghost function Samples(net: Net, src: string, key: string, n: string, id: nat): nat
    requires Wired(net) && IsNode(net, src)
  {
    if (if n in net.cores then WantsHere(net.cores[n], net.kind, id, key) else Wanted(net, n, id, key))
    then Arrivals(net, src, key, n) else 0
  }

  // ---------------------------------------------------------------- who wants it

  lemma ClientWants(net: Net, k: string, key: string, id: nat)
    requires Converged(net) && k in net.clients && Wanted(net, k, id, key)
    ensures var c := net.cores[net.home[k]]; Wants(c, c.byPeer[k], net.kind, key)
  {
    var c := net.cores[net.home[k]];
    assert Mirror(net, c, k, net.clients[k]);
    assert Dec(net, There(c.byPeer[k]), id) in c.live;
  }

  /** A router is told of what its peer exports. */
  lemma RouterWants(net: Net, r: string, s: string, key: string, x: Decl)
    requires Converged(net) && r in net.cores && s in net.cores && r != s
    requires x in net.cores[s].live && x.key.kind == net.kind && Exported(x, Clients(net.cores[s].sessions))
    requires K.Intersects(net.cores[s].live[x], key)
    ensures Wants(net.cores[r], net.cores[r].byPeer[s], net.kind, key)
  {
    var (c, d) := (net.cores[r], net.cores[s]);
    assert Routed(d.t, d.live, Clients(d.sessions), x);
    var i := RidOf(d.t, x).value;
    assert Mirror(net, c, s, OutOf(d, net.kind));
    assert Dec(net, There(c.byPeer[s]), i) in c.live;
  }

  lemma RouterWantsForLocal(net: Net, r: string, s: string, key: string, id: nat)
    requires Converged(net) && r in net.cores && s in net.cores && r != s && Wanted(net, s, id, key)
    ensures Wants(net.cores[r], net.cores[r].byPeer[s], net.kind, key)
  {
    RouterWants(net, r, s, key, Dec(net, Here, id));
  }

  lemma RouterWantsForClient(net: Net, r: string, k: string, key: string, id: nat)
    requires Converged(net) && r in net.cores && k in net.clients && net.home[k] != r && Wanted(net, k, id, key)
    ensures Wants(net.cores[r], net.cores[r].byPeer[net.home[k]], net.kind, key)
  {
    var c := net.cores[net.home[k]];
    var u := c.byPeer[k];
    assert Mirror(net, c, k, net.clients[k]);
    assert Dec(net, There(u), id) in c.live;
    assert u in Clients(c.sessions);
    RouterWants(net, r, net.home[k], key, Dec(net, There(u), id));
  }

  // ---------------------------------------------------------------- how it travels

  /** A session in First leads to a known peer and back. */
  lemma PeerBack(c: Core, u: nat)
    requires PeersOk(c) && u in c.sessions
    ensures c.sessions[u].peer in c.byPeer && c.byPeer[c.sessions[u].peer] == u
  {
  }

  /** At most one session leads from a router to a peer. */
  lemma HopOnce(c: Core, from: Option<nat>, kind: DeclKind, key: string, n: string)
    requires PeersOk(c)
    ensures var hops := set u | u in Onward(c, from, kind, key) && c.sessions[u].peer == n;
            if n in c.byPeer && MayGo(c, from, c.byPeer[n]) && Wants(c, c.byPeer[n], kind, key) then hops == {c.byPeer[n]} else hops == {}
  {
    var hops := set u | u in Onward(c, from, kind, key) && c.sessions[u].peer == n;
    forall u | u in hops ensures n in c.byPeer && u == c.byPeer[n] { PeerBack(c, u); }
    if n in c.byPeer && MayGo(c, from, c.byPeer[n]) && Wants(c, c.byPeer[n], kind, key) {
      assert c.byPeer[n] in hops;
    }
  }

  lemma EntryMayGo(net: Net, src: string, n: string)
    requires Wired(net) && IsNode(net, src) && n in net.cores[EntryRouter(net, src)].byPeer
    ensures var c := net.cores[EntryRouter(net, src)];
            PeersOk(c) && (MayGo(c, EntryFrom(net, src), c.byPeer[n]) <==> n != src)
  {
    var r := EntryRouter(net, src);
    assert RouterWired(net, r, net.cores[r]);
    if src !in net.cores { PeerKind(net, r, src); }
  }

  lemma OneHopOnce(net: Net, src: string, key: string, n: string)
    requires Wired(net) && IsNode(net, src)
    ensures var c := net.cores[EntryRouter(net, src)];
            var hops := OneHop(net, src, key, n);
            if n in c.byPeer && n != src && Wants(c, c.byPeer[n], net.kind, key) then hops == {c.byPeer[n]} else hops == {}
  {
    var r := EntryRouter(net, src);
    assert RouterWired(net, r, net.cores[r]);
    HopOnce(net.cores[r], EntryFrom(net, src), net.kind, key, n);
    if n in net.cores[r].byPeer { EntryMayGo(net, src, n); }
  }

  lemma PeerKind(net: Net, r: string, p: string)
    requires Wired(net) && r in net.cores && p in net.cores[r].byPeer
    ensures var c := net.cores[r];
            c.byPeer[p] in c.sessions && PeerWired(net, r, p, c.sessions[c.byPeer[p]].role)
  {
    assert RouterWired(net, r, net.cores[r]);
  }

  lemma NoRouterAfterRouter(c: Core, f: nat, kind: DeclKind, key: string, v: nat)
    requires f in c.sessions && c.sessions[f].role.Router? && v in Onward(c, Some(f), kind, key)
    ensures c.sessions[v].role.Client?
  {
    assert FromRouter(c, Some(f));
  }

  /** A second hop always ends at a client of the router that makes it, so there is no third. */
  lemma SecondIsLast(net: Net, src: string, key: string, s: string, v: nat)
    requires Wired(net) && IsNode(net, src) && s in net.cores && s != EntryRouter(net, src)
    requires v in Second(net, src, key, s)
    ensures net.cores[s].sessions[v].role.Client? && net.cores[s].sessions[v].peer in net.clients
            && net.home[net.cores[s].sessions[v].peer] == s
  {
    var c := net.cores[s];
    var r := EntryRouter(net, src);
    PeerKind(net, s, r);
    NoRouterAfterRouter(c, c.byPeer[r], net.kind, key, v);
    PeerBack(c, v);
    PeerKind(net, s, c.sessions[v].peer);
  }

  lemma TwoHopEnds(net: Net, src: string, key: string, n: string, u: nat, v: nat)
    requires Wired(net) && IsNode(net, src) && ByTwo(net, src, key, n, u, v)
    ensures n in net.clients && net.home[n] != EntryRouter(net, src)
    ensures u == net.cores[EntryRouter(net, src)].byPeer[net.home[n]] && v == net.cores[net.home[n]].byPeer[n]
  {
    var c := net.cores[EntryRouter(net, src)];
    var s := c.sessions[u].peer;
    SecondIsLast(net, src, key, s, v);
    PeerBack(c, u);
    PeerBack(net.cores[s], v);
  }

  lemma NoTwoHop(net: Net, src: string, key: string, n: string)
    requires Wired(net) && IsNode(net, src) && !(n in net.clients && net.home[n] != EntryRouter(net, src))
    ensures TwoHop(net, src, key, n) == {}
  {
    forall u, v ensures !ByTwo(net, src, key, n, u, v) {
      if ByTwo(net, src, key, n, u, v) { TwoHopEnds(net, src, key, n, u, v); }
    }
  }

  lemma TwoHopMember(net: Net, src: string, key: string, n: string, h: (nat, nat))
    requires Wired(net) && IsNode(net, src) && h in TwoHop(net, src, key, n)
    ensures n in net.clients && net.home[n] != EntryRouter(net, src)
    ensures h == (net.cores[EntryRouter(net, src)].byPeer[net.home[n]], net.cores[net.home[n]].byPeer[n])
  {
    assert ByTwo(net, src, key, n, h.0, h.1);
    TwoHopEnds(net, src, key, n, h.0, h.1);
  }

  lemma IntoTwoHop(net: Net, src: string, key: string, n: string, u: nat, v: nat)
    requires Wired(net) && IsNode(net, src) && ByTwo(net, src, key, n, u, v) && u in AllUids(net) && v in AllUids(net)
    ensures (u, v) in TwoHop(net, src, key, n)
  {
  }

  lemma OnlyOne(s: set<(nat, nat)>, p: (nat, nat))
    requires p in s && forall h :: h in s ==> h == p
    ensures |s| == 1
  {
    assert s == {p};
  }

  lemma TwoHopOnly(net: Net, src: string, key: string, n: string, u: nat, v: nat)
    requires Wired(net) && IsNode(net, src) && ByTwo(net, src, key, n, u, v) && u in AllUids(net) && v in AllUids(net)
    ensures |TwoHop(net, src, key, n)| == 1
  {
    var hops := TwoHop(net, src, key, n);
    IntoTwoHop(net, src, key, n, u, v);
    TwoHopMember(net, src, key, n, (u, v));
    forall h | h in hops ensures h == (u, v) { TwoHopMember(net, src, key, n, h); }
    OnlyOne(hops, (u, v));
  }

  lemma TwoHopArrives(net: Net, src: string, key: string, n: string, id: nat)
    requires Converged(net) && IsNode(net, src) && Wanted(net, n, id, key)
    requires n in net.clients && net.home[n] != EntryRouter(net, src)
    ensures var u := net.cores[EntryRouter(net, src)].byPeer[net.home[n]];
            var v := net.cores[net.home[n]].byPeer[n];
            ByTwo(net, src, key, n, u, v) && u in AllUids(net) && v in AllUids(net)
  {
    var (r, s) := (EntryRouter(net, src), net.home[n]);
    var (c, d) := (net.cores[r], net.cores[s]);
    RouterWantsForClient(net, r, n, key, id);
    assert s != src;
    OneHopOnce(net, src, key, s);
    assert c.byPeer[s] in OneHop(net, src, key, s);
    ClientWants(net, n, key, id);
    var f := d.byPeer[r];
    assert d.byPeer[n] in Second(net, src, key, s) by {
      assert f != d.byPeer[n];
      assert d.sessions[d.byPeer[n]].role.Client?;
      assert MayGo(d, Some(f), d.byPeer[n]);
    }
    assert c.byPeer[s] in c.sessions && d.byPeer[n] in d.sessions;
  }

  lemma ArrivesFar(net: Net, src: string, key: string, n: string, id: nat)
    requires Converged(net) && IsNode(net, src) && Wanted(net, n, id, key)
    requires n in net.clients && net.home[n] != EntryRouter(net, src)
    ensures |TwoHop(net, src, key, n)| == 1 && OneHop(net, src, key, n) == {} && n != src && n != EntryRouter(net, src)
  {
    var r := EntryRouter(net, src);
    var (u, v) := (net.cores[r].byPeer[net.home[n]], net.cores[net.home[n]].byPeer[n]);
    TwoHopArrives(net, src, key, n, id);
    TwoHopOnly(net, src, key, n, u, v);
    if n in net.cores[r].byPeer { PeerKind(net, r, n); }
    OneHopOnce(net, src, key, n);
  }

  lemma ArrivesNear(net: Net, src: string, key: string, n: string, id: nat)
    requires Converged(net) && IsNode(net, src) && Wanted(net, n, id, key)
    requires n != src && n != EntryRouter(net, src) && (n in net.clients ==> net.home[n] == EntryRouter(net, src))
    ensures |OneHop(net, src, key, n)| == 1
  {
    NearWants(net, src, key, n, id);
    WantedHop(net, src, key, n);
  }

  lemma WantedHop(net: Net, src: string, key: string, n: string)
    requires Wired(net) && IsNode(net, src) && n != src
    requires var c := net.cores[EntryRouter(net, src)]; n in c.byPeer && Wants(c, c.byPeer[n], net.kind, key)
    ensures |OneHop(net, src, key, n)| == 1
  {
    OneHopOnce(net, src, key, n);
  }

  lemma NearWants(net: Net, src: string, key: string, n: string, id: nat)
    requires Converged(net) && IsNode(net, src) && Wanted(net, n, id, key)
    requires n != src && n != EntryRouter(net, src) && (n in net.clients ==> net.home[n] == EntryRouter(net, src))
    ensures var c := net.cores[EntryRouter(net, src)]; n in c.byPeer && Wants(c, c.byPeer[n], net.kind, key)
  {
    var r := EntryRouter(net, src);
    assert RouterWired(net, r, net.cores[r]);
    if n in net.cores { RouterWantsForLocal(net, r, n, key, id); } else { ClientWants(net, n, key, id); }
  }

  lemma ArrivesHere(net: Net, src: string, key: string, n: string)
    requires Wired(net) && IsNode(net, src) && (n == src || n == EntryRouter(net, src))
    ensures OneHop(net, src, key, n) == {}
  {
    var r := EntryRouter(net, src);
    assert RouterWired(net, r, net.cores[r]);
    OneHopOnce(net, src, key, n);
  }

  /** A put arrives exactly once wherever it is wanted. */
  lemma ArrivesOnce(net: Net, src: string, key: string, n: string, id: nat)
    requires Converged(net) && IsNode(net, src) && Wanted(net, n, id, key)
    ensures Arrivals(net, src, key, n) == 1
  {
    var r := EntryRouter(net, src);
    if n in net.clients && net.home[n] != r {
      ArrivesFar(net, src, key, n, id);
    } else {
      NoTwoHop(net, src, key, n);
      if n != src && n != r { ArrivesNear(net, src, key, n, id); } else { ArrivesHere(net, src, key, n); }
    }
  }

  /** MAIN: wherever a put is made, every matching subscription of every node gets exactly one
      sample, and every other none; and likewise every matching queryable is asked exactly once. */
  lemma ExactlyOnce(net: Net, src: string, key: string, n: string, id: nat)
    requires Converged(net) && IsNode(net, src) && IsNode(net, n)
    ensures Samples(net, src, key, n, id) == if Wanted(net, n, id, key) then 1 else 0
  {
    if Wanted(net, n, id, key) { ArrivesOnce(net, src, key, n, id); }
  }
}
