/** A router of the mesh: sessions, declarations made here and by peers, and what
    each peer router has been told since its session came up. */
module MeshRouter {
  import opened Wrappers
  import opened MeshMsg
  import opened MeshTables

  datatype Sess = Sess(peer: string, role: Role)

  type Sessions = map<nat, Sess>

  type Out = map<nat, (DeclKind, string)>

  /** What was said to each peer router since its session came up, a history. */
  type Logs = map<nat, seq<Note>>

  /** live: the local tables and the tables of the sessions, as one. */
  datatype Core = Core(nextUid: nat, sessions: Sessions, byPeer: map<string, nat>, live: Live, t: Tables, logs: Logs)

  const NewCore := Core(1, map[], map[], map[], NewTables, map[])

  // ---------------------------------------------------------------- steps

  function Announce(logs: Logs, n: Note): Logs { map u | u in logs :: logs[u] + [n] }

  /** A new declaration that the other routers are told of, under the next id. */
  function Export(c: Core, x: Decl, e: string): Core {
    c.(live := c.live[x := e],
       t := Enter(c.t, x, e, Some(c.t.nextId)),
       logs := Announce(c.logs, Declared(DKey(x.key.kind, c.t.nextId), e)))
  }

  function LocalDeclare(c: Core, kind: DeclKind, e: string): Core {
    Export(c, Decl(Here, DKey(kind, c.t.nextId)), e)
  }

  /** Take x out of the tables and tell the other routers, if they knew it. */
  function Retire(c: Core, x: Decl, e: string): Core {
    var rid := RidOf(c.t, x);
    c.(t := Drop(c.t, x, e),
       logs := if rid.Some? then Announce(c.logs, Undeclared(DKey(x.key.kind, rid.value))) else c.logs)
  }

  function Withdraw(c: Core, x: Decl): Core
    requires x in c.live
  {
    Retire(c.(live := c.live - {x}), x, c.live[x])
  }

  /** The index is told even if there is nothing to undeclare. */
  function LocalUndeclare(c: Core, key: DKey): Core {
    var x := Decl(Here, key);
    if x in c.live then Withdraw(c, x)
    else if key.kind.Sub? then c.(t := c.t.(subs := c.t.subs - {EntryOf(x)}))
    else c
  }

  /** A declaration that is known already only has its text replaced. */
  function RemoteDeclare(c: Core, u: nat, key: DKey, e: string): Core {
    var x := Decl(There(u), key);
    if u !in c.sessions then c
    else if x in c.live then c.(live := c.live[x := e])
    else if c.sessions[u].role.Client? then Export(c, x, e)
    else c.(live := c.live[x := e], t := Enter(c.t, x, e, None))
  }

  function RemoteUndeclare(c: Core, u: nat, key: DKey): Core {
    var x := Decl(There(u), key);
    if u !in c.sessions || x !in c.live then c else Withdraw(c, x)
  }

  /** All outgoing declarations below n, in order of id. */
  function OutLog(out: Out, n: nat): seq<Note> {
    if n == 0 then [] else
    OutLog(out, n - 1) + (if n - 1 in out then [Declared(DKey(out[n - 1].0, n - 1), out[n - 1].1)] else [])
  }

  /** A new session; a router is told everything that is out. */
  function Install(c: Core, peer: string, role: Role): Core {
    c.(nextUid := c.nextUid + 1,
       sessions := c.sessions[c.nextUid := Sess(peer, role)],
       byPeer := c.byPeer[peer := c.nextUid],
       logs := if role.Router? then c.logs[c.nextUid := OutLog(c.t.out, c.t.nextId)] else c.logs)
  }

  /** The declarations a session made. */
  function Of(live: Live, u: nat): Live { map x | x in live && x.who == There(u) :: live[x] }

  /** Retire the declarations of a session that is gone, in some order. */
  function RetireAll(c: Core, decls: Live, order: seq<Decl>): Core
    requires forall x :: x in order ==> x in decls
    decreases |order|
  {
    if order == [] then c else RetireAll(Retire(c, order[0], decls[order[0]]), decls, order[1..])
  }

  ghost predicate IsOrder(order: seq<Decl>, decls: Live) {
    && (forall i, j :: 0 <= i < j < |order| ==> order[i] != order[j])
    && (forall x :: x in order <==> x in decls)
  }

  /** The session is gone, what it declared is not yet retired. */
  function Forget(c: Core, u: nat): Core
    requires u in c.sessions
  {
    var p := c.sessions[u].peer;
    c.(sessions := c.sessions - {u}, logs := c.logs - {u}, live := c.live - Of(c.live, u).Keys,
       byPeer := if p in c.byPeer && c.byPeer[p] == u then c.byPeer - {p} else c.byPeer)
  }

  /** The declarations are visited in the order of a hash table, that is in any order. */
  ghost function CloseSession(c: Core, u: nat, order: seq<Decl>): Core
    requires u in c.sessions ==> IsOrder(order, Of(c.live, u))
  {
    if u !in c.sessions then c else RetireAll(Forget(c, u), Of(c.live, u), order)
  }

  ghost function Clients(ss: Sessions): set<nat> { set u | u in ss && ss[u].role.Client? }

  // ---------------------------------------------------------------- what the peers were told

  /** What a peer holds after taking in a log. */
  function Replay(log: seq<Note>): map<DKey, string> {
    if log == [] then map[] else
    var before := Replay(log[..|log| - 1]);
    match log[|log| - 1]
    case Declared(key, e) => before[key := e]
    case Undeclared(key) => before - {key}
  }

  /** Nothing is declared twice and only what was declared is withdrawn. */
  predicate Clean(log: seq<Note>) {
    log == [] ||
    (var before := log[..|log| - 1];
     var n := log[|log| - 1];
     Clean(before) && (if n.Declared? then n.key !in Replay(before) else n.key in Replay(before)))
  }

  ghost predicate Mirrors(m: map<DKey, string>, out: Out) {
    && (forall d :: d in m ==> d.id in out && out[d.id] == (d.kind, m[d]))
    && (forall i :: i in out ==> DKey(out[i].0, i) in m)
  }

  ghost predicate Told(log: seq<Note>, out: Out) { Clean(log) && Mirrors(Replay(log), out) }

  ghost predicate AllTold(logs: Logs, out: Out) { forall u :: u in logs ==> Told(logs[u], out) }

  lemma SayDeclared(log: seq<Note>, out: Out, key: DKey, e: string)
    requires Told(log, out) && key.id !in out
    ensures Told(log + [Declared(key, e)], out[key.id := (key.kind, e)])
  {
    var more := log + [Declared(key, e)];
    assert more[..|more| - 1] == log;
  }

  lemma SayUndeclared(log: seq<Note>, out: Out, key: DKey)
    requires Told(log, out) && key.id in out && out[key.id].0 == key.kind
    ensures Told(log + [Undeclared(key)], out - {key.id})
  {
    var more := log + [Undeclared(key)];
    assert more[..|more| - 1] == log;
  }

  lemma TellDeclared(logs: Logs, out: Out, key: DKey, e: string)
    requires AllTold(logs, out) && key.id !in out
    ensures AllTold(Announce(logs, Declared(key, e)), out[key.id := (key.kind, e)])
  {
    forall u | u in logs ensures Told(logs[u] + [Declared(key, e)], out[key.id := (key.kind, e)]) {
      SayDeclared(logs[u], out, key, e);
    }
  }

  lemma TellUndeclared(logs: Logs, out: Out, key: DKey)
    requires AllTold(logs, out) && key.id in out && out[key.id].0 == key.kind
    ensures AllTold(Announce(logs, Undeclared(key)), out - {key.id})
  {
    forall u | u in logs ensures Told(logs[u] + [Undeclared(key)], out - {key.id}) {
      SayUndeclared(logs[u], out, key);
    }
  }

  function Below(out: Out, n: nat): Out { map i | i in out && i < n :: out[i] }

  lemma BelowNext(out: Out, n: nat)
    ensures Below(out, n + 1) == if n in out then Below(out, n)[n := out[n]] else Below(out, n)
  {
  }

  lemma {:induction false} OutLogTells(out: Out, n: nat)
    ensures Told(OutLog(out, n), Below(out, n))
  {
    if n > 0 {
      OutLogTells(out, n - 1);
      if n - 1 in out {
        SayDeclared(OutLog(out, n - 1), Below(out, n - 1), DKey(out[n - 1].0, n - 1), out[n - 1].1);
        BelowNext(out, n - 1);
      } else {
        BelowNext(out, n - 1);
        assert OutLog(out, n - 1) + [] == OutLog(out, n - 1);
      }
    }
  }

  // ---------------------------------------------------------------- the invariant

  /** byPeer is the inverse of sessions; every peer router has a log. */
  ghost predicate PeersOk(c: Core) {
    && (forall p :: p in c.byPeer ==> c.byPeer[p] in c.sessions && c.sessions[c.byPeer[p]].peer == p)
    && (forall u :: u in c.sessions ==> c.sessions[u].peer in c.byPeer && c.byPeer[c.sessions[u].peer] == u && u < c.nextUid)
    && (forall u :: u in c.logs <==> u in c.sessions && c.sessions[u].role.Router?)
  }

  /** Tables and logs fit the given live declarations. */
  ghost predicate Fits(t: Tables, logs: Logs, live: Live, clients: set<nat>) {
    TablesOk(t, live, clients) && AllTold(logs, t.out)
  }

  /** Only peers with a session have declarations. */
  ghost predicate Owned(live: Live, ss: Sessions) { forall x :: x in live && x.who.There? ==> x.who.uid in ss }

  ghost predicate Sound(c: Core) { Fits(c.t, c.logs, c.live, Clients(c.sessions)) }

  ghost predicate Shaped(c: Core) { Owned(c.live, c.sessions) && PeersOk(c) }

  ghost predicate Inv(c: Core) { Sound(c) && Shaped(c) }

  lemma ShapedKept(a: Core, b: Core)
    requires Shaped(a) && b.sessions == a.sessions && b.byPeer == a.byPeer && b.nextUid == a.nextUid && b.logs.Keys == a.logs.Keys
    requires forall x :: x in b.live && x !in a.live && x.who.There? ==> x.who.uid in a.sessions
    ensures Shaped(b)
  {
  }

  lemma RetireFits(c: Core, live: Live, clients: set<nat>, x: Decl)
    requires Fits(c.t, c.logs, live, clients) && x in live
    ensures var r := Retire(c, x, live[x]); Fits(r.t, r.logs, live - {x}, clients)
  {
    DropOk(c.t, live, clients, x);
    assert Routed(c.t, live, clients, x);
    var rid := RidOf(c.t, x);
    if rid.Some? { TellUndeclared(c.logs, c.t.out, DKey(x.key.kind, rid.value)); }
  }

  lemma NextIsFresh(t: Tables, live: Live, clients: set<nat>, kind: DeclKind)
    requires TablesOk(t, live, clients)
    ensures t.nextId !in t.out && Decl(Here, DKey(kind, t.nextId)) !in live
  {
    var x := Decl(Here, DKey(kind, t.nextId));
    assert RidOf(t, x) == Some(t.nextId);
    assert x in live ==> Routed(t, live, clients, x);
  }

  // ---------------------------------------------------------------- every step keeps the invariant

  lemma ExportTold(c: Core, x: Decl, e: string)
    requires AllTold(c.logs, c.t.out) && c.t.nextId !in c.t.out
    ensures AllTold(Export(c, x, e).logs, Export(c, x, e).t.out)
  {
    TellDeclared(c.logs, c.t.out, DKey(x.key.kind, c.t.nextId), e);
  }

  lemma ExportSound(c: Core, x: Decl, e: string)
    requires Sound(c) && x !in c.live && Exported(x, Clients(c.sessions)) && (x.who.Here? ==> x.key.id == c.t.nextId)
    ensures Sound(Export(c, x, e))
  {
    NextIsFresh(c.t, c.live, Clients(c.sessions), x.key.kind);
    EnterOk(c.t, c.live, Clients(c.sessions), x, e, Some(c.t.nextId));
    ExportTold(c, x, e);
  }

  lemma LocalDeclareSound(c: Core, kind: DeclKind, e: string)
    requires Sound(c)
    ensures Sound(LocalDeclare(c, kind, e))
  {
    NextIsFresh(c.t, c.live, Clients(c.sessions), kind);
    ExportSound(c, Decl(Here, DKey(kind, c.t.nextId)), e);
  }

  lemma LocalDeclareOk(c: Core, kind: DeclKind, e: string)
    requires Inv(c)
    ensures Inv(LocalDeclare(c, kind, e))
  {
    LocalDeclareSound(c, kind, e);
    ShapedKept(c, LocalDeclare(c, kind, e));
  }

  lemma WithdrawOk(c: Core, x: Decl)
    requires Inv(c) && x in c.live
    ensures Inv(Withdraw(c, x))
  {
    RetireFits(c.(live := c.live - {x}), c.live, Clients(c.sessions), x);
  }

  lemma NothingToUndeclare(c: Core, key: DKey)
    requires SubsOk(c.t.subs, c.live) && Decl(Here, key) !in c.live
    ensures LocalUndeclare(c, key) == c && c.live == c.live - {Decl(Here, key)}
  {
    var x := Decl(Here, key);
    if key.kind.Sub? {
      assert DeclOf(EntryOf(x)) == x;
      assert EntryOf(x) !in c.t.subs;
      assert c.t.subs - {EntryOf(x)} == c.t.subs;
    }
  }

  lemma LocalUndeclareOk(c: Core, key: DKey)
    requires Inv(c)
    ensures Inv(LocalUndeclare(c, key)) && LocalUndeclare(c, key).live == c.live - {Decl(Here, key)}
  {
    var x := Decl(Here, key);
    if x in c.live { WithdrawOk(c, x); } else { NothingToUndeclare(c, key); }
  }

  lemma RemoteUndeclareOk(c: Core, u: nat, key: DKey)
    requires Inv(c)
    ensures Inv(RemoteUndeclare(c, u, key)) && RemoteUndeclare(c, u, key).live == c.live - {Decl(There(u), key)}
  {
    var x := Decl(There(u), key);
    if x in c.live { WithdrawOk(c, x); } else { assert c.live - {x} == c.live; }
  }

  lemma NewRemoteSound(c: Core, u: nat, key: DKey, e: string)
    requires Sound(c) && u in c.sessions && Decl(There(u), key) !in c.live
    ensures Sound(RemoteDeclare(c, u, key, e))
  {
    var x := Decl(There(u), key);
    if c.sessions[u].role.Client? { ExportSound(c, x, e); } else { EnterOk(c.t, c.live, Clients(c.sessions), x, e, None); }
  }

  lemma NewRemoteOk(c: Core, u: nat, key: DKey, e: string)
    requires Inv(c) && u in c.sessions && Decl(There(u), key) !in c.live
    ensures Inv(RemoteDeclare(c, u, key, e))
  {
    NewRemoteSound(c, u, key, e);
    ShapedKept(c, RemoteDeclare(c, u, key, e));
  }

  /** Clients without declarations make no difference. */
  lemma ClientsMatterOnlyIfLive(t: Tables, live: Live, a: set<nat>, b: set<nat>)
    requires TablesOk(t, live, a) && forall x :: x in live && x.who.There? ==> (x.who.uid in a <==> x.who.uid in b)
    ensures TablesOk(t, live, b)
  {
    forall x | x in live ensures Routed(t, live, b, x) { assert Routed(t, live, a, x); }
  }

  lemma InstallShaped(c: Core, peer: string, role: Role)
    requires Shaped(c) && peer !in c.byPeer
    ensures Shaped(Install(c, peer, role))
  {
  }

  lemma InstallSound(c: Core, peer: string, role: Role)
    requires Sound(c) && Owned(c.live, c.sessions) && c.nextUid !in c.sessions
    ensures Sound(Install(c, peer, role))
  {
    OutLogTells(c.t.out, c.t.nextId);
    assert Below(c.t.out, c.t.nextId) == c.t.out;
    var ss := c.sessions[c.nextUid := Sess(peer, role)];
    forall x | x in c.live && x.who.There? ensures x.who.uid in Clients(c.sessions) <==> x.who.uid in Clients(ss) { }
    ClientsMatterOnlyIfLive(c.t, c.live, Clients(c.sessions), Clients(ss));
  }

  lemma InstallOk(c: Core, peer: string, role: Role)
    requires Inv(c) && peer !in c.byPeer
    ensures Inv(Install(c, peer, role))
  {
    InstallShaped(c, peer, role);
    InstallSound(c, peer, role);
  }

  function Without(live: Live, order: seq<Decl>): Live { map x | x in live && x !in order :: live[x] }

  lemma {:induction false} RetireAllFits(c: Core, decls: Live, order: seq<Decl>, live: Live, clients: set<nat>)
    requires Fits(c.t, c.logs, live, clients)
    requires forall i, j :: 0 <= i < j < |order| ==> order[i] != order[j]
    requires forall x :: x in order ==> x in decls && x in live && live[x] == decls[x]
    ensures Fits(RetireAll(c, decls, order).t, RetireAll(c, decls, order).logs, Without(live, order), clients)
    decreases |order|
  {
    if order == [] {
      assert live == Without(live, order);
    } else {
      var x := order[0];
      RetireFits(c, live, clients, x);
      RetireAllFits(Retire(c, x, decls[x]), decls, order[1..], live - {x}, clients);
      assert Without(live - {x}, order[1..]) == Without(live, order);
    }
  }

  lemma {:induction false} RetireAllShape(c: Core, decls: Live, order: seq<Decl>)
    requires forall x :: x in order ==> x in decls
    ensures var r := RetireAll(c, decls, order);
            && r.logs.Keys == c.logs.Keys && r.sessions == c.sessions && r.byPeer == c.byPeer
            && r.nextUid == c.nextUid && r.live == c.live
    decreases |order|
  {
    if order != [] { RetireAllShape(Retire(c, order[0], decls[order[0]]), decls, order[1..]); }
  }

  lemma ForgetShaped(c: Core, u: nat)
    requires Shaped(c) && u in c.sessions
    ensures Shaped(Forget(c, u))
  {
  }

  lemma FewerClients(t: Tables, live: Live, ss: Sessions, u: nat)
    requires TablesOk(t, live, Clients(ss)) && forall x :: x in live ==> x.who != There(u)
    ensures TablesOk(t, live, Clients(ss - {u}))
  {
    forall x | x in live && x.who.There? ensures x.who.uid in Clients(ss) <==> x.who.uid in Clients(ss - {u}) { }
    ClientsMatterOnlyIfLive(t, live, Clients(ss), Clients(ss - {u}));
  }

  lemma LessTold(logs: Logs, out: Out, u: nat)
    requires AllTold(logs, out)
    ensures AllTold(logs - {u}, out)
  {
  }

  lemma CloseSound(c: Core, u: nat, order: seq<Decl>)
    requires Sound(c) && u in c.sessions && IsOrder(order, Of(c.live, u))
    ensures Sound(CloseSession(c, u, order))
  {
    var (mid, decls) := (Forget(c, u), Of(c.live, u));
    LessTold(c.logs, c.t.out, u);
    RetireAllFits(mid, decls, order, c.live, Clients(c.sessions));
    RetireAllShape(mid, decls, order);
    var r := CloseSession(c, u, order);
    assert Without(c.live, order) == mid.live;
    FewerClients(r.t, r.live, c.sessions, u);
  }

  lemma CloseOk(c: Core, u: nat, order: seq<Decl>)
    requires Inv(c) && (u in c.sessions ==> IsOrder(order, Of(c.live, u)))
    ensures Inv(CloseSession(c, u, order))
    ensures CloseSession(c, u, order).live == c.live - Of(c.live, u).Keys && CloseSession(c, u, order).sessions == c.sessions - {u}
  {
    if u in c.sessions {
      CloseSound(c, u, order);
      ForgetShaped(c, u);
      RetireAllShape(Forget(c, u), Of(c.live, u), order);
      ShapedKept(Forget(c, u), CloseSession(c, u, order));
    } else {
      assert c.sessions - {u} == c.sessions;
      assert c.live - Of(c.live, u).Keys == c.live;
    }
  }
}
