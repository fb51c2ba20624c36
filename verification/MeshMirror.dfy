/** Runs of a router, and two routers talking to each other. */
module MeshMirror {
  import opened Wrappers
  import opened MeshMsg
  import opened MeshTables
  import opened MeshRouter
  import I = MeshIndex

  /** The peer does not give a declaration it already made another text, where that
      matters: a router's queryables enter no table. */
  predicate Conforms(c: Core, u: nat, key: DKey, e: string) {
    u in c.sessions && Decl(There(u), key) in c.live && c.live[Decl(There(u), key)] != e ==>
      key.kind.Qabl? && c.sessions[u].role.Router?
  }

  // ---------------------------------------------------------------- declaring again

  lemma SameTextOk(c: Core, u: nat, key: DKey, e: string)
    requires Inv(c) && u in c.sessions && Decl(There(u), key) in c.live && c.live[Decl(There(u), key)] == e
    ensures RemoteDeclare(c, u, key, e) == c
  {
    assert c.live[Decl(There(u), key) := e] == c.live;
  }

  /** A text that is in no table may change. */
  lemma FreeText(t: Tables, live: Live, clients: set<nat>, x: Decl, e: string)
    requires TablesOk(t, live, clients) && x in live && x.key.kind.Qabl? && !Exported(x, clients)
    ensures TablesOk(t, live[x := e], clients)
  {
    var other := live[x := e];
    forall k ensures CountOk(t.tok, other, k) {
      assert CountOk(t.tok, live, k);
      assert Holders(other, k) == Holders(live, k);
    }
    forall y | y in other ensures Routed(t, other, clients, y) { assert Routed(t, live, clients, y); }
    forall i | i in t.out ensures Backed(t, other, i) { BackedStill(t, t, live, other, i); }
  }

  /** A text that is in a table may not. */
  lemma StaleText(t: Tables, live: Live, clients: set<nat>, x: Decl, e: string)
    requires TablesOk(t, live, clients) && x in live && live[x] != e && (!x.key.kind.Qabl? || Exported(x, clients))
    ensures !TablesOk(t, live[x := e], clients)
  {
    var (other, was) := (live[x := e], live[x]);
    if x.key.kind.Token? {
      assert CountOk(t.tok, live, was);
      assert x in Holders(live, was);
      assert Holders(other, was) == Holders(live, was) - {x};
      assert !CountOk(t.tok, other, was);
    } else if x.key.kind.Sub? {
      assert t.subs[EntryOf(x)] == was;
    } else {
      assert Routed(t, live, clients, x);
      assert !Routed(t, other, clients, x);
    }
  }

  /** MAIN: a declaration keeps the invariant if and only if it conforms. */
  lemma DeclareExactly(c: Core, u: nat, key: DKey, e: string)
    requires Inv(c)
    ensures Inv(RemoteDeclare(c, u, key, e)) <==> Conforms(c, u, key, e)
  {
    var x := Decl(There(u), key);
    if u in c.sessions {
      if x !in c.live {
        NewRemoteOk(c, u, key, e);
      } else if c.live[x] == e {
        SameTextOk(c, u, key, e);
      } else {
        Redeclare(c, u, key, e);
      }
    }
  }

  lemma Redeclare(c: Core, u: nat, key: DKey, e: string)
    requires Inv(c) && u in c.sessions && Decl(There(u), key) in c.live && c.live[Decl(There(u), key)] != e
    ensures Inv(RemoteDeclare(c, u, key, e)) <==> key.kind.Qabl? && c.sessions[u].role.Router?
  {
    var x := Decl(There(u), key);
    var clients := Clients(c.sessions);
    if key.kind.Qabl? && c.sessions[u].role.Router? {
      FreeText(c.t, c.live, clients, x, e);
      ShapedKept(c, RemoteDeclare(c, u, key, e));
    } else {
      StaleText(c.t, c.live, clients, x, e);
    }
  }

  // ---------------------------------------------------------------- runs

  datatype Event =
    | LocalDecl(kind: DeclKind, expr: string)
    | LocalUndecl(key: DKey)
    | PeerDecl(uid: nat, key: DKey, expr: string)
    | PeerUndecl(uid: nat, key: DKey)
    | Up(peer: string, role: Role, order: seq<Decl>)
    | Down(uid: nat, order: seq<Decl>)
    | TakeId

  ghost predicate Enabled(c: Core, e: Event) {
    match e
    case PeerDecl(u, key, expr) => Conforms(c, u, key, expr)
    case Up(peer, _, order) => peer in c.byPeer ==> IsOrder(order, Of(c.live, c.byPeer[peer]))
    case Down(u, order) => u in c.sessions ==> IsOrder(order, Of(c.live, u))
    case _ => true
  }

  /** A query takes an id of the same counter. */
  function SkipId(c: Core): Core { c.(t := c.t.(nextId := c.t.nextId + 1)) }

  lemma SkipOut(t: Tables, live: Live, clients: set<nat>)
    requires TablesOk(t, live, clients)
    ensures TablesOk(t.(nextId := t.nextId + 1), live, clients)
  {
    var u := t.(nextId := t.nextId + 1);
    assert forall x :: RidOf(u, x) == RidOf(t, x);
    forall x | x in live ensures Routed(u, live, clients, x) { assert Routed(t, live, clients, x); }
    forall i | i in u.out ensures Backed(u, live, i) { BackedStill(t, u, live, live, i); }
  }

  lemma SkipIdOk(c: Core)
    requires Inv(c)
    ensures Inv(SkipId(c))
  {
    SkipOut(c.t, c.live, Clients(c.sessions));
    ShapedKept(c, SkipId(c));
  }

  /** An admitted connection replaces the session with that peer, if there is one. */
  ghost function Apply(c: Core, e: Event): Core
    requires Enabled(c, e)
  {
    match e
    case LocalDecl(kind, expr) => LocalDeclare(c, kind, expr)
    case LocalUndecl(key) => LocalUndeclare(c, key)
    case PeerDecl(u, key, expr) => RemoteDeclare(c, u, key, expr)
    case PeerUndecl(u, key) => RemoteUndeclare(c, u, key)
    case Up(peer, role, order) => Install(if peer in c.byPeer then CloseSession(c, c.byPeer[peer], order) else c, peer, role)
    case Down(u, order) => CloseSession(c, u, order)
    case TakeId => SkipId(c)
  }

  lemma ApplyOk(c: Core, e: Event)
    requires Inv(c) && Enabled(c, e)
    ensures Inv(Apply(c, e))
  {
    match e
    case LocalDecl(kind, expr) => LocalDeclareOk(c, kind, expr);
    case LocalUndecl(key) => LocalUndeclareOk(c, key);
    case PeerDecl(u, key, expr) => DeclareExactly(c, u, key, expr);
    case PeerUndecl(u, key) => RemoteUndeclareOk(c, u, key);
    case Up(peer, role, order) => UpOk(c, peer, role, order);
    case Down(u, order) => CloseOk(c, u, order);
    case TakeId => SkipIdOk(c);
  }

  lemma PeerGone(c: Core, d: Core, peer: string)
    requires PeersOk(c) && PeersOk(d) && peer in c.byPeer && d.sessions == c.sessions - {c.byPeer[peer]}
    ensures peer !in d.byPeer
  {
  }

  lemma UpOk(c: Core, peer: string, role: Role, order: seq<Decl>)
    requires Inv(c) && Enabled(c, Up(peer, role, order))
    ensures Inv(Apply(c, Up(peer, role, order)))
  {
    if peer in c.byPeer {
      var u := c.byPeer[peer];
      CloseOk(c, u, order);
      var d := CloseSession(c, u, order);
      PeerGone(c, d, peer);
      InstallOk(d, peer, role);
    } else {
      InstallOk(c, peer, role);
    }
  }

  ghost predicate IsRun(c: Core, es: seq<Event>)
    decreases |es|
  {
    es == [] || (Enabled(c, es[0]) && IsRun(Apply(c, es[0]), es[1..]))
  }

  ghost function Run(c: Core, es: seq<Event>): Core
    requires IsRun(c, es)
    decreases |es|
  {
    if es == [] then c else Run(Apply(c, es[0]), es[1..])
  }

  lemma {:induction false} RunOk(c: Core, es: seq<Event>)
    requires Inv(c) && IsRun(c, es)
    ensures Inv(Run(c, es))
    decreases |es|
  {
    if es != [] {
      ApplyOk(c, es[0]);
      RunOk(Apply(c, es[0]), es[1..]);
    }
  }

  lemma NewCoreOk()
    ensures Inv(NewCore)
  {
  }

  /** MAIN: in every state a conforming run reaches, tokens are counted exactly, the index
      holds exactly the live subscriptions, exactly the own and the clients' declarations
      are out, each as it was made and under its own id, every peer router was told exactly
      what is out, nothing twice, and byPeer is the inverse of sessions. */
  lemma RouterTables(es: seq<Event>)
    requires IsRun(NewCore, es)
    ensures var c := Run(NewCore, es);
            && TokOk(c.t.tok, c.live)
            && SubsOk(c.t.subs, c.live)
            && OutOk(c.t, c.live, Clients(c.sessions))
            && (forall u :: u in c.sessions && c.sessions[u].role.Router? ==> u in c.logs && Told(c.logs[u], c.t.out))
            && PeersOk(c)
  {
    NewCoreOk();
    RunOk(NewCore, es);
  }

  /** A peer comes up and declares a token with text a. */
  function OneToken(peer: string, role: Role, id: nat, a: string): seq<Event> {
    [Up(peer, role, []), PeerDecl(1, DKey(Token, id), a)]
  }

  lemma OneTokenOk(peer: string, role: Role, id: nat, a: string)
    ensures IsRun(NewCore, OneToken(peer, role, id, a))
    ensures var c := Run(NewCore, OneToken(peer, role, id, a));
            && Inv(c) && c.sessions == map[1 := Sess(peer, role)] && c.byPeer == map[peer := 1]
            && c.live == map[Decl(There(1), DKey(Token, id)) := a] && c.t.tok == map[a := 1]
  {
    var (es, up) := (OneToken(peer, role, id, a), Install(NewCore, peer, role));
    assert es[1..] == [PeerDecl(1, DKey(Token, id), a)] && es[1..][1..] == [];
    assert Apply(NewCore, es[0]) == up;
    var c := RemoteDeclare(up, 1, DKey(Token, id), a);
    assert Run(up, es[1..]) == Run(c, []);
    NewCoreOk();
    RunOk(NewCore, es);
  }

  /** The failing input of DeclareExactly, for any texts a and b: once the declared token is
      given another text the invariant is gone, and its old text stays counted after its session
      has closed and nothing is live. */
  lemma RetextedTokenStays(peer: string, role: Role, id: nat, a: string, b: string)
    requires a != b
    ensures IsRun(NewCore, OneToken(peer, role, id, a))
    ensures var twice := RemoteDeclare(Run(NewCore, OneToken(peer, role, id, a)), 1, DKey(Token, id), b);
            var order := [Decl(There(1), DKey(Token, id))];
            && !Inv(twice) && 1 in twice.sessions && IsOrder(order, Of(twice.live, 1))
            && var gone := CloseSession(twice, 1, order);
               gone.sessions == map[] && gone.live == map[] && gone.t.tok == map[a := 1] && !Inv(gone)
  {
    OneTokenOk(peer, role, id, a);
    var (key, x) := (DKey(Token, id), Decl(There(1), DKey(Token, id)));
    var once := Run(NewCore, OneToken(peer, role, id, a));
    var twice := RemoteDeclare(once, 1, key, b);
    DeclareExactly(once, 1, key, b);
    assert twice.live == map[x := b] && Of(twice.live, 1) == map[x := b];
    LeftCounted(twice, x, a, b);
  }

  lemma LeftCounted(c: Core, x: Decl, a: string, b: string)
    requires x == Decl(There(1), DKey(Token, x.key.id)) && a != b && c.sessions.Keys == {1}
    requires c.live == map[x := b] && Of(c.live, 1) == map[x := b] && c.t.tok == map[a := 1]
    ensures IsOrder([x], Of(c.live, 1))
    ensures var gone := CloseSession(c, 1, [x]);
            gone.sessions == map[] && gone.live == map[] && gone.t.tok == map[a := 1] && !Inv(gone)
  {
    var (mid, gone) := (Forget(c, 1), CloseSession(c, 1, [x]));
    RetireAllShape(mid, Of(c.live, 1), [x]);
    assert [x][1..] == [];
    assert gone == RetireAll(Retire(mid, x, b), Of(c.live, 1), []);
    assert Holders(gone.live, a) == {};
    assert !CountOk(gone.t.tok, gone.live, a);
  }

  lemma NothingOf(t: Tables, live: Live, clients: set<nat>, u: nat)
    requires TablesOk(t, live, clients) && forall x :: x in live ==> x.who != There(u)
    ensures forall e :: e in t.subs ==> e.0 != I.Sess(u)
    ensures forall s :: s in t.south ==> s.0 != u
    ensures forall i :: i in t.out ==> exists x :: x in live && x.who != There(u) && RidOf(t, x) == Some(i)
  {
    forall e | e in t.subs ensures e.0 != I.Sess(u) { assert DeclOf(e) in live; }
    forall i | i in t.out ensures exists x :: x in live && x.who != There(u) && RidOf(t, x) == Some(i) {
      assert Backed(t, live, i);
    }
  }

  lemma CountWithout(t: Tables, live: Live, rest: Live, u: nat, k: string)
    requires TokOk(t.tok, rest) && rest == live - Of(live, u).Keys
    ensures (if k in t.tok then t.tok[k] else 0) == |Holders(live, k) - Holders(Of(live, u), k)|
  {
    assert CountOk(t.tok, rest, k);
    assert Holders(rest, k) == Holders(live, k) - Holders(Of(live, u), k);
  }

  /** MAIN: a closed session leaves nothing behind. */
  lemma CloseLeavesNothing(c: Core, u: nat, order: seq<Decl>)
    requires Inv(c) && (u in c.sessions ==> IsOrder(order, Of(c.live, u)))
    ensures var r := CloseSession(c, u, order);
            && u !in r.sessions && u !in r.logs && (forall p :: p in r.byPeer ==> r.byPeer[p] != u)
            && r.live == c.live - Of(c.live, u).Keys
            && (forall e :: e in r.t.subs ==> e.0 != I.Sess(u))
            && (forall s :: s in r.t.south ==> s.0 != u)
            && (forall i :: i in r.t.out ==> exists x :: x in r.live && x.who != There(u) && RidOf(r.t, x) == Some(i))
    ensures forall k :: (var r := CloseSession(c, u, order); if k in r.t.tok then r.t.tok[k] else 0)
                        == |Holders(c.live, k) - Holders(Of(c.live, u), k)|
  {
    CloseOk(c, u, order);
    var r := CloseSession(c, u, order);
    NothingOf(r.t, r.live, Clients(r.sessions), u);
    forall k ensures (if k in r.t.tok then r.t.tok[k] else 0) == |Holders(c.live, k) - Holders(Of(c.live, u), k)| {
      CountWithout(r.t, c.live, r.live, u, k);
    }
  }

  // ---------------------------------------------------------------- two routers

  /** A peer takes in a log, note by note. */
  function Hear(c: Core, u: nat, log: seq<Note>): Core {
    if log == [] then c else
    var before := Hear(c, u, log[..|log| - 1]);
    match log[|log| - 1]
    case Declared(key, e) => RemoteDeclare(before, u, key, e)
    case Undeclared(key) => RemoteUndeclare(before, u, key)
  }

  /** Session u of c holds exactly m. */
  ghost predicate Holds(c: Core, u: nat, m: map<DKey, string>) {
    && (forall key :: Decl(There(u), key) in c.live <==> key in m)
    && (forall key :: key in m ==> c.live[Decl(There(u), key)] == m[key])
  }

  lemma HoldsDeclared(c: Core, u: nat, m: map<DKey, string>, key: DKey, e: string)
    requires u in c.sessions && Holds(c, u, m) && key !in m
    ensures var r := RemoteDeclare(c, u, key, e); r.sessions == c.sessions && Holds(r, u, m[key := e])
  {
    assert RemoteDeclare(c, u, key, e).live == c.live[Decl(There(u), key) := e];
  }

  lemma HoldsUndeclared(c: Core, u: nat, m: map<DKey, string>, key: DKey)
    requires u in c.sessions && Holds(c, u, m)
    ensures var r := RemoteUndeclare(c, u, key); r.sessions == c.sessions && Holds(r, u, m - {key})
  {
  }

  /** A clean log conforms, and what is held is its replay, after every prefix. */
  lemma {:induction false} HearReplays(c: Core, u: nat, log: seq<Note>)
    requires Inv(c) && u in c.sessions && Holds(c, u, map[]) && Clean(log)
    ensures Inv(Hear(c, u, log)) && Hear(c, u, log).sessions == c.sessions && Holds(Hear(c, u, log), u, Replay(log))
  {
    if log != [] {
      var (before, n) := (log[..|log| - 1], log[|log| - 1]);
      HearReplays(c, u, before);
      var b := Hear(c, u, before);
      match n
      case Declared(key, e) =>
        HoldsDeclared(b, u, Replay(before), key, e);
        NewRemoteOk(b, u, key, e);
      case Undeclared(key) =>
        HoldsUndeclared(b, u, Replay(before), key);
        RemoteUndeclareOk(b, u, key);
    }
  }

  /** MAIN: a peer router that took in all it was told by a holds, on its session with a,
      exactly what is out at a, and its own tables count it so. */
  lemma PeerHoldsOut(a: Core, ua: nat, b: Core, ub: nat)
    requires Inv(a) && ua in a.logs && Inv(b) && ub in b.sessions && Holds(b, ub, map[])
    ensures var r := Hear(b, ub, a.logs[ua]);
            && Inv(r)
            && (forall key :: Decl(There(ub), key) in r.live <==> key.id in a.t.out && a.t.out[key.id].0 == key.kind)
            && (forall key :: Decl(There(ub), key) in r.live ==> r.live[Decl(There(ub), key)] == a.t.out[key.id].1)
  {
    assert Told(a.logs[ua], a.t.out);
    HearReplays(b, ub, a.logs[ua]);
    var m := Replay(a.logs[ua]);
    forall key: DKey | key.id in a.t.out && a.t.out[key.id].0 == key.kind ensures key in m {
      assert DKey(a.t.out[key.id].0, key.id) == key;
    }
  }
}
