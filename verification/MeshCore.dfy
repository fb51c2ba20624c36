/** The router as it runs: one object whose tables its methods update in place. */
module MeshCore {
  import opened Wrappers
  import opened MeshMsg
  import opened MeshTables
  import R = MeshRouter
  import X = MeshMirror
  import I = MeshIndex
  import D = MeshDelivery
  import K = KeyExpr

  class Router {
    var nextUid: nat
    var nextId: nat
    var sessions: R.Sessions
    var byPeer: map<string, nat>
    var live: Live
    var tok: map<string, nat>
    const index: I.SubIndex
    var out: R.Out
    var south: map<(nat, DKey), nat>
    /** The declarations and withdrawals handed to the outbox of each peer router. */
    var logs: R.Logs

    function Now(): R.Core
      reads this, index
    {
      R.Core(nextUid, sessions, byPeer, live, Tables(tok, index.exprs, out, south, nextId), logs)
    }

    ghost predicate Valid()
      reads this, index
    {
      index.Valid() && R.Inv(Now())
    }

    constructor ()
      ensures Valid() && Now() == R.NewCore && fresh(index)
    {
      index := new I.SubIndex();
      nextUid, nextId, sessions, byPeer, live := 1, 1, map[], map[], map[];
      tok, out, south, logs := map[], map[], map[], map[];
      new;
      X.NewCoreOk();
    }

    method Announce(n: Note)
      modifies this`logs
      ensures logs == R.Announce(old(logs), n)
    {
      var todo := logs.Keys;
      while todo != {}
        invariant todo <= logs.Keys == old(logs).Keys
        invariant forall u :: u in logs ==> logs[u] == if u in todo then old(logs)[u] else old(logs)[u] + [n]
        decreases todo
      {
        var u :| u in todo;
        logs := logs[u := logs[u] + [n]];
        todo := todo - {u};
      }
    }

    method CountUp(k: string)
      modifies this`tok
      ensures tok == TokAdd(old(tok), k)
    {
      if k in tok { tok := tok[k := tok[k] + 1]; } else { tok := tok[k := 1]; }
    }

    /** Whether the last one went. */
    method CountDown(k: string) returns (deleted: bool)
      modifies this`tok
      ensures tok == TokDel(old(tok), k)
      ensures deleted <==> k in old(tok) && k !in tok
    {
      if k !in tok { return false; }
      if tok[k] > 1 {
        tok := tok[k := tok[k] - 1];
        return false;
      }
      tok := tok - {k};
      deleted := true;
    }

    method Index(x: Decl, e: string)
      requires index.Valid()
      modifies this`tok, index
      ensures tok == if x.key.kind.Token? then TokAdd(old(tok), e) else old(tok)
      ensures index.Valid()
      ensures index.exprs == if x.key.kind.Sub? then old(index.exprs)[EntryOf(x) := e] else old(index.exprs)
    {
      match x.key.kind
      case Token => CountUp(e);
      case Sub => index.Add(EntryOf(x).0, EntryOf(x).1, e);
      case Qabl =>
    }

    method Unindex(x: Decl, e: string) returns (deleted: bool)
      requires index.Valid()
      modifies this`tok, index
      ensures tok == if x.key.kind.Token? then TokDel(old(tok), e) else old(tok)
      ensures index.Valid()
      ensures index.exprs == if x.key.kind.Sub? then old(index.exprs) - {EntryOf(x)} else old(index.exprs)
    {
      deleted := false;
      match x.key.kind
      case Token => deleted := CountDown(e);
      case Sub => index.Remove(EntryOf(x).0, EntryOf(x).1);
      case Qabl =>
    }

    method Declare(kind: DeclKind, e: string) returns (id: nat)
      requires index.Valid()
      modifies this, index
      ensures index.Valid()
      ensures Now() == R.LocalDeclare(old(Now()), kind, e) && id == old(nextId)
    {
      id := nextId;
      var x := Decl(Here, DKey(kind, id));
      nextId := nextId + 1;
      Index(x, e);
      live := live[x := e];
      out := out[id := (kind, e)];
      Announce(Declared(x.key, e));
    }

    method Undeclare(key: DKey)
      requires index.Valid()
      modifies this, index
      ensures index.Valid()
      ensures Now() == R.LocalUndeclare(old(Now()), key)
    {
      var x := Decl(Here, key);
      if x in live {
        var e := live[x];
        live := live - {x};
        var _ := Unindex(x, e);
        out := out - {key.id};
        Announce(MeshTables.Undeclared(key));
      } else if key.kind.Sub? {
        index.Remove(EntryOf(x).0, EntryOf(x).1);
      }
    }

    /** A client's declaration goes out under an id of this node. */
    method Image(u: nat, key: DKey, e: string)
      modifies this`nextId, this`south, this`out, this`logs
      ensures nextId == old(nextId) + 1 && south == old(south)[(u, key) := old(nextId)]
      ensures out == old(out)[old(nextId) := (key.kind, e)]
      ensures logs == R.Announce(old(logs), Declared(DKey(key.kind, old(nextId)), e))
    {
      var rid := nextId;
      nextId := nextId + 1;
      south := south[(u, key) := rid];
      out := out[rid := (key.kind, e)];
      Announce(Declared(DKey(key.kind, rid), e));
    }

    /** A declaration arrives from the peer of session u. */
    method OnDeclare(u: nat, key: DKey, e: string)
      requires index.Valid()
      modifies this, index
      ensures index.Valid()
      ensures Now() == R.RemoteDeclare(old(Now()), u, key, e)
    {
      if u !in sessions { return; }
      var x := Decl(There(u), key);
      var known := x in live;
      live := live[x := e];
      if known { return; }
      Index(x, e);
      if sessions[u].role.Client? { Image(u, key, e); }
    }

    /** Take a remote declaration out of the tables. */
    method Retire(x: Decl, e: string) returns (deleted: bool)
      requires x.who.There?
      requires index.Valid()
      modifies this, index
      ensures index.Valid()
      ensures Now() == R.Retire(old(Now()), x, e)
    {
      deleted := Unindex(x, e);
      var k := (x.who.uid, x.key);
      if k in south {
        var rid := south[k];
        south := south - {k};
        out := out - {rid};
        Announce(MeshTables.Undeclared(DKey(x.key.kind, rid)));
      } else {
        assert south - {k} == south;
      }
    }

    method OnUndeclare(u: nat, key: DKey)
      requires index.Valid()
      modifies this, index
      ensures index.Valid()
      ensures Now() == R.RemoteUndeclare(old(Now()), u, key)
    {
      var x := Decl(There(u), key);
      if u in sessions && x in live {
        var e := live[x];
        live := live - {x};
        var _ := Retire(x, e);
      }
    }

    /** The new session of a peer that has none; a router is told all that is out, in order. */
    method Install(peer: string, role: Role) returns (uid: nat)
      modifies this
      ensures Now() == R.Install(old(Now()), peer, role) && uid == old(nextUid)
    {
      uid := nextUid;
      nextUid := nextUid + 1;
      byPeer := byPeer[peer := uid];
      sessions := sessions[uid := R.Sess(peer, role)];
      if role.Router? {
        var log: seq<Note> := [];
        for i := 0 to nextId
          invariant log == R.OutLog(out, i)
        {
          if i in out { log := log + [Declared(DKey(out[i].0, i), out[i].1)]; }
        }
        logs := logs[uid := log];
      }
    }

    /** Retire declarations of a session that is gone, in the order of the hash table. */
    method RetireEach(decls: Live) returns (ghost order: seq<Decl>)
      requires forall x :: x in decls ==> x.who.There?
      requires index.Valid()
      modifies this, index
      ensures index.Valid()
      ensures R.IsOrder(order, decls) && Now() == R.RetireAll(old(Now()), decls, order)
    {
      var list := ListOf(decls.Keys);
      order := list;
      for i := 0 to |list|
        invariant index.Valid()
        invariant R.RetireAll(Now(), decls, list[i..]) == R.RetireAll(old(Now()), decls, list)
      {
        assert list[i..][1..] == list[i + 1..];
        var _ := Retire(list[i], decls[list[i]]);
      }
    }

    /** Close session u and retire all it declared. */
    method Close(u: nat) returns (ghost order: seq<Decl>)
      requires index.Valid()
      modifies this, index
      ensures index.Valid()
      ensures u in old(sessions) ==> R.IsOrder(order, R.Of(old(live), u))
      ensures Now() == R.CloseSession(old(Now()), u, order)
    {
      order := [];
      if u in sessions {
        var decls := R.Of(live, u);
        var p := sessions[u].peer;
        sessions := sessions - {u};
        logs := logs - {u};
        live := live - decls.Keys;
        if p in byPeer && byPeer[p] == u { byPeer := byPeer - {p}; }
        order := RetireEach(decls);
      }
    }

    /** A connection with the peer was admitted: it replaces the session there is. */
    method Admit(peer: string, role: Role) returns (ghost order: seq<Decl>)
      requires Valid()
      modifies this, index
      ensures index.Valid() && X.Enabled(old(Now()), X.Up(peer, role, order)) && Now() == X.Apply(old(Now()), X.Up(peer, role, order))
    {
      order := [];
      if peer in byPeer { order := Close(byPeer[peer]); }
      var _ := Install(peer, role);
    }

    /** One event of any kind; done is the event with the order in which a closed session's
        declarations were visited. */
    method Serve(e: X.Event) returns (ghost done: X.Event)
      requires Valid() && (e.PeerDecl? ==> X.Conforms(Now(), e.uid, e.key, e.expr))
      modifies this, index
      ensures X.Enabled(old(Now()), done) && Now() == X.Apply(old(Now()), done) && Valid()
      ensures e.Up? ==> done.Up? && done.peer == e.peer && done.role == e.role
      ensures e.Down? ==> done.Down? && done.uid == e.uid
      ensures !e.Up? && !e.Down? ==> done == e
    {
      ghost var was := Now();
      done := e;
      match e {
        case LocalDecl(kind, expr) => var _ := Declare(kind, expr);
        case LocalUndecl(key) => Undeclare(key);
        case PeerDecl(u, key, expr) => OnDeclare(u, key, expr);
        case PeerUndecl(u, key) => OnUndeclare(u, key);
        case Up(peer, role, _) =>
          ghost var order := Admit(peer, role);
          done := X.Up(peer, role, order);
        case Down(u, _) =>
          ghost var order := Close(u);
          done := X.Down(u, order);
        case TakeId => nextId := nextId + 1;
      }
      X.ApplyOk(was, done);
    }

    /** Where a put goes: the index is asked for the key, and every session that wants it gets it once. */
    method Route(from: Option<nat>, key: string) returns (locals: seq<nat>, peers: seq<nat>)
      requires Valid() && K.ValidKey(key) && forall x :: x in live && x.key.kind.Sub? ==> K.ValidExpr(live[x])
      ensures Distinct(locals) && forall i :: i in locals <==> D.WantsHere(Now(), DeclKind.Sub, i, key)
      ensures Distinct(peers) && forall u :: u in peers <==> u in D.Onward(Now(), from, DeclKind.Sub, key)
    {
      forall e | e in index.exprs ensures K.ValidExpr(index.exprs[e]) { assert DeclOf(e) in live; }
      var found := index.Matching(key);
      locals, peers := D.RoutePut(Now(), from, key, found);
    }
  }
}
