/** Where a put goes: the routing decision of one node, and what it amounts to in a full
    mesh of routers with clients once their mirrors have converged. */
module MeshDelivery {
  import opened Wrappers
  import opened MeshMsg
  import opened MeshTables
  import opened R = MeshRouter
  import K = KeyExpr
  import I = MeshIndex

  // ---------------------------------------------------------------- one node

  predicate FromRouter(c: Core, from: Option<nat>) {
    from.Some? && from.value in c.sessions && c.sessions[from.value].role.Router?
  }

  /** What comes from a router goes to no other router, and nothing goes back. */
  predicate MayGo(c: Core, from: Option<nat>, u: nat) {
    Some(u) != from && u in c.sessions && !(FromRouter(c, from) && c.sessions[u].role.Router?)
  }

  /** The peer of session u declared something of the kind that matches. */
  ghost predicate Wants(c: Core, u: nat, kind: DeclKind, key: string) {
    exists id :: Decl(There(u), DKey(kind, id)) in c.live && K.Intersects(c.live[Decl(There(u), DKey(kind, id))], key)
  }

  /** The sessions a put, or a question, is passed to. */
  ghost function Onward(c: Core, from: Option<nat>, kind: DeclKind, key: string): set<nat> {
    set u | u in c.sessions && MayGo(c, from, u) && Wants(c, u, kind, key)
  }

  ghost predicate WantsHere(c: Core, kind: DeclKind, id: nat, key: string) {
    Decl(Here, DKey(kind, id)) in c.live && K.Intersects(c.live[Decl(Here, DKey(kind, id))], key)
  }

  /** What the index knows of session u. */
  ghost predicate Found(c: Core, u: nat, key: string) { exists e :: e in I.Scanned(c.t.subs, key) && e.0 == I.Sess(u) }

  /** The routing loop: each subscription here once, each session once. */
  method RoutePut(c: Core, from: Option<nat>, key: string, found: seq<I.Entry>) returns (locals: seq<nat>, peers: seq<nat>)
    requires SubsOk(c.t.subs, c.live)
    requires Distinct(found) && forall e :: e in found <==> e in I.Scanned(c.t.subs, key)
    ensures Distinct(locals) && forall i :: i in locals <==> WantsHere(c, DeclKind.Sub, i, key)
    ensures Distinct(peers) && forall u :: u in peers <==> u in Onward(c, from, DeclKind.Sub, key)
  {
    locals, peers := [], [];
    var sent: set<nat> := {};
    for n := 0 to |found|
      invariant Distinct(locals) && Distinct(peers)
      invariant forall i :: i in locals <==> HereBy(c, found[..n], i)
      invariant forall u :: u in sent <==> Some(u) != from && ThereBy(found[..n], u)
      invariant forall u :: u in peers <==> u in sent && MayGo(c, from, u)
    {
      var (o, id) := found[n];
      assert found[..n + 1] == found[..n] + [found[n]];
      HereSnoc(c, found[..n], found[n]);
      ThereSnoc(found[..n], found[n]);
      assert found[n] in I.Scanned(c.t.subs, key);
      match o {
        case Local(_) =>
          if Decl(Here, DKey(DeclKind.Sub, id)) in c.live {
            NewHere(c, found, key, n);
            Extend(locals, id);
            locals := locals + [id];
          }
        case Sess(u) =>
          if Some(u) != from && u !in sent {
            sent := sent + {u};
            if u in c.sessions && !(FromRouter(c, from) && c.sessions[u].role.Router?) {
              Extend(peers, u);
              peers := peers + [u];
            }
          }
      }
    }
    assert found[..|found|] == found;
    forall u ensures ThereBy(found, u) <==> Wants(c, u, DeclKind.Sub, key) {
      FoundBy(c, found, key, u);
      FoundIsWanted(c, u, key);
    }
    forall i ensures HereBy(c, found, i) <==> WantsHere(c, DeclKind.Sub, i, key) { HereByFound(c, found, key, i); }
  }

  ghost predicate HereBy(c: Core, found: seq<I.Entry>, id: nat) {
    Decl(Here, DKey(DeclKind.Sub, id)) in c.live && exists m :: 0 <= m < |found| && found[m].0.Local? && found[m].1 == id
  }

  ghost predicate ThereBy(found: seq<I.Entry>, u: nat) { exists m :: 0 <= m < |found| && found[m].0 == I.Sess(u) }

  lemma HereSnoc(c: Core, found: seq<I.Entry>, e: I.Entry)
    ensures forall i :: HereBy(c, found + [e], i) <==>
                        HereBy(c, found, i) || (e.0.Local? && e.1 == i && Decl(Here, DKey(DeclKind.Sub, i)) in c.live)
  {
    var more := found + [e];
    assert more[|found|] == e;
    forall m | 0 <= m < |found| ensures more[m] == found[m] { }
  }

  lemma ThereSnoc(found: seq<I.Entry>, e: I.Entry)
    ensures forall u :: ThereBy(found + [e], u) <==> ThereBy(found, u) || e.0 == I.Sess(u)
  {
    var more := found + [e];
    assert more[|found|] == e;
    forall m | 0 <= m < |found| ensures more[m] == found[m] { }
  }

  lemma OneEntry(c: Core, a: I.Entry, b: I.Entry)
    requires SubsOk(c.t.subs, c.live) && a in c.t.subs && b in c.t.subs && a.0.Local? && b.0.Local? && a.1 == b.1
    ensures a == b
  {
    assert EntryOf(DeclOf(a)) == a && EntryOf(DeclOf(b)) == b;
  }

  lemma NewHere(c: Core, found: seq<I.Entry>, key: string, n: nat)
    requires SubsOk(c.t.subs, c.live) && Distinct(found) && n < |found| && found[n].0.Local?
    requires forall e :: e in found ==> e in I.Scanned(c.t.subs, key)
    ensures !HereBy(c, found[..n], found[n].1)
  {
    forall m | 0 <= m < n && found[m].0.Local? ensures found[m].1 != found[n].1 {
      assert found[m] in found && found[n] in found;
      if found[m].1 == found[n].1 { OneEntry(c, found[m], found[n]); }
    }
  }

  lemma FoundBy(c: Core, found: seq<I.Entry>, key: string, u: nat)
    requires forall e :: e in found <==> e in I.Scanned(c.t.subs, key)
    ensures ThereBy(found, u) <==> Found(c, u, key)
  {
    if ThereBy(found, u) {
      var m :| 0 <= m < |found| && found[m].0 == I.Sess(u);
      assert found[m] in I.Scanned(c.t.subs, key);
    }
    if Found(c, u, key) {
      var e :| e in I.Scanned(c.t.subs, key) && e.0 == I.Sess(u);
      assert e in found;
    }
  }

  lemma HereByFound(c: Core, found: seq<I.Entry>, key: string, i: nat)
    requires SubsOk(c.t.subs, c.live) && forall e :: e in found <==> e in I.Scanned(c.t.subs, key)
    ensures HereBy(c, found, i) <==> WantsHere(c, DeclKind.Sub, i, key)
  {
    var x := Decl(Here, DKey(DeclKind.Sub, i));
    if HereBy(c, found, i) {
      var m :| 0 <= m < |found| && found[m].0.Local? && found[m].1 == i;
      assert found[m] in found;
      OneEntry(c, found[m], EntryOf(x));
    }
    if WantsHere(c, DeclKind.Sub, i, key) { assert EntryOf(x) in found; }
  }

  // ---------------------------------------------------------------- in terms of what is live

  lemma FoundIsWanted(c: Core, u: nat, key: string)
    requires SubsOk(c.t.subs, c.live)
    ensures Found(c, u, key) <==> Wants(c, u, DeclKind.Sub, key)
  {
    if Found(c, u, key) {
      var e :| e in I.Scanned(c.t.subs, key) && e.0 == I.Sess(u);
      var x := DeclOf(e);
      assert EntryOf(x) == e && x in c.live;
      assert x == Decl(There(u), DKey(DeclKind.Sub, e.1));
    }
    if id :| Decl(There(u), DKey(DeclKind.Sub, id)) in c.live && K.Intersects(c.live[Decl(There(u), DKey(DeclKind.Sub, id))], key) {
      var x := Decl(There(u), DKey(DeclKind.Sub, id));
      assert EntryOf(x) in I.Scanned(c.t.subs, key) && EntryOf(x).0 == I.Sess(u);
    }
  }

  /** Some declaration of session u is a matching queryable. */
  method AnyMatch(c: Core, u: nat, key: string) returns (hit: bool)
    ensures hit <==> Wants(c, u, DeclKind.Qabl, key)
  {
    var list := ListOf(c.live.Keys);
    hit := false;
    for n := 0 to |list|
      invariant hit <==> exists m :: 0 <= m < n && IsMatch(c, u, key, list[m])
    {
      var x := list[n];
      if x.who == There(u) && x.key.kind.Qabl? {
        var yes := K.IntersectsScan(c.live[x], key);
        if yes { hit := true; }
      }
    }
    if hit {
      var m :| 0 <= m < |list| && IsMatch(c, u, key, list[m]);
      assert list[m] == Decl(There(u), DKey(DeclKind.Qabl, list[m].key.id));
    }
    if id :| Decl(There(u), DKey(DeclKind.Qabl, id)) in c.live && K.Intersects(c.live[Decl(There(u), DKey(DeclKind.Qabl, id))], key) {
      assert Decl(There(u), DKey(DeclKind.Qabl, id)) in list;
      var m :| 0 <= m < |list| && list[m] == Decl(There(u), DKey(DeclKind.Qabl, id));
      assert IsMatch(c, u, key, list[m]);
    }
  }

  predicate IsMatch(c: Core, u: nat, key: string, x: Decl) {
    x in c.live && x.who == There(u) && x.key.kind.Qabl? && K.Intersects(c.live[x], key)
  }

  /** Who is asked: the sessions that may be and have a matching queryable. */
  method AskPeers(c: Core, from: Option<nat>, key: string) returns (peers: set<nat>)
    ensures peers == Onward(c, from, DeclKind.Qabl, key)
  {
    var list := ListOf(c.sessions.Keys);
    peers := {};
    for n := 0 to |list|
      invariant forall u :: u in peers <==> u in list[..n] && u in Onward(c, from, DeclKind.Qabl, key)
    {
      var u := list[n];
      assert list[..n + 1] == list[..n] + [u] && u in list;
      if Some(u) != from {
        var hit := false;
        if !(FromRouter(c, from) && c.sessions[u].role.Router?) { hit := AnyMatch(c, u, key); }
        if hit { peers := peers + {u}; }
      }
    }
    assert list[..|list|] == list;
  }
}
