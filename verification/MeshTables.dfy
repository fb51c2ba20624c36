/** The declaration tables of a router: token reference counts, the subscription
    index, the outgoing declarations and the images of client declarations,
    against the one set of declarations that are live. */
module MeshTables {
  import opened Wrappers
  import opened MeshMsg
  import I = MeshIndex

  /** Who made a declaration: this node, or the peer of a session. */
  datatype Who = Here | There(uid: nat)

  datatype DKey = DKey(kind: DeclKind, id: nat)

  datatype Decl = Decl(who: Who, key: DKey)

  type Live = map<Decl, string>

  /** What is said to other routers about the outgoing declarations. */
  datatype Note = Declared(key: DKey, expr: string) | Undeclared(key: DKey)

  datatype Tables = Tables(tok: map<string, nat>, subs: map<I.Entry, string>,
                           out: map<nat, (DeclKind, string)>, south: map<(nat, DKey), nat>, nextId: nat)

  const NewTables := Tables(map[], map[], map[], map[], 1)

  // ---------------------------------------------------------------- steps

  function TokAdd(tok: map<string, nat>, k: string): map<string, nat> {
    tok[k := if k in tok then tok[k] + 1 else 1]
  }

  function TokDel(tok: map<string, nat>, k: string): map<string, nat> {
    if k !in tok then tok
    else if tok[k] > 1 then tok[k := tok[k] - 1]
    else tok - {k}
  }

  function EntryOf(x: Decl): I.Entry {
    (if x.who.Here? then I.Local(x.key.id) else I.Sess(x.who.uid), x.key.id)
  }

  /** The id under which a declaration is known to the other routers. */
  function RidOf(t: Tables, x: Decl): Option<nat> {
    if x.who.Here? then Some(x.key.id)
    else if (x.who.uid, x.key) in t.south then Some(t.south[(x.who.uid, x.key)])
    else None
  }

  /** A new declaration; rid is its id towards the other routers, the next one, if it goes there. */
  function Enter(t: Tables, x: Decl, e: string, rid: Option<nat>): Tables {
    t.(tok := if x.key.kind.Token? then TokAdd(t.tok, e) else t.tok,
       subs := if x.key.kind.Sub? then t.subs[EntryOf(x) := e] else t.subs,
       out := if rid.Some? then t.out[rid.value := (x.key.kind, e)] else t.out,
       nextId := if rid.Some? then t.nextId + 1 else t.nextId,
       south := if rid.Some? && x.who.There? then t.south[(x.who.uid, x.key) := rid.value] else t.south)
  }

  function Drop(t: Tables, x: Decl, e: string): Tables {
    var rid := RidOf(t, x);
    t.(tok := if x.key.kind.Token? then TokDel(t.tok, e) else t.tok,
       subs := if x.key.kind.Sub? then t.subs - {EntryOf(x)} else t.subs,
       out := if rid.Some? then t.out - {rid.value} else t.out,
       south := if x.who.There? then t.south - {(x.who.uid, x.key)} else t.south)
  }

  // ---------------------------------------------------------------- what the tables mean

  ghost function Holders(live: Live, k: string): set<Decl> {
    set x | x in live && x.key.kind.Token? && live[x] == k
  }

  ghost predicate CountOk(tok: map<string, nat>, live: Live, k: string) {
    if k in tok then tok[k] > 0 && tok[k] == |Holders(live, k)| else Holders(live, k) == {}
  }

  /** A key is counted exactly as often as a live token names it. */
  ghost predicate TokOk(tok: map<string, nat>, live: Live) { forall k :: CountOk(tok, live, k) }

  function DeclOf(e: I.Entry): Decl {
    Decl(if e.0.Local? then Here else There(e.0.uid), DKey(DeclKind.Sub, e.1))
  }

  ghost predicate SubsOk(subs: map<I.Entry, string>, live: Live) {
    && (forall x :: x in live && x.key.kind.Sub? ==> EntryOf(x) in subs && subs[EntryOf(x)] == live[x])
    && (forall e :: e in subs ==> DeclOf(e) in live && EntryOf(DeclOf(e)) == e)
  }

  predicate Exported(x: Decl, clients: set<nat>) { x.who.Here? || x.who.uid in clients }

  /** An exported declaration is out, as it was made; no other is. */
  ghost predicate Routed(t: Tables, live: Live, clients: set<nat>, x: Decl)
    requires x in live
  {
    if Exported(x, clients)
    then RidOf(t, x).Some? && RidOf(t, x).value in t.out && t.out[RidOf(t, x).value] == (x.key.kind, live[x])
    else RidOf(t, x).None?
  }

  ghost predicate Backed(t: Tables, live: Live, i: nat) { exists x :: x in live && RidOf(t, x) == Some(i) }

  ghost predicate OneToOne(t: Tables, live: Live) {
    forall x, y :: x in live && y in live && RidOf(t, x).Some? && RidOf(t, x) == RidOf(t, y) ==> x == y
  }

  /** Every exported declaration is out under an id of its own, and nothing else is. */
  ghost predicate OutOk(t: Tables, live: Live, clients: set<nat>) {
    && (forall x :: x in live ==> Routed(t, live, clients, x))
    && OneToOne(t, live)
    && (forall i :: i in t.out ==> Backed(t, live, i) && i < t.nextId)
    && (forall s :: s in t.south ==> Decl(There(s.0), s.1) in live)
  }

  ghost predicate TablesOk(t: Tables, live: Live, clients: set<nat>) {
    TokOk(t.tok, live) && SubsOk(t.subs, live) && OutOk(t, live, clients)
  }

  lemma TokAddAt(tok: map<string, nat>, live: Live, x: Decl, e: string, k: string)
    requires CountOk(tok, live, k) && x !in live
    ensures CountOk(if x.key.kind.Token? then TokAdd(tok, e) else tok, live[x := e], k)
  {
    var more := live[x := e];
    if x.key.kind.Token? && k == e {
      assert Holders(more, k) == Holders(live, k) + {x};
    } else {
      assert Holders(more, k) == Holders(live, k);
    }
  }

  lemma TokAddOk(tok: map<string, nat>, live: Live, x: Decl, e: string)
    requires TokOk(tok, live) && x !in live
    ensures TokOk(if x.key.kind.Token? then TokAdd(tok, e) else tok, live[x := e])
  {
    var (counts, more) := (if x.key.kind.Token? then TokAdd(tok, e) else tok, live[x := e]);
    forall k ensures CountOk(counts, more, k) { TokAddAt(tok, live, x, e, k); }
  }

  lemma TokDelAt(tok: map<string, nat>, live: Live, x: Decl, k: string)
    requires CountOk(tok, live, k) && x in live && x.key.kind.Token?
    ensures CountOk(TokDel(tok, live[x]), live - {x}, k)
  {
    if k == live[x] {
      assert x in Holders(live, k);
      assert Holders(live - {x}, k) == Holders(live, k) - {x};
      if tok[k] == 1 { Single(Holders(live, k), x); }
    } else {
      assert Holders(live - {x}, k) == Holders(live, k);
    }
  }

  lemma TokDelOk(tok: map<string, nat>, live: Live, x: Decl)
    requires TokOk(tok, live) && x in live
    ensures TokOk(if x.key.kind.Token? then TokDel(tok, live[x]) else tok, live - {x})
  {
    var counts := if x.key.kind.Token? then TokDel(tok, live[x]) else tok;
    forall k ensures CountOk(counts, live - {x}, k) {
      assert CountOk(tok, live, k);
      if x.key.kind.Token? { TokDelAt(tok, live, x, k); } else { assert Holders(live - {x}, k) == Holders(live, k); }
    }
  }

  lemma Single(s: set<Decl>, x: Decl)
    requires x in s && |s| == 1
    ensures s - {x} == {}
  {
    assert |s - {x}| == 0;
  }

  lemma SubsAddOk(subs: map<I.Entry, string>, live: Live, x: Decl, e: string)
    requires SubsOk(subs, live) && x !in live
    ensures SubsOk(if x.key.kind.Sub? then subs[EntryOf(x) := e] else subs, live[x := e])
  {
    if x.key.kind.Sub? { assert DeclOf(EntryOf(x)) == x; }
  }

  lemma SubsDelOk(subs: map<I.Entry, string>, live: Live, x: Decl)
    requires SubsOk(subs, live) && x in live
    ensures SubsOk(if x.key.kind.Sub? then subs - {EntryOf(x)} else subs, live - {x})
  {
    forall y | y in live && y != x && y.key.kind.Sub? && x.key.kind.Sub? ensures EntryOf(y) != EntryOf(x) {
      assert DeclOf(EntryOf(x)) == x && DeclOf(EntryOf(y)) == y;
    }
  }

  /** An exported declaration gets the next id; a local one carries it as its own. */
  ghost predicate RightRid(t: Tables, x: Decl, rid: Option<nat>, clients: set<nat>) {
    && (rid.Some? <==> Exported(x, clients))
    && (rid.Some? ==> rid.value == t.nextId)
    && (x.who.Here? ==> rid == Some(x.key.id))
  }

  lemma RidsKept(t: Tables, live: Live, clients: set<nat>, x: Decl, e: string, rid: Option<nat>)
    requires OutOk(t, live, clients) && x !in live && RightRid(t, x, rid, clients)
    ensures var u := Enter(t, x, e, rid);
            && RidOf(u, x) == rid
            && forall y :: y in live ==> RidOf(u, y) == RidOf(t, y) && (RidOf(t, y).Some? ==> RidOf(t, y).value in t.out)
  {
    var u := Enter(t, x, e, rid);
    forall y | y in live ensures RidOf(u, y) == RidOf(t, y) && (RidOf(t, y).Some? ==> RidOf(t, y).value in t.out) {
      assert Routed(t, live, clients, y);
    }
    if x.who.There? { assert Decl(There(x.who.uid), x.key) == x; }
  }

  lemma BackedStill(t: Tables, u: Tables, live: Live, more: Live, i: nat)
    requires Backed(t, live, i) && forall y :: y in live ==> y in more && RidOf(u, y) == RidOf(t, y)
    ensures Backed(u, more, i)
  {
    var y :| y in live && RidOf(t, y) == Some(i);
    assert y in more;
  }

  ghost predicate Adds(t: Tables, live: Live, clients: set<nat>, x: Decl, rid: Option<nat>) {
    OutOk(t, live, clients) && x !in live && RightRid(t, x, rid, clients)
  }

  lemma RoutedMore(t: Tables, live: Live, clients: set<nat>, x: Decl, e: string, rid: Option<nat>)
    requires Adds(t, live, clients, x, rid)
    ensures var (u, more) := (Enter(t, x, e, rid), live[x := e]); forall y :: y in more ==> Routed(u, more, clients, y)
  {
    var (u, more) := (Enter(t, x, e, rid), live[x := e]);
    RidsKept(t, live, clients, x, e, rid);
    forall y | y in more ensures Routed(u, more, clients, y) {
      if y != x { assert Routed(t, live, clients, y); }
    }
  }

  lemma BackedMore(t: Tables, live: Live, clients: set<nat>, x: Decl, e: string, rid: Option<nat>)
    requires Adds(t, live, clients, x, rid)
    ensures var (u, more) := (Enter(t, x, e, rid), live[x := e]); forall i :: i in u.out ==> Backed(u, more, i)
  {
    var (u, more) := (Enter(t, x, e, rid), live[x := e]);
    RidsKept(t, live, clients, x, e, rid);
    forall i | i in u.out ensures Backed(u, more, i) {
      if rid == Some(i) { assert x in more; } else { BackedStill(t, u, live, more, i); }
    }
  }

  lemma OneToOneMore(t: Tables, live: Live, clients: set<nat>, x: Decl, e: string, rid: Option<nat>)
    requires Adds(t, live, clients, x, rid)
    ensures var (u, more) := (Enter(t, x, e, rid), live[x := e]);
            && OneToOne(u, more)
            && (forall i :: i in u.out ==> i < u.nextId)
            && (forall s :: s in u.south ==> Decl(There(s.0), s.1) in more)
  {
    RidsKept(t, live, clients, x, e, rid);
  }

  lemma OutAddOk(t: Tables, live: Live, clients: set<nat>, x: Decl, e: string, rid: Option<nat>)
    requires Adds(t, live, clients, x, rid)
    ensures OutOk(Enter(t, x, e, rid), live[x := e], clients)
  {
    RoutedMore(t, live, clients, x, e, rid);
    BackedMore(t, live, clients, x, e, rid);
    OneToOneMore(t, live, clients, x, e, rid);
  }

  lemma OutDelOk(t: Tables, live: Live, clients: set<nat>, x: Decl)
    requires OutOk(t, live, clients) && x in live
    ensures OutOk(Drop(t, x, live[x]), live - {x}, clients)
  {
    RoutedLess(t, live, clients, x);
    BackedLess(t, live, clients, x);
  }

  lemma RoutedLess(t: Tables, live: Live, clients: set<nat>, x: Decl)
    requires OutOk(t, live, clients) && x in live
    ensures var (u, less) := (Drop(t, x, live[x]), live - {x});
            && (forall y :: y in less ==> RidOf(u, y) == RidOf(t, y) && Routed(u, less, clients, y))
            && OneToOne(u, less)
  {
    var (u, less) := (Drop(t, x, live[x]), live - {x});
    forall y | y in less ensures RidOf(u, y) == RidOf(t, y) { }
    forall y | y in less ensures Routed(u, less, clients, y) { assert Routed(t, live, clients, y); }
  }

  lemma BackedLess(t: Tables, live: Live, clients: set<nat>, x: Decl)
    requires OutOk(t, live, clients) && x in live
    ensures var (u, less) := (Drop(t, x, live[x]), live - {x});
            && (forall i :: i in u.out ==> Backed(u, less, i) && i < u.nextId)
            && (forall s :: s in u.south ==> Decl(There(s.0), s.1) in less)
  {
    var (u, less) := (Drop(t, x, live[x]), live - {x});
    forall i | i in u.out ensures Backed(u, less, i) && i < u.nextId { BackedLessAt(t, live, x, i); }
  }

  lemma BackedLessAt(t: Tables, live: Live, x: Decl, i: nat)
    requires x in live && Backed(t, live, i) && RidOf(t, x) != Some(i)
    ensures Backed(Drop(t, x, live[x]), live - {x}, i)
  {
    var y :| y in live && RidOf(t, y) == Some(i);
    assert y in live - {x} && RidOf(Drop(t, x, live[x]), y) == RidOf(t, y);
  }

  lemma EnterOk(t: Tables, live: Live, clients: set<nat>, x: Decl, e: string, rid: Option<nat>)
    requires TablesOk(t, live, clients) && x !in live && RightRid(t, x, rid, clients)
    ensures TablesOk(Enter(t, x, e, rid), live[x := e], clients)
  {
    TokAddOk(t.tok, live, x, e);
    SubsAddOk(t.subs, live, x, e);
    OutAddOk(t, live, clients, x, e, rid);
  }

  lemma DropOk(t: Tables, live: Live, clients: set<nat>, x: Decl)
    requires TablesOk(t, live, clients) && x in live
    ensures TablesOk(Drop(t, x, live[x]), live - {x}, clients)
  {
    TokDelOk(t.tok, live, x);
    SubsDelOk(t.subs, live, x);
    OutDelOk(t, live, clients, x);
  }

  /** The tables are a function of what is live, ids aside. */
  lemma SameTables(t: Tables, u: Tables, live: Live, c: set<nat>)
    requires TablesOk(t, live, c) && TablesOk(u, live, c)
    ensures t.tok == u.tok && t.subs == u.subs && t.south.Keys == u.south.Keys
  {
    forall k ensures (k in t.tok <==> k in u.tok) && (k in t.tok ==> t.tok[k] == u.tok[k]) {
      assert CountOk(t.tok, live, k) && CountOk(u.tok, live, k);
    }
    SameSubs(t.subs, u.subs, live);
    SameSubs(u.subs, t.subs, live);
    SouthWithin(t, u, live, c);
    SouthWithin(u, t, live, c);
  }

  lemma SameSubs(a: map<I.Entry, string>, b: map<I.Entry, string>, live: Live)
    requires SubsOk(a, live) && SubsOk(b, live)
    ensures forall e :: e in a ==> e in b && a[e] == b[e]
  {
    forall e | e in a ensures e in b && a[e] == b[e] { assert DeclOf(e) in live; }
  }

  lemma SouthWithin(t: Tables, u: Tables, live: Live, c: set<nat>)
    requires OutOk(t, live, c) && OutOk(u, live, c)
    ensures t.south.Keys <= u.south.Keys
  {
    forall s | s in t.south ensures s in u.south {
      var x := Decl(There(s.0), s.1);
      assert Routed(t, live, c, x) && Routed(u, live, c, x);
      assert RidOf(t, x).Some?;
    }
  }
}
