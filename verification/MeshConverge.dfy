/** A full mesh at work: connections come and go, routers and clients declare and withdraw, and what
    they say to each other is still under way. Once all are connected and everything said has been
    heard, the mirrors have converged. */
module MeshConverge {
  import opened Wrappers
  import opened MeshMsg
  import opened MeshTables
  import opened MeshRouter
  import opened MeshMirror
  import N = MeshNetwork

  type Pair = (string, string)

  /** own: what each client has declared; talk: what it said on its present connection, or the last;
      up: the clients whose end is up; home: the router of each client; heard: how much of what p
      said r has taken in, by (r, p); frozen: what p had said to r when its end went down. */
  datatype Mesh = Mesh(cores: map<string, Core>, own: map<string, map<DKey, string>>, talk: map<string, seq<Note>>,
                       up: set<string>, home: map<string, string>, heard: map<Pair, nat>, frozen: map<Pair, seq<Note>>)

  datatype Event =
    | Declares(r: string, kind: DeclKind, expr: string)
    | Undeclares(r: string, key: DKey)
    | TakesId(r: string)
    | Says(k: string, n: Note)
    | Hears(r: string, p: string)
    | Drops(r: string, p: string, order: seq<Decl>)
    | Joins(r: string, p: string)
    | Calls(k: string, log: seq<Note>)
    | Leaves(k: string)

  /** What p has said to r on their connection. */
  function LogOf(m: Mesh, r: string, p: string): seq<Note> {
    if p in m.cores then
      var c := m.cores[p];
      if r in c.byPeer then (if c.byPeer[r] in c.logs then c.logs[c.byPeer[r]] else [])
      else if (r, p) in m.frozen then m.frozen[(r, p)] else []
    else if p in m.talk then m.talk[p] else []
  }

  function Heard(m: Mesh, r: string, p: string): nat { if (r, p) in m.heard then m.heard[(r, p)] else 0 }

  /** Session u takes in a note. */
  function HearOne(c: Core, u: nat, n: Note): Core {
    match n
    case Declared(key, e) => RemoteDeclare(c, u, key, e)
    case Undeclared(key) => RemoteUndeclare(c, u, key)
  }

  function Noted(own: map<DKey, string>, n: Note): map<DKey, string> {
    match n
    case Declared(key, e) => own[key := e]
    case Undeclared(key) => own - {key}
  }

  /** A client gives every declaration an id of its own and withdraws only what it declared; one that
      connects says all it has declared. A connection comes up at both ends, and goes at each end by
      itself; one that replaces another is a drop and a join. */
  ghost predicate Enabled(m: Mesh, e: Event) {
    match e
    case Declares(r, _, _) => r in m.cores
    case Undeclares(r, _) => r in m.cores
    case TakesId(r) => r in m.cores
    case Says(k, n) => k in m.own && k in m.talk && (n.Declared? <==> n.key !in m.own[k])
    case Hears(r, p) => r in m.cores && p in m.cores[r].byPeer && Heard(m, r, p) < |LogOf(m, r, p)|
    case Drops(r, p, order) => r in m.cores && p in m.cores[r].byPeer && IsOrder(order, Of(m.cores[r].live, m.cores[r].byPeer[p]))
    case Joins(r, p) => r in m.cores && p in m.cores && r != p && p !in m.cores[r].byPeer && r !in m.cores[p].byPeer
    case Calls(k, log) => k in m.own && k in m.home && m.home[k] in m.cores && k !in m.cores[m.home[k]].byPeer
                          && Clean(log) && Replay(log) == m.own[k]
    case Leaves(k) => k in m.up
  }

  /** One end comes up, towards p; nothing has been heard there. */
  function EndUp(m: Mesh, r: string, p: string, role: Role): Mesh
    requires r in m.cores
  {
    m.(cores := m.cores[r := Install(m.cores[r], p, role)], heard := m.heard - {(r, p)}, frozen := m.frozen - {(r, p)})
  }

  ghost function Next(m: Mesh, e: Event): Mesh
    requires Enabled(m, e)
  {
    match e
    case Declares(r, kind, expr) => m.(cores := m.cores[r := LocalDeclare(m.cores[r], kind, expr)])
    case Undeclares(r, key) => m.(cores := m.cores[r := LocalUndeclare(m.cores[r], key)])
    case TakesId(r) => m.(cores := m.cores[r := SkipId(m.cores[r])])
    case Says(k, n) => m.(own := m.own[k := Noted(m.own[k], n)], talk := if k in m.up then m.talk[k := m.talk[k] + [n]] else m.talk)
    case Hears(r, p) =>
      m.(cores := m.cores[r := HearOne(m.cores[r], m.cores[r].byPeer[p], LogOf(m, r, p)[Heard(m, r, p)])],
         heard := m.heard[(r, p) := Heard(m, r, p) + 1])
    case Drops(r, p, order) =>
      m.(cores := m.cores[r := CloseSession(m.cores[r], m.cores[r].byPeer[p], order)],
         frozen := m.frozen[(p, r) := LogOf(m, p, r)])
    case Joins(r, p) => EndUp(EndUp(m, r, p, Router), p, r, Router)
    case Calls(k, log) => EndUp(m, m.home[k], k, Client).(talk := m.talk[k := log], up := m.up + {k})
    case Leaves(k) => m.(up := m.up - {k})
  }

  // ---------------------------------------------------------------- one router

  /** Towards peer q nothing is lost: its session, what it was told and what it said. */
  ghost predicate Same(c: Core, d: Core, q: string) {
    && (q in c.byPeer <==> q in d.byPeer)
    && (q in c.byPeer ==> d.byPeer[q] == c.byPeer[q] && SameEnd(c, d, c.byPeer[q]))
  }

  ghost predicate SameEnd(c: Core, d: Core, u: nat) {
    && (u in c.logs <==> u in d.logs) && (u in c.logs ==> c.logs[u] <= d.logs[u])
    && (forall m :: Holds(c, u, m) ==> Holds(d, u, m))
  }

  /** Everything but what concerns p goes on. */
  ghost predicate Evolves(c: Core, d: Core, p: Option<string>) { forall q :: p != Some(q) ==> Same(c, d, q) }

  /** Sessions stay, and what was said stays said. */
  ghost predicate Grows(c: Core, d: Core) {
    && d.sessions == c.sessions && d.byPeer == c.byPeer && d.logs.Keys == c.logs.Keys
    && forall v :: v in c.logs ==> c.logs[v] <= d.logs[v]
  }

  /** Only declarations of session u, or of this node, change. */
  ghost predicate Spares(c: Core, d: Core, u: Option<nat>) {
    forall v: nat, key :: Some(v) != u ==>
      var x := Decl(There(v), key);
      (x in c.live <==> x in d.live) && (x in c.live ==> d.live[x] == c.live[x])
  }

  lemma SparedHolds(c: Core, d: Core, u: Option<nat>, v: nat, m: map<DKey, string>)
    requires Spares(c, d, u) && Some(v) != u && Holds(c, v, m)
    ensures Holds(d, v, m)
  {
  }

  /** The session of c with p, if there is one. */
  function EndOf(c: Core, p: Option<string>): Option<nat> {
    if p.Some? && p.value in c.byPeer then Some(c.byPeer[p.value]) else None
  }

  lemma UidsDiffer(c: Core, a: string, b: string)
    requires PeersOk(c) && a in c.byPeer && b in c.byPeer && a != b
    ensures c.byPeer[a] != c.byPeer[b]
  {
  }

  lemma GrowsEvolves(c: Core, d: Core, p: Option<string>)
    requires PeersOk(c) && Grows(c, d) && Spares(c, d, EndOf(c, p))
    ensures Evolves(c, d, p)
  {
    forall q | p != Some(q) ensures Same(c, d, q) {
      if q in c.byPeer {
        if EndOf(c, p).Some? { UidsDiffer(c, q, p.value); }
        forall m | Holds(c, c.byPeer[q], m) ensures Holds(d, c.byPeer[q], m) { SparedHolds(c, d, EndOf(c, p), c.byPeer[q], m); }
      }
    }
  }

  lemma DeclareGrows(c: Core, kind: DeclKind, e: string)
    ensures Grows(c, LocalDeclare(c, kind, e)) && Spares(c, LocalDeclare(c, kind, e), None)
  {
  }

  lemma UndeclareGrows(c: Core, key: DKey)
    ensures Grows(c, LocalUndeclare(c, key)) && Spares(c, LocalUndeclare(c, key), None)
  {
  }

  lemma HearGrows(c: Core, u: nat, n: Note)
    ensures Grows(c, HearOne(c, u, n)) && Spares(c, HearOne(c, u, n), Some(u))
  {
  }

  /** The next note of a clean log is taken in as its replay says. */
  lemma HearNext(c: Core, u: nat, log: seq<Note>, h: nat)
    requires Inv(c) && u in c.sessions && h < |log| && Clean(log[..h + 1]) && Holds(c, u, Replay(log[..h]))
    ensures Inv(HearOne(c, u, log[h])) && Holds(HearOne(c, u, log[h]), u, Replay(log[..h + 1]))
  {
    assert log[..h + 1][..h] == log[..h];
    match log[h]
    case Declared(key, e) =>
      HoldsDeclared(c, u, Replay(log[..h]), key, e);
      NewRemoteOk(c, u, key, e);
    case Undeclared(key) =>
      HoldsUndeclared(c, u, Replay(log[..h]), key);
      RemoteUndeclareOk(c, u, key);
  }

  lemma {:induction false} CleanPrefix(log: seq<Note>, h: nat)
    requires Clean(log) && h <= |log|
    ensures Clean(log[..h])
  {
    if h < |log| {
      CleanPrefix(log[..|log| - 1], h);
      assert log[..|log| - 1][..h] == log[..h];
    } else {
      assert log[..h] == log;
    }
  }

  /** d is c after session u took in note h of the log. */
  ghost predicate Took(c: Core, u: nat, log: seq<Note>, h: nat, d: Core)
    requires h < |log|
  {
    d == HearOne(c, u, log[h]) && Inv(d) && Grows(c, d) && Spares(c, d, Some(u)) && Holds(d, u, Replay(log[..h + 1]))
  }

  lemma TakesNext(c: Core, u: nat, log: seq<Note>, h: nat) returns (d: Core)
    requires Inv(c) && u in c.sessions && h < |log| && Clean(log) && Holds(c, u, Replay(log[..h]))
    ensures Took(c, u, log, h, d)
  {
    CleanPrefix(log, h + 1);
    HearNext(c, u, log, h);
    HearGrows(c, u, log[h]);
    d := HearOne(c, u, log[h]);
  }

  lemma {:induction false} RetireAllGrows(c: Core, decls: Live, order: seq<Decl>)
    requires forall x :: x in order ==> x in decls
    ensures var r := RetireAll(c, decls, order);
            r.logs.Keys == c.logs.Keys && forall v :: v in c.logs ==> c.logs[v] <= r.logs[v]
    decreases |order|
  {
    if order != [] { RetireAllGrows(Retire(c, order[0], decls[order[0]]), decls, order[1..]); }
  }

  /** c after the end towards p went. */
  ghost predicate Closed(c: Core, d: Core, p: string) {
    p in c.byPeer && Inv(d) && d.sessions == c.sessions - {c.byPeer[p]} && d.byPeer == c.byPeer - {p} && Evolves(c, d, Some(p))
  }

  lemma ClosedEnd(c: Core, d: Core, u: nat, v: nat)
    requires u != v && d.live == c.live - Of(c.live, u).Keys
    requires (v in c.logs <==> v in d.logs) && (v in c.logs ==> c.logs[v] <= d.logs[v])
    ensures SameEnd(c, d, v)
  {
    forall m | Holds(c, v, m) ensures Holds(d, v, m) {
      forall key: DKey ensures Decl(There(v), key) in d.live <==> Decl(There(v), key) in c.live { }
    }
  }

  lemma CloseEvolves(c: Core, p: string, order: seq<Decl>) returns (d: Core)
    requires Inv(c) && p in c.byPeer && IsOrder(order, Of(c.live, c.byPeer[p]))
    ensures d == CloseSession(c, c.byPeer[p], order) && Closed(c, d, p)
  {
    var u := c.byPeer[p];
    var mid := Forget(c, u);
    d := CloseSession(c, u, order);
    CloseOk(c, u, order);
    RetireAllShape(mid, Of(c.live, u), order);
    RetireAllGrows(mid, Of(c.live, u), order);
    forall q | q != p ensures Same(c, d, q) {
      if q in c.byPeer {
        UidsDiffer(c, p, q);
        ClosedEnd(c, d, u, c.byPeer[q]);
      }
    }
  }

  /** c after an end towards p came up. */
  ghost predicate Opened(c: Core, d: Core, p: string, role: Role) {
    && p !in c.byPeer && Inv(d) && d.sessions == c.sessions[c.nextUid := Sess(p, role)] && d.byPeer == c.byPeer[p := c.nextUid]
    && Holds(d, c.nextUid, map[]) && Evolves(c, d, Some(p))
  }

  lemma InstallEvolves(c: Core, p: string, role: Role) returns (d: Core)
    requires Inv(c) && p !in c.byPeer
    ensures d == Install(c, p, role) && Opened(c, d, p, role)
  {
    d := Install(c, p, role);
    InstallOk(c, p, role);
    NewEndEmpty(c);
    forall q | q != p ensures Same(c, d, q) { InstalledSame(c, d, p, role, q); }
  }

  lemma NewEndEmpty(c: Core)
    requires Shaped(c)
    ensures c.nextUid !in c.sessions && Holds(c, c.nextUid, map[])
  {
  }

  lemma InstalledSame(c: Core, d: Core, p: string, role: Role, q: string)
    requires PeersOk(c) && q != p && d == Install(c, p, role)
    ensures Same(c, d, q)
  {
  }

  // ---------------------------------------------------------------- what every step keeps

  /** r holds of p what it has heard. */
  ghost predicate LinkOk(m: Mesh, r: string, p: string)
    requires r in m.cores && p in m.cores[r].byPeer
  {
    var log := LogOf(m, r, p);
    && Clean(log) && Heard(m, r, p) <= |log|
    && Holds(m.cores[r], m.cores[r].byPeer[p], Replay(log[..Heard(m, r, p)]))
  }

  ghost predicate Links(m: Mesh) { forall r, p :: r in m.cores && p in m.cores[r].byPeer ==> LinkOk(m, r, p) }

  ghost predicate Cores(m: Mesh) { forall r :: r in m.cores ==> Inv(m.cores[r]) }

  /** Routers are connected to routers and to their own clients. */
  ghost predicate Peered(m: Mesh, r: string, s: Sess) {
    if s.role.Router? then s.peer in m.cores else s.peer in m.own && s.peer !in m.cores && s.peer in m.home && m.home[s.peer] == r
  }

  ghost predicate Part(m: Mesh, r: string, c: Core) {
    r !in c.byPeer && forall u :: u in c.sessions ==> Peered(m, r, c.sessions[u])
  }

  ghost predicate Plan(m: Mesh) {
    && (forall r :: r in m.cores ==> Part(m, r, m.cores[r]))
    && (forall k :: k in m.own ==> k !in m.cores && k in m.home && m.home[k] in m.cores)
  }

  /** A client that is connected has said exactly what it declared. */
  ghost predicate Spoken(m: Mesh) {
    forall k :: k in m.own ==> k in m.talk && Clean(m.talk[k]) && (k in m.up ==> Replay(m.talk[k]) == m.own[k])
  }

  ghost predicate MeshInv(m: Mesh) { Plan(m) && Cores(m) && Links(m) && Spoken(m) }

  /** More was said, and the same was heard. */
  lemma LinkKept(a: Mesh, b: Mesh, r: string, p: string)
    requires r in a.cores && p in a.cores[r].byPeer && r in b.cores && LinkOk(a, r, p)
    requires p in b.cores[r].byPeer && b.cores[r].byPeer[p] == a.cores[r].byPeer[p] && Heard(b, r, p) == Heard(a, r, p)
    requires forall m :: Holds(a.cores[r], a.cores[r].byPeer[p], m) ==> Holds(b.cores[r], a.cores[r].byPeer[p], m)
    requires LogOf(a, r, p) <= LogOf(b, r, p) && Clean(LogOf(b, r, p))
    ensures LinkOk(b, r, p)
  {
    assert LogOf(b, r, p)[..Heard(b, r, p)] == LogOf(a, r, p)[..Heard(a, r, p)];
  }

  /** Router x goes on as d, and of the records only those between x and p change. */
  ghost predicate GoesOn(a: Mesh, b: Mesh, x: string, d: Core, p: Option<string>) {
    && x in a.cores && b.cores == a.cores[x := d] && b.talk == a.talk
    && Evolves(a.cores[x], d, p) && AllTold(d.logs, d.t.out)
    && forall r, s :: !Between(x, p, r, s) ==> Heard(b, r, s) == Heard(a, r, s) && FrozenOf(b, r, s) == FrozenOf(a, r, s)
  }

  predicate Between(x: string, p: Option<string>, r: string, s: string) { (r == x && p == Some(s)) || (s == x && p == Some(r)) }

  function FrozenOf(m: Mesh, r: string, p: string): seq<Note> { if (r, p) in m.frozen then m.frozen[(r, p)] else [] }

  /** The links between x and p. */
  ghost predicate LinksBetween(b: Mesh, x: string, p: Option<string>) {
    && (p.Some? && x in b.cores && p.value in b.cores[x].byPeer ==> LinkOk(b, x, p.value))
    && (p.Some? && p.value in b.cores && x in b.cores[p.value].byPeer ==> LinkOk(b, p.value, x))
  }

  lemma LogGrows(a: Mesh, b: Mesh, x: string, d: Core, p: Option<string>, r: string, s: string)
    requires GoesOn(a, b, x, d, p) && !Between(x, p, r, s) && Clean(LogOf(a, r, s))
    ensures LogOf(a, r, s) <= LogOf(b, r, s) && Clean(LogOf(b, r, s))
  {
    if s == x {
      assert Same(a.cores[x], d, r);
      if r in d.byPeer && d.byPeer[r] in d.logs { assert Told(d.logs[d.byPeer[r]], d.t.out); }
    }
  }

  lemma LinkAfter(a: Mesh, b: Mesh, x: string, d: Core, p: Option<string>, r: string, s: string)
    requires GoesOn(a, b, x, d, p) && !Between(x, p, r, s)
    requires r in b.cores && s in b.cores[r].byPeer && (r in a.cores && s in a.cores[r].byPeer ==> LinkOk(a, r, s))
    ensures LinkOk(b, r, s)
  {
    if r == x { assert Same(a.cores[x], d, s); }
    LogGrows(a, b, x, d, p, r, s);
    LinkKept(a, b, r, s);
  }

  lemma LinksAfter(a: Mesh, b: Mesh, x: string, d: Core, p: Option<string>)
    requires Links(a) && GoesOn(a, b, x, d, p)
    requires LinksBetween(b, x, p)
    ensures Links(b)
  {
    forall r, s | r in b.cores && s in b.cores[r].byPeer ensures LinkOk(b, r, s) {
      if !Between(x, p, r, s) {
        assert r in a.cores;
        if r == x { assert Same(a.cores[x], d, s); }
        LinkAfter(a, b, x, d, p, r, s);
      }
    }
  }

  lemma InvParts(d: Core)
    requires Inv(d)
    ensures AllTold(d.logs, d.t.out) && PeersOk(d)
  {
  }

  lemma CoresAfter(a: Mesh, b: Mesh, x: string, d: Core)
    requires Cores(a) && Inv(d) && b.cores == a.cores[x := d]
    ensures Cores(b)
  {
    forall r | r in b.cores ensures Inv(b.cores[r]) {
      if r != x { assert Inv(a.cores[r]); }
    }
  }

  lemma PlanAfter(a: Mesh, b: Mesh, x: string, d: Core)
    requires Plan(a) && x in a.cores && b.cores == a.cores[x := d] && b.own.Keys == a.own.Keys && b.home == a.home
    requires Part(a, x, d)
    ensures Plan(b)
  {
    forall r | r in b.cores ensures Part(b, r, b.cores[r]) {
      assert Part(a, r, b.cores[r]);
      forall u | u in b.cores[r].sessions ensures Peered(b, r, b.cores[r].sessions[u]) {
        assert Peered(a, r, b.cores[r].sessions[u]);
      }
    }
  }

  /** One router's step, as seen from its own core, and the links between it and p. */
  ghost predicate Steps(a: Mesh, b: Mesh, x: string, d: Core, p: Option<string>) {
    && GoesOn(a, b, x, d, p) && Part(a, x, d) && LinksBetween(b, x, p)
    && b.own == a.own && b.home == a.home && b.up == a.up
  }

  lemma RouterStep(a: Mesh, b: Mesh, x: string, d: Core, p: Option<string>)
    requires MeshInv(a) && Steps(a, b, x, d, p) && Inv(d)
    ensures MeshInv(b)
  {
    PlanAfter(a, b, x, d);
    CoresAfter(a, b, x, d);
    LinksAfter(a, b, x, d, p);
  }

  // ---------------------------------------------------------------- declarations

  lemma SpeaksSteps(m: Mesh, r: string, d: Core, b: Mesh)
    requires Plan(m) && r in m.cores && b == m.(cores := m.cores[r := d]) && PeersOk(m.cores[r])
    requires AllTold(d.logs, d.t.out) && Grows(m.cores[r], d) && Spares(m.cores[r], d, None)
    ensures Steps(m, b, r, d, None)
  {
    GrowsEvolves(m.cores[r], d, None);
    GrownPart(m, r, d);
  }

  lemma SpeaksOk(m: Mesh, r: string, d: Core, b: Mesh)
    requires MeshInv(m) && r in m.cores && b == m.(cores := m.cores[r := d])
    requires Inv(d) && Grows(m.cores[r], d) && Spares(m.cores[r], d, None)
    ensures MeshInv(b)
  {
    InvParts(m.cores[r]);
    InvParts(d);
    SpeaksSteps(m, r, d, b);
    RouterStep(m, b, r, d, None);
  }

  lemma DeclaresOk(m: Mesh, r: string, kind: DeclKind, expr: string, b: Mesh)
    requires MeshInv(m) && r in m.cores && b == m.(cores := m.cores[r := LocalDeclare(m.cores[r], kind, expr)])
    ensures MeshInv(b)
  {
    var d := LocalDeclare(m.cores[r], kind, expr);
    DeclareGrows(m.cores[r], kind, expr);
    LocalDeclareOk(m.cores[r], kind, expr);
    SpeaksOk(m, r, d, b);
  }

  lemma UndeclaresOk(m: Mesh, r: string, key: DKey, b: Mesh)
    requires MeshInv(m) && r in m.cores && b == m.(cores := m.cores[r := LocalUndeclare(m.cores[r], key)])
    ensures MeshInv(b)
  {
    var d := LocalUndeclare(m.cores[r], key);
    UndeclareGrows(m.cores[r], key);
    LocalUndeclareOk(m.cores[r], key);
    SpeaksOk(m, r, d, b);
  }

  lemma TakesIdOk(m: Mesh, r: string, b: Mesh)
    requires MeshInv(m) && r in m.cores && b == m.(cores := m.cores[r := SkipId(m.cores[r])])
    ensures MeshInv(b)
  {
    SkipIdOk(m.cores[r]);
    SpeaksOk(m, r, SkipId(m.cores[r]), b);
  }

  lemma NoteOk(log: seq<Note>, n: Note)
    requires Clean(log) && (n.Declared? <==> n.key !in Replay(log))
    ensures Clean(log + [n]) && Replay(log + [n]) == Noted(Replay(log), n)
  {
    assert (log + [n])[..|log|] == log;
  }

  lemma SaysSpoken(m: Mesh, k: string, n: Note, b: Mesh)
    requires Spoken(m) && Enabled(m, Says(k, n)) && b == Next(m, Says(k, n))
    ensures Spoken(b)
  {
    if k in m.up { NoteOk(m.talk[k], n); }
  }

  /** A client said more, on links where nothing was heard beyond. */
  lemma TalkMore(a: Mesh, b: Mesh, k: string)
    requires Links(a) && k in a.talk && k in b.talk && b.talk == a.talk[k := b.talk[k]] && a.talk[k] <= b.talk[k] && Clean(b.talk[k])
    requires b.cores == a.cores && b.heard == a.heard && b.frozen == a.frozen
    ensures Links(b)
  {
    forall r, p | r in b.cores && p in b.cores[r].byPeer ensures LinkOk(b, r, p) {
      LinkHolds(a, r, p);
      TalkLog(a, b, k, r, p);
      LinkKept(a, b, r, p);
    }
  }

  lemma TalkLog(a: Mesh, b: Mesh, k: string, r: string, p: string)
    requires k in a.talk && k in b.talk && b.talk == a.talk[k := b.talk[k]] && a.talk[k] <= b.talk[k] && Clean(b.talk[k])
    requires b.cores == a.cores && b.frozen == a.frozen && Clean(LogOf(a, r, p))
    ensures LogOf(a, r, p) <= LogOf(b, r, p) && Clean(LogOf(b, r, p))
  {
  }

  lemma LinkHolds(m: Mesh, r: string, p: string)
    requires Links(m) && r in m.cores && p in m.cores[r].byPeer
    ensures LinkOk(m, r, p)
  {
  }

  lemma SameLinks(a: Mesh, b: Mesh)
    requires Links(a) && b.cores == a.cores && b.heard == a.heard && b.frozen == a.frozen && b.talk == a.talk
    ensures Links(b)
  {
    forall r, p | r in b.cores && p in b.cores[r].byPeer ensures LinkOk(b, r, p) { LinkHolds(a, r, p); }
  }

  lemma SaysLinks(m: Mesh, k: string, n: Note, b: Mesh)
    requires Links(m) && Spoken(b) && Enabled(m, Says(k, n)) && b == Next(m, Says(k, n))
    ensures Links(b)
  {
    if k in m.up {
      assert b.talk == m.talk[k := b.talk[k]];
      TalkMore(m, b, k);
    } else {
      SameLinks(m, b);
    }
  }

  lemma SamePlan(a: Mesh, b: Mesh)
    requires Plan(a) && b.cores == a.cores && b.own.Keys == a.own.Keys && b.home == a.home
    ensures Plan(b)
  {
    forall r | r in b.cores ensures Part(b, r, b.cores[r]) {
      assert Part(a, r, a.cores[r]);
      forall u | u in b.cores[r].sessions ensures Peered(b, r, b.cores[r].sessions[u]) {
        assert Peered(a, r, a.cores[r].sessions[u]);
      }
    }
  }

  lemma SaysOk(m: Mesh, k: string, n: Note, b: Mesh)
    requires MeshInv(m) && Enabled(m, Says(k, n)) && b == Next(m, Says(k, n))
    ensures MeshInv(b)
  {
    SaysSpoken(m, k, n, b);
    SaysLinks(m, k, n, b);
    SaysParts(m, k, n, b);
    SamePlan(m, b);
    SameCores(m, b);
  }

  lemma SaysParts(m: Mesh, k: string, n: Note, b: Mesh)
    requires Enabled(m, Says(k, n)) && b == Next(m, Says(k, n))
    ensures b.cores == m.cores && b.home == m.home && b.own.Keys == m.own.Keys
  {
  }

  lemma SameCores(a: Mesh, b: Mesh)
    requires Cores(a) && b.cores == a.cores
    ensures Cores(b)
  {
  }

  // ---------------------------------------------------------------- hearing

  lemma LinkHeard(m: Mesh, b: Mesh, r: string, p: string, d: Core)
    requires r in m.cores && p in m.cores[r].byPeer && r != p && LinkOk(m, r, p) && Heard(m, r, p) < |LogOf(m, r, p)|
    requires b.cores == m.cores[r := d] && b.talk == m.talk && b.frozen == m.frozen && d.byPeer == m.cores[r].byPeer
    requires Heard(b, r, p) == Heard(m, r, p) + 1 && Holds(d, d.byPeer[p], Replay(LogOf(m, r, p)[..Heard(m, r, p) + 1]))
    ensures LinkOk(b, r, p)
  {
    assert LogOf(b, r, p) == LogOf(m, r, p);
  }

  /** What p heard of r is the same, though r may have said more. */
  lemma OtherLink(m: Mesh, b: Mesh, r: string, p: string, d: Core)
    requires p in m.cores && r in m.cores && r != p && r in m.cores[p].byPeer && LinkOk(m, p, r)
    requires b.cores == m.cores[r := d] && b.frozen == m.frozen && Heard(b, p, r) == Heard(m, p, r)
    requires Grows(m.cores[r], d) && AllTold(d.logs, d.t.out)
    ensures LinkOk(b, p, r)
  {
    if p in d.byPeer && d.byPeer[p] in d.logs { assert Told(d.logs[d.byPeer[p]], d.t.out); }
    LinkKept(m, b, p, r);
  }

  lemma NotItself(m: Mesh, r: string, p: string)
    requires Plan(m) && r in m.cores && p in m.cores[r].byPeer
    ensures r != p
  {
    assert Part(m, r, m.cores[r]);
  }

  lemma GrownPart(m: Mesh, r: string, d: Core)
    requires Plan(m) && r in m.cores && d.sessions == m.cores[r].sessions && d.byPeer == m.cores[r].byPeer
    ensures Part(m, r, d)
  {
    assert Part(m, r, m.cores[r]);
  }

  lemma HearingOne(a: Mesh, b: Mesh, x: string, p: string, h: nat)
    requires b.heard == a.heard[(x, p) := h] && b.frozen == a.frozen
    ensures Heard(b, x, p) == h && forall r, s :: (r, s) != (x, p) ==> Heard(b, r, s) == Heard(a, r, s)
    ensures forall r, s :: FrozenOf(b, r, s) == FrozenOf(a, r, s)
  {
  }

  /** d took in the next note of p. */
  ghost predicate TookIn(m: Mesh, r: string, p: string, d: Core)
    requires r in m.cores && p in m.cores[r].byPeer
  {
    && Heard(m, r, p) < |LogOf(m, r, p)| && Grows(m.cores[r], d) && Spares(m.cores[r], d, Some(m.cores[r].byPeer[p]))
    && Holds(d, m.cores[r].byPeer[p], Replay(LogOf(m, r, p)[..Heard(m, r, p) + 1]))
  }

  lemma HeardLinks(m: Mesh, r: string, p: string, d: Core, b: Mesh)
    requires Links(m) && r in m.cores && p in m.cores[r].byPeer && r != p && AllTold(d.logs, d.t.out) && TookIn(m, r, p, d)
    requires b == m.(cores := m.cores[r := d], heard := m.heard[(r, p) := Heard(m, r, p) + 1])
    ensures LinksBetween(b, r, Some(p))
  {
    HearingOne(m, b, r, p, Heard(m, r, p) + 1);
    LinkHolds(m, r, p);
    LinkHeard(m, b, r, p, d);
    if p in m.cores && r in m.cores[p].byPeer {
      LinkHolds(m, p, r);
      OtherLink(m, b, r, p, d);
    }
  }

  lemma HeardGoesOn(m: Mesh, r: string, p: string, d: Core, b: Mesh)
    requires r in m.cores && p in m.cores[r].byPeer && PeersOk(m.cores[r]) && AllTold(d.logs, d.t.out) && TookIn(m, r, p, d)
    requires b == m.(cores := m.cores[r := d], heard := m.heard[(r, p) := Heard(m, r, p) + 1])
    ensures GoesOn(m, b, r, d, Some(p))
  {
    GrowsEvolves(m.cores[r], d, Some(p));
    HearingOne(m, b, r, p, Heard(m, r, p) + 1);
  }

  lemma HeardOk(m: Mesh, r: string, p: string, d: Core, b: Mesh)
    requires MeshInv(m) && r in m.cores && p in m.cores[r].byPeer && r != p && TookIn(m, r, p, d) && Inv(d)
    requires b == m.(cores := m.cores[r := d], heard := m.heard[(r, p) := Heard(m, r, p) + 1])
    ensures MeshInv(b)
  {
    InvParts(m.cores[r]);
    InvParts(d);
    HeardLinks(m, r, p, d, b);
    HeardGoesOn(m, r, p, d, b);
    GrownPart(m, r, d);
    RouterStep(m, b, r, d, Some(p));
  }

  lemma EndKnown(m: Mesh, r: string, p: string)
    requires Cores(m) && r in m.cores && p in m.cores[r].byPeer
    ensures m.cores[r].byPeer[p] in m.cores[r].sessions && Inv(m.cores[r])
  {
  }

  lemma HearsTakes(m: Mesh, r: string, p: string) returns (d: Core)
    requires Cores(m) && Links(m) && Enabled(m, Hears(r, p))
    ensures TookIn(m, r, p, d) && Inv(d) && d == HearOne(m.cores[r], m.cores[r].byPeer[p], LogOf(m, r, p)[Heard(m, r, p)])
  {
    EndKnown(m, r, p);
    LinkHolds(m, r, p);
    d := TakesNext(m.cores[r], m.cores[r].byPeer[p], LogOf(m, r, p), Heard(m, r, p));
  }

  lemma HearsNext(m: Mesh, r: string, p: string, d: Core, b: Mesh)
    requires Enabled(m, Hears(r, p)) && d == HearOne(m.cores[r], m.cores[r].byPeer[p], LogOf(m, r, p)[Heard(m, r, p)])
    requires b == Next(m, Hears(r, p))
    ensures b == m.(cores := m.cores[r := d], heard := m.heard[(r, p) := Heard(m, r, p) + 1])
  {
  }

  lemma HearsCore(m: Mesh, r: string, p: string, b: Mesh) returns (d: Core)
    requires Cores(m) && Links(m) && Enabled(m, Hears(r, p)) && b == Next(m, Hears(r, p))
    ensures TookIn(m, r, p, d) && Inv(d) && b == m.(cores := m.cores[r := d], heard := m.heard[(r, p) := Heard(m, r, p) + 1])
  {
    d := HearsTakes(m, r, p);
    HearsNext(m, r, p, d, b);
  }

  lemma HearsOk(m: Mesh, r: string, p: string, b: Mesh)
    requires MeshInv(m) && Enabled(m, Hears(r, p)) && b == Next(m, Hears(r, p))
    ensures MeshInv(b)
  {
    NotItself(m, r, p);
    var d := HearsCore(m, r, p, b);
    HeardOk(m, r, p, d, b);
  }

  // ---------------------------------------------------------------- connections

  /** What r said before its end went is still under way. */
  lemma DroppedLink(m: Mesh, r: string, p: string, d: Core, b: Mesh)
    requires r in m.cores && p in m.cores && r != p && r in m.cores[p].byPeer && LinkOk(m, p, r) && p !in d.byPeer
    requires b == m.(cores := m.cores[r := d], frozen := m.frozen[(p, r) := LogOf(m, p, r)])
    ensures LinkOk(b, p, r)
  {
    assert LogOf(b, p, r) == LogOf(m, p, r);
  }

  lemma DroppedRecords(m: Mesh, r: string, p: string, b: Mesh)
    requires b.heard == m.heard && b.frozen == m.frozen[(p, r) := LogOf(m, p, r)]
    ensures forall x, s :: (x, s) != (p, r) ==> FrozenOf(b, x, s) == FrozenOf(m, x, s)
    ensures forall x, s :: Heard(b, x, s) == Heard(m, x, s)
  {
  }

  lemma FewerPart(m: Mesh, r: string, p: string, d: Core)
    requires Plan(m) && r in m.cores && Closed(m.cores[r], d, p)
    ensures Part(m, r, d)
  {
    assert Part(m, r, m.cores[r]);
  }

  lemma DroppedSteps(m: Mesh, r: string, p: string, d: Core, b: Mesh)
    requires Plan(m) && Links(m) && r in m.cores && p in m.cores[r].byPeer && r != p && Closed(m.cores[r], d, p)
    requires AllTold(d.logs, d.t.out)
    requires b == m.(cores := m.cores[r := d], frozen := m.frozen[(p, r) := LogOf(m, p, r)])
    ensures Steps(m, b, r, d, Some(p))
  {
    DroppedRecords(m, r, p, b);
    FewerPart(m, r, p, d);
    if p in m.cores && r in m.cores[p].byPeer {
      LinkHolds(m, p, r);
      DroppedLink(m, r, p, d, b);
    }
  }

  lemma DroppedOk(m: Mesh, r: string, p: string, d: Core, b: Mesh)
    requires MeshInv(m) && r in m.cores && p in m.cores[r].byPeer && r != p && Closed(m.cores[r], d, p)
    requires b == m.(cores := m.cores[r := d], frozen := m.frozen[(p, r) := LogOf(m, p, r)])
    ensures MeshInv(b)
  {
    InvParts(d);
    DroppedSteps(m, r, p, d, b);
    RouterStep(m, b, r, d, Some(p));
  }

  lemma DropsOk(m: Mesh, r: string, p: string, order: seq<Decl>, b: Mesh)
    requires MeshInv(m) && Enabled(m, Drops(r, p, order)) && b == Next(m, Drops(r, p, order))
    ensures MeshInv(b)
  {
    NotItself(m, r, p);
    EndKnown(m, r, p);
    var d := CloseEvolves(m.cores[r], p, order);
    DroppedOk(m, r, p, d, b);
  }

  lemma UpRecords(m: Mesh, r: string, p: string, b: Mesh)
    requires b.heard == m.heard - {(r, p)} && b.frozen == m.frozen - {(r, p)}
    ensures Heard(b, r, p) == 0 && FrozenOf(b, r, p) == []
    ensures forall x, s :: (x, s) != (r, p) ==> Heard(b, x, s) == Heard(m, x, s) && FrozenOf(b, x, s) == FrozenOf(m, x, s)
  {
  }

  /** Nothing is heard on a new link yet. */
  lemma FreshLink(b: Mesh, r: string, p: string)
    requires r in b.cores && p in b.cores[r].byPeer && Heard(b, r, p) == 0 && Clean(LogOf(b, r, p))
    requires Holds(b.cores[r], b.cores[r].byPeer[p], map[])
    ensures LinkOk(b, r, p)
  {
    assert LogOf(b, r, p)[..0] == [];
  }

  lemma HoldsNothing(m: Mesh, r: string, p: string)
    requires r in m.cores && p in m.cores[r].byPeer && LinkOk(m, r, p) && Heard(m, r, p) == 0
    ensures Holds(m.cores[r], m.cores[r].byPeer[p], map[])
  {
    assert LogOf(m, r, p)[..0] == [];
  }

  lemma CleanLog(b: Mesh, r: string, p: string)
    requires (p in b.cores ==> AllTold(b.cores[p].logs, b.cores[p].t.out))
    requires p in b.cores && r !in b.cores[p].byPeer ==> Clean(FrozenOf(b, r, p))
    requires p !in b.cores && p in b.talk ==> Clean(b.talk[p])
    ensures Clean(LogOf(b, r, p))
  {
    if p in b.cores && r in b.cores[p].byPeer && b.cores[p].byPeer[r] in b.cores[p].logs {
      assert Told(b.cores[p].logs[b.cores[p].byPeer[r]], b.cores[p].t.out);
    }
  }

  lemma MorePart(m: Mesh, r: string, p: string, role: Role, d: Core)
    requires Plan(m) && r in m.cores && r != p && Opened(m.cores[r], d, p, role) && Peered(m, r, Sess(p, role))
    ensures Part(m, r, d)
  {
    assert Part(m, r, m.cores[r]);
  }

  /** The end of r towards p came up; if the other is up, it has not heard anything either. */
  ghost predicate Rises(m: Mesh, r: string, p: string, role: Role) {
    && r in m.cores && r != p && p !in m.cores[r].byPeer && Peered(m, r, Sess(p, role))
    && (p in m.cores && r in m.cores[p].byPeer ==> Heard(m, p, r) == 0)
    && (p !in m.cores && p in m.talk ==> Clean(m.talk[p]))
  }

  lemma UpLinks(m: Mesh, r: string, p: string, role: Role, d: Core, b: Mesh)
    requires Links(m) && Rises(m, r, p, role) && Opened(m.cores[r], d, p, role) && AllTold(d.logs, d.t.out)
    requires p in m.cores ==> AllTold(m.cores[p].logs, m.cores[p].t.out)
    requires b == m.(cores := m.cores[r := d], heard := m.heard - {(r, p)}, frozen := m.frozen - {(r, p)})
    ensures LinkOk(b, r, p) && (p in b.cores && r in b.cores[p].byPeer ==> LinkOk(b, p, r))
  {
    UpRecords(m, r, p, b);
    CleanLog(b, r, p);
    FreshLink(b, r, p);
    if p in m.cores && r in m.cores[p].byPeer {
      LinkHolds(m, p, r);
      HoldsNothing(m, p, r);
      CleanLog(b, p, r);
      FreshLink(b, p, r);
    }
  }

  lemma UpSteps(m: Mesh, r: string, p: string, role: Role, d: Core, b: Mesh)
    requires Plan(m) && Links(m) && Rises(m, r, p, role) && Opened(m.cores[r], d, p, role) && AllTold(d.logs, d.t.out)
    requires p in m.cores ==> AllTold(m.cores[p].logs, m.cores[p].t.out)
    requires b == m.(cores := m.cores[r := d], heard := m.heard - {(r, p)}, frozen := m.frozen - {(r, p)})
    ensures Steps(m, b, r, d, Some(p))
  {
    UpRecords(m, r, p, b);
    UpLinks(m, r, p, role, d, b);
    MorePart(m, r, p, role, d);
  }

  lemma UpOk(m: Mesh, r: string, p: string, role: Role, d: Core, b: Mesh)
    requires MeshInv(m) && Rises(m, r, p, role) && Opened(m.cores[r], d, p, role)
    requires b == m.(cores := m.cores[r := d], heard := m.heard - {(r, p)}, frozen := m.frozen - {(r, p)})
    ensures MeshInv(b)
  {
    InvParts(d);
    if p in m.cores { InvParts(m.cores[p]); }
    UpSteps(m, r, p, role, d, b);
    RouterStep(m, b, r, d, Some(p));
  }

  lemma EndUpOk(m: Mesh, r: string, p: string, role: Role)
    requires MeshInv(m) && Rises(m, r, p, role)
    ensures MeshInv(EndUp(m, r, p, role))
  {
    assert Inv(m.cores[r]);
    var d := InstallEvolves(m.cores[r], p, role);
    UpOk(m, r, p, role, d, EndUp(m, r, p, role));
  }

  lemma JoinsOk(m: Mesh, r: string, p: string, b: Mesh)
    requires MeshInv(m) && Enabled(m, Joins(r, p)) && b == Next(m, Joins(r, p))
    ensures MeshInv(b)
  {
    var half := EndUp(m, r, p, Router);
    EndUpOk(m, r, p, Router);
    UpRecords(m, r, p, half);
    EndUpOk(half, p, r, Router);
  }

  lemma OnlyHome(m: Mesh, r: string, k: string)
    requires Plan(m) && Cores(m) && r in m.cores && k in m.cores[r].byPeer && k in m.own
    ensures m.home[k] == r
  {
    assert Inv(m.cores[r]) && Part(m, r, m.cores[r]);
    var u := m.cores[r].byPeer[k];
    assert Peered(m, r, m.cores[r].sessions[u]);
  }

  lemma NewTalkLink(a: Mesh, b: Mesh, k: string, r: string, p: string)
    requires r in a.cores && p in a.cores[r].byPeer && LinkOk(a, r, p) && k in a.talk && k in b.talk && k !in a.cores
    requires b.cores == a.cores && b.heard == a.heard && b.frozen == a.frozen && b.talk == a.talk[k := b.talk[k]] && Clean(b.talk[k])
    requires p == k ==> Heard(a, r, k) == 0
    ensures LinkOk(b, r, p)
  {
    if p == k {
      HoldsNothing(a, r, k);
      FreshLink(b, r, k);
    } else {
      assert LogOf(b, r, p) == LogOf(a, r, p);
    }
  }

  lemma NewTalkLinks(a: Mesh, b: Mesh, k: string)
    requires Links(a) && Plan(a) && Cores(a) && k in a.own && k in a.talk && k in b.talk
    requires b.cores == a.cores && b.heard == a.heard && b.frozen == a.frozen && b.talk == a.talk[k := b.talk[k]] && Clean(b.talk[k])
    requires Heard(a, a.home[k], k) == 0
    ensures Links(b)
  {
    forall r, p | r in b.cores && p in b.cores[r].byPeer ensures LinkOk(b, r, p) {
      LinkHolds(a, r, p);
      if p == k { OnlyHome(a, r, k); }
      NewTalkLink(a, b, k, r, p);
    }
  }

  /** A client starts to speak on a connection on which nothing has been heard. */
  lemma NewTalk(a: Mesh, b: Mesh, k: string, log: seq<Note>)
    requires MeshInv(a) && k in a.own && Clean(log) && Replay(log) == a.own[k] && b == a.(talk := a.talk[k := log], up := a.up + {k})
    requires Heard(a, a.home[k], k) == 0
    ensures MeshInv(b)
  {
    assert b.talk == a.talk[k := b.talk[k]];
    NewTalkLinks(a, b, k);
    SamePlan(a, b);
  }

  lemma CallsOk(m: Mesh, k: string, log: seq<Note>, b: Mesh)
    requires MeshInv(m) && Enabled(m, Calls(k, log)) && b == Next(m, Calls(k, log))
    ensures MeshInv(b)
  {
    var r := m.home[k];
    var half := EndUp(m, r, k, Client);
    assert Peered(m, r, Sess(k, Client));
    EndUpOk(m, r, k, Client);
    UpRecords(m, r, k, half);
    NewTalk(half, b, k, log);
  }

  lemma LeavesOk(m: Mesh, k: string, b: Mesh)
    requires MeshInv(m) && b == m.(up := m.up - {k})
    ensures MeshInv(b)
  {
    SamePlan(m, b);
    SameLinks(m, b);
  }

  lemma OwnStepOk(m: Mesh, e: Event, b: Mesh)
    requires MeshInv(m) && Enabled(m, e) && b == Next(m, e) && (e.Declares? || e.Undeclares? || e.TakesId?)
    ensures MeshInv(b)
  {
    match e
    case Declares(r, kind, expr) => DeclaresOk(m, r, kind, expr, b);
    case Undeclares(r, key) => UndeclaresOk(m, r, key, b);
    case TakesId(r) => TakesIdOk(m, r, b);
  }

  /** Every event keeps each router holding, of each peer, the replay of what it has heard. */
  lemma StepOk(m: Mesh, e: Event, b: Mesh)
    requires MeshInv(m) && Enabled(m, e) && b == Next(m, e)
    ensures MeshInv(b)
  {
    match e
    case Declares(_, _, _) => OwnStepOk(m, e, b);
    case Undeclares(_, _) => OwnStepOk(m, e, b);
    case TakesId(_) => OwnStepOk(m, e, b);
    case Says(k, n) => SaysOk(m, k, n, b);
    case Hears(r, p) => HearsOk(m, r, p, b);
    case Drops(r, p, order) => DropsOk(m, r, p, order, b);
    case Joins(r, p) => JoinsOk(m, r, p, b);
    case Calls(k, log) => CallsOk(m, k, log, b);
    case Leaves(k) => LeavesOk(m, k, b);
  }

  // ---------------------------------------------------------------- runs

  /** New routers and clients, nobody connected. */
  ghost predicate Fresh(m: Mesh) {
    && (forall r :: r in m.cores ==> m.cores[r] == NewCore)
    && (forall k :: k in m.own ==> k !in m.cores && k in m.home && m.home[k] in m.cores && m.own[k] == map[]
                                   && k in m.talk && m.talk[k] == [])
    && m.up == {} && m.heard == map[] && m.frozen == map[]
  }

  lemma FreshOk(m: Mesh)
    requires Fresh(m)
    ensures MeshInv(m)
  {
    NewCoreOk();
    forall r | r in m.cores ensures Inv(m.cores[r]) && Part(m, r, m.cores[r]) { }
  }

  ghost predicate IsRun(m: Mesh, es: seq<Event>)
    decreases |es|
  {
    es == [] || (Enabled(m, es[0]) && IsRun(Next(m, es[0]), es[1..]))
  }

  ghost function Run(m: Mesh, es: seq<Event>): Mesh
    requires IsRun(m, es)
    decreases |es|
  {
    if es == [] then m else Run(Next(m, es[0]), es[1..])
  }

  lemma {:induction false} RunOk(m: Mesh, es: seq<Event>)
    requires MeshInv(m) && IsRun(m, es)
    ensures MeshInv(Run(m, es))
    decreases |es|
  {
    if es != [] {
      StepOk(m, es[0], Next(m, es[0]));
      RunOk(Next(m, es[0]), es[1..]);
    }
  }

  /** Every router is connected to every other, and every client to its router, at both ends. */
  ghost predicate Full(m: Mesh) {
    && (forall r, s :: r in m.cores && s in m.cores && r != s ==> s in m.cores[r].byPeer)
    && (forall k :: k in m.own ==> k in m.up && k in m.home && m.home[k] in m.cores && k in m.cores[m.home[k]].byPeer)
  }

  /** Nothing is under way. */
  ghost predicate AllHeard(m: Mesh) {
    forall r, p :: r in m.cores && p in m.cores[r].byPeer ==> Heard(m, r, p) == |LogOf(m, r, p)|
  }

  /** What each client declared, of one kind. */
  function OfKind(m: map<DKey, string>, kind: DeclKind): map<nat, string> {
    map key | key in m && key.kind == kind :: key.id := m[key]
  }

  function NetOf(m: Mesh, kind: DeclKind): N.Net {
    N.Net(kind, m.cores, map k | k in m.own :: OfKind(m.own[k], kind), m.home)
  }

  lemma HeldWhole(m: Mesh, r: string, p: string)
    requires Links(m) && AllHeard(m) && r in m.cores && p in m.cores[r].byPeer
    ensures Holds(m.cores[r], m.cores[r].byPeer[p], Replay(LogOf(m, r, p)))
  {
    assert LinkOk(m, r, p);
    var log := LogOf(m, r, p);
    assert log[..|log|] == log;
  }

  /** The log of s for r is there. */
  lemma RouterLog(m: Mesh, r: string, s: string)
    requires Plan(m) && Full(m) && r in m.cores && s in m.cores && r != s && PeersOk(m.cores[s])
    ensures var d := m.cores[s]; r in d.byPeer && d.byPeer[r] in d.logs && LogOf(m, r, s) == d.logs[d.byPeer[r]]
  {
    var d := m.cores[s];
    assert Part(m, s, d);
    assert Peered(m, s, d.sessions[d.byPeer[r]]);
  }

  lemma MirrorsOut(c: Core, u: nat, rep: map<DKey, string>, d: Core, kind: DeclKind)
    requires Holds(c, u, rep) && Mirrors(rep, d.t.out)
    ensures var out := N.OutOf(d, kind);
            && (forall id: nat :: Decl(There(u), DKey(kind, id)) in c.live <==> id in out)
            && (forall id: nat :: id in out ==> c.live[Decl(There(u), DKey(kind, id))] == out[id])
  {
    forall id: nat ensures DKey(kind, id) in rep <==> id in N.OutOf(d, kind) { }
  }

  lemma RouterMirror(m: Mesh, kind: DeclKind, r: string, s: string)
    requires Plan(m) && Full(m) && Links(m) && AllHeard(m) && r in m.cores && s in m.cores && r != s
    requires AllTold(m.cores[s].logs, m.cores[s].t.out) && PeersOk(m.cores[s])
    ensures s in m.cores[r].byPeer && N.Mirror(NetOf(m, kind), m.cores[r], s, N.OutOf(m.cores[s], kind))
  {
    RouterLog(m, r, s);
    HeldWhole(m, r, s);
    var log := LogOf(m, r, s);
    assert Told(log, m.cores[s].t.out);
    MirrorsOut(m.cores[r], m.cores[r].byPeer[s], Replay(log), m.cores[s], kind);
  }

  lemma OfKindHeld(c: Core, u: nat, rep: map<DKey, string>, kind: DeclKind)
    requires Holds(c, u, rep)
    ensures var own := OfKind(rep, kind);
            && (forall id: nat :: Decl(There(u), DKey(kind, id)) in c.live <==> id in own)
            && (forall id: nat :: id in own ==> c.live[Decl(There(u), DKey(kind, id))] == own[id])
  {
    forall id: nat ensures id in OfKind(rep, kind) <==> DKey(kind, id) in rep { }
  }

  lemma ClientMirror(m: Mesh, kind: DeclKind, k: string)
    requires Plan(m) && Full(m) && Spoken(m) && Links(m) && AllHeard(m) && k in m.own
    ensures m.home[k] in m.cores && k in m.cores[m.home[k]].byPeer
    ensures N.Mirror(NetOf(m, kind), m.cores[m.home[k]], k, OfKind(m.own[k], kind))
  {
    HeldWhole(m, m.home[k], k);
    assert LogOf(m, m.home[k], k) == m.talk[k];
    OfKindHeld(m.cores[m.home[k]], m.cores[m.home[k]].byPeer[k], m.own[k], kind);
  }

  lemma FullyWired(m: Mesh, kind: DeclKind)
    requires Plan(m) && Full(m) && forall r :: r in m.cores ==> PeersOk(m.cores[r])
    ensures N.Wired(NetOf(m, kind))
  {
    var net := NetOf(m, kind);
    assert net.clients.Keys == m.own.Keys;
    forall r | r in net.cores ensures N.RouterWired(net, r, net.cores[r]) {
      assert Part(m, r, m.cores[r]);
      forall u | u in m.cores[r].sessions
        ensures N.PeerWired(net, r, m.cores[r].sessions[u].peer, m.cores[r].sessions[u].role)
      {
        assert Peered(m, r, m.cores[r].sessions[u]);
      }
    }
    forall k | k in net.clients ensures N.ClientWired(net, k) { }
  }

  lemma PartsOf(m: Mesh)
    requires Cores(m)
    ensures forall r :: r in m.cores ==> PeersOk(m.cores[r]) && Sound(m.cores[r])
  {
    forall r | r in m.cores ensures PeersOk(m.cores[r]) && Sound(m.cores[r]) { assert Inv(m.cores[r]); }
  }

  lemma ConvergedWhenHeard(m: Mesh, kind: DeclKind)
    requires MeshInv(m) && Full(m) && AllHeard(m)
    ensures N.Converged(NetOf(m, kind))
  {
    PartsOf(m);
    FullyWired(m, kind);
    var net := NetOf(m, kind);
    forall k | k in net.clients ensures N.Mirror(net, net.cores[net.home[k]], k, net.clients[k]) { ClientMirror(m, kind, k); }
    forall r, s | r in net.cores && s in net.cores && r != s
      ensures N.Mirror(net, net.cores[r], s, N.OutOf(net.cores[s], kind)) {
      assert Sound(net.cores[s]);
      RouterMirror(m, kind, r, s);
    }
  }

  /** MAIN: however connections that come and go, declarations, withdrawals and their hearing interleave
      in a run from new routers and clients, when all are connected and everything said has been
      heard, the mesh has converged, for every kind of declaration. */
  lemma HeardIsConverged(m: Mesh, es: seq<Event>, kind: DeclKind)
    requires Fresh(m) && IsRun(m, es) && Full(Run(m, es)) && AllHeard(Run(m, es))
    ensures N.Converged(NetOf(Run(m, es), kind))
  {
    FreshOk(m);
    RunOk(m, es);
    ConvergedWhenHeard(Run(m, es), kind);
  }

  /** MAIN: so that a put made then reaches every matching subscription exactly once. */
  lemma HeardIsExactlyOnce(m: Mesh, es: seq<Event>, kind: DeclKind, src: string, key: string, n: string, id: nat)
    requires Fresh(m) && IsRun(m, es) && Full(Run(m, es)) && AllHeard(Run(m, es))
    requires N.IsNode(NetOf(Run(m, es), kind), src) && N.IsNode(NetOf(Run(m, es), kind), n)
    ensures N.Converged(NetOf(Run(m, es), kind))
    ensures var net := NetOf(Run(m, es), kind); N.Samples(net, src, key, n, id) == if N.Wanted(net, n, id, key) then 1 else 0
  {
    HeardIsConverged(m, es, kind);
    N.ExactlyOnce(NetOf(Run(m, es), kind), src, key, n, id);
  }
}
