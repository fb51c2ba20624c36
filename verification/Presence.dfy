/** What a hub makes of the presence tokens on the bus: which nodes live, which room is
    where, and when a silence means that the hub itself is cut off. */
module Presence {
  import opened Wrappers

  const SETTLE := 1000

  /** Names matter by identity and order only. */
  type Node = nat
  type Room = nat
  type Inst = nat

  datatype Token =
    | NodePut(node: Node, inst: Inst)
    | NodeDel(node: Node, inst: Inst)
    | RoomPut(room: Room, node: Node, inst: Inst)
    | RoomDel(room: Room, node: Node, inst: Inst)

  datatype Seen = Seen(inst: Inst, live: bool, goneAt: Option<nat>)

  datatype Loc = Loc(node: Node, inst: Inst)

  datatype View = View(me: Node, grace: nat, nodes: map<Node, Seen>, routing: map<Room, Loc>, seenOther: bool,
                       isolated: Option<nat>, held: set<Room>, pending: seq<Token>, lastAt: nat,
                       duplicates: nat, recovered: bool)

  function New(me: Node, grace: nat): View { View(me, grace, map[], map[], false, None, {}, [], 0, 0, false) }

  // ---------------------------------------------------------------- tokens

  function Without(s: seq<Token>, x: Token): seq<Token> {
    if s == [] then [] else (if s[0] == x then [] else [s[0]]) + Without(s[1..], x)
  }

  /** Puts count at once and cancel a delete that waits; deletes wait. */
  function OnToken(v: View, t: Token, now: nat): View {
    match t
    case NodePut(node, inst) =>
      var other := node != v.me;
      v.(lastAt := now, pending := Without(v.pending, NodeDel(node, inst)),
         seenOther := v.seenOther || other,
         isolated := if other then None else v.isolated,
         recovered := v.recovered || (other && v.isolated.Some?),
         nodes := v.nodes[node := Seen(inst, true, None)])
    case RoomPut(room, node, inst) =>
      v.(lastAt := now, pending := Without(v.pending, RoomDel(room, node, inst)),
         duplicates := if room in v.routing && v.routing[room].node != node then v.duplicates + 1 else v.duplicates,
         held := v.held - {room},
         routing := v.routing[room := Loc(node, inst)])
    case _ => v.(lastAt := now, pending := v.pending + [t])
  }

  // ---------------------------------------------------------------- settling

  predicate Quiet(v: View, now: nat) { now >= v.lastAt + SETTLE }

  /** A node is known to live, or unknown and this one. */
  predicate NodeLives(v: View, n: Node) { if n in v.nodes then v.nodes[n].live else n == v.me }

  predicate Alive(v: View, room: Room) { room in v.routing && NodeLives(v, v.routing[room].node) }

  function DeadHeld(v: View): set<Room> { set r | r in v.held && !Alive(v, r) }

  function Release(v: View): View { v.(held := {}, routing := v.routing - DeadHeld(v)) }

  predicate NodeGone(v: View, n: Node) { n in v.nodes && NodeDel(n, v.nodes[n].inst) in v.pending }

  /** The nodes after the deletes of a batch: only a delete of the instance last seen counts. */
  function NodesAfter(nodes: map<Node, Seen>, batch: seq<Token>, now: nat): map<Node, Seen> {
    map n | n in nodes :: if NodeDel(n, nodes[n].inst) in batch then nodes[n].(live := false, goneAt := Some(now)) else nodes[n]
  }

  /** The last other node seen went in this batch. */
  predicate CutOff(v: View, after: map<Node, Seen>) {
    && v.seenOther
    && (exists n :: n in v.nodes && n != v.me && NodeGone(v, n))
    && (forall n :: n in after && n != v.me ==> !after[n].live)
  }

  /** The delete of the room's present owner waits. */
  predicate RoomGone(v: View, r: Room) { r in Gone(v.routing, v.me, v.pending, true) + Gone(v.routing, v.me, v.pending, false) }

  /** The rooms of other nodes, or of this one, whose present owner deleted them in a batch. */
  function Gone(routing: map<Room, Loc>, me: Node, batch: seq<Token>, foreign: bool): set<Room> {
    set r | r in routing && RoomDel(r, routing[r].node, routing[r].inst) in batch && (routing[r].node != me) == foreign
  }

  /** The whole batch at once: nodes first, then isolation, then rooms, those of other nodes
      being held back in isolation. */
  function Judge(v: View, now: nat): View {
    var nodes := NodesAfter(v.nodes, v.pending, now);
    var (theirs, ours) := (Gone(v.routing, v.me, v.pending, true), Gone(v.routing, v.me, v.pending, false));
    var isolated := if v.isolated.None? && CutOff(v, nodes) then Some(now) else v.isolated;
    var w := v.(nodes := nodes, isolated := isolated, pending := []);
    if isolated.Some? then w.(held := v.held + theirs, routing := v.routing - ours)
    else Release(w.(routing := v.routing - theirs - ours))
  }

  function Settle(v: View, now: nat): View {
    if v.pending == [] && v.isolated.None? && v.held != {} then (if Quiet(v, now) then Release(v) else v)
    else if v.pending == [] || !Quiet(v, now) then v
    else Judge(v, now)
  }

  /** The nodes a room may be placed on: this one, the live, and those gone for less than the grace. */
  function Candidates(v: View, now: nat): set<Node> {
    {v.me} + set n | n in v.nodes && (v.nodes[n].live || (v.nodes[n].goneAt.Some? && now < v.nodes[n].goneAt.value + v.grace))
  }

  // ---------------------------------------------------------------- safety

  /** Held rooms are routed, to other nodes. */
  ghost predicate HeldOk(v: View) { forall r :: r in v.held ==> r in v.routing && v.routing[r].node != v.me }

  lemma TokenKeeps(v: View, t: Token, now: nat)
    requires HeldOk(v)
    ensures HeldOk(OnToken(v, t, now)) && v.routing.Keys <= OnToken(v, t, now).routing.Keys
  {
  }

  /** MAIN: what settling keeps and what goes. Held rooms stay routed, and no room changes its place. A room
      goes if and only if the bus was quiet and, in isolation, this node deleted it as its present owner;
      otherwise, its present owner deleted it or it was held and its node does not live afterwards. Which rooms
      are held afterwards is exact as well. */
  lemma SettleKeeps(v: View, now: nat)
    requires HeldOk(v)
    ensures var w := Settle(v, now);
            && HeldOk(w) && w.me == v.me && w.grace == v.grace
            && w.routing.Keys <= v.routing.Keys && (forall r :: r in w.routing ==> w.routing[r] == v.routing[r])
            && (forall r :: r in v.routing ==> (r !in w.routing <==> Goes(v, w, now, r)))
            && (forall r :: r in w.held <==> HeldAfter(v, w, now, r))
  {
  }

  /** Whether room r is held back once v has settled to w: in isolation, what was held and the rooms of other
      nodes whose present owner deleted them; otherwise nothing, once the bus is quiet. */
  ghost predicate HeldAfter(v: View, w: View, now: nat, r: Room) {
    if !Quiet(v, now) then r in v.held
    else w.isolated.Some? && (r in v.held || (RoomGone(v, r) && r in v.routing && v.routing[r].node != v.me))
  }

  /** Why room r goes when v settles to w. */
  ghost predicate Goes(v: View, w: View, now: nat, r: Room)
    requires r in v.routing
  {
    && Quiet(v, now)
    && if w.isolated.Some? then RoomGone(v, r) && v.routing[r].node == v.me
       else RoomGone(v, r) || (r in v.held && !NodeLives(w, v.routing[r].node))
  }

  datatype Event = Arrive(t: Token, at: nat) | Pass(at: nat)

  function Step(v: View, e: Event): View {
    match e
    case Arrive(t, at) => OnToken(v, t, at)
    case Pass(at) => Settle(v, at)
  }

  function Run(v: View, es: seq<Event>): View
    decreases |es|
  {
    if es == [] then v else Run(Step(v, es[0]), es[1..])
  }

  lemma StepKeeps(v: View, e: Event)
    requires HeldOk(v)
    ensures HeldOk(Step(v, e)) && Step(v, e).me == v.me
  {
    match e
    case Arrive(t, at) => TokenKeeps(v, t, at);
    case Pass(at) => SettleKeeps(v, at);
  }

  lemma {:induction false} RunHeldOk(v: View, es: seq<Event>)
    requires HeldOk(v)
    ensures HeldOk(Run(v, es)) && Run(v, es).me == v.me
    decreases |es|
  {
    if es != [] {
      StepKeeps(v, es[0]);
      RunHeldOk(Step(v, es[0]), es[1..]);
    }
  }

  // ---------------------------------------------------------------- why rooms leave, over whole runs

  predicate IsPutOf(e: Event, r: Room) { e.Arrive? && e.t.RoomPut? && e.t.room == r }

  predicate IsDelOf(e: Event, r: Room, l: Loc) { e.Arrive? && e.t == RoomDel(r, l.node, l.inst) }

  /** The delete of room r by owner l arrived, and no put of r after it. */
  ghost predicate Deleted(es: seq<Event>, r: Room, l: Loc) {
    exists i :: 0 <= i < |es| && IsDelOf(es[i], r, l) && forall j :: i < j < |es| ==> !IsPutOf(es[j], r)
  }

  /** Deletes that wait for a room's present owner, and rooms that are held, stem from such deletes. */
  ghost predicate Traced(es: seq<Event>, v: View) {
    && (forall r :: r in v.routing && RoomDel(r, v.routing[r].node, v.routing[r].inst) in v.pending ==> Deleted(es, r, v.routing[r]))
    && (forall r :: r in v.held ==> r in v.routing && Deleted(es, r, v.routing[r]))
  }

  lemma DeletedStill(es: seq<Event>, e: Event, r: Room, l: Loc)
    requires Deleted(es, r, l) && !IsPutOf(e, r)
    ensures Deleted(es + [e], r, l)
  {
    var i :| 0 <= i < |es| && IsDelOf(es[i], r, l) && forall j :: i < j < |es| ==> !IsPutOf(es[j], r);
    assert IsDelOf((es + [e])[i], r, l);
  }

  lemma DeletedNow(es: seq<Event>, e: Event, r: Room, l: Loc)
    requires IsDelOf(e, r, l)
    ensures Deleted(es + [e], r, l)
  {
    assert IsDelOf((es + [e])[|es|], r, l);
  }

  lemma {:induction false} WithoutMembers(s: seq<Token>, x: Token, y: Token)
    ensures y in Without(s, x) <==> y in s && y != x
  {
    if s != [] { WithoutMembers(s[1..], x, y); }
  }

  lemma TracedArrive(es: seq<Event>, v: View, t: Token, at: nat)
    requires Traced(es, v)
    ensures Traced(es + [Arrive(t, at)], OnToken(v, t, at))
  {
    var (e, w) := (Arrive(t, at), OnToken(v, t, at));
    forall r | r in w.routing && RoomDel(r, w.routing[r].node, w.routing[r].inst) in w.pending ensures Deleted(es + [e], r, w.routing[r]) {
      var d := RoomDel(r, w.routing[r].node, w.routing[r].inst);
      if t.NodePut? { WithoutMembers(v.pending, NodeDel(t.node, t.inst), d); }
      if t.RoomPut? { WithoutMembers(v.pending, RoomDel(t.room, t.node, t.inst), d); }
      if t == d { DeletedNow(es, e, r, w.routing[r]); } else { DeletedStill(es, e, r, w.routing[r]); }
    }
    forall r | r in w.held ensures r in w.routing && Deleted(es + [e], r, w.routing[r]) { DeletedStill(es, e, r, w.routing[r]); }
  }

  lemma TracedPass(es: seq<Event>, v: View, at: nat)
    requires Traced(es, v) && HeldOk(v)
    ensures Traced(es + [Pass(at)], Settle(v, at))
  {
    var (e, w) := (Pass(at), Settle(v, at));
    SettleKeeps(v, at);
    forall r | r in w.routing && RoomDel(r, w.routing[r].node, w.routing[r].inst) in w.pending ensures Deleted(es + [e], r, w.routing[r]) {
      DeletedStill(es, e, r, w.routing[r]);
    }
    forall r | r in w.held ensures r in w.routing && Deleted(es + [e], r, w.routing[r]) { DeletedStill(es, e, r, w.routing[r]); }
  }

  lemma {:induction false} RunTraced(past: seq<Event>, v: View, es: seq<Event>)
    requires Traced(past, v) && HeldOk(v)
    ensures Traced(past + es, Run(v, es))
    decreases |es|
  {
    if es == [] {
      assert past + es == past;
    } else {
      match es[0] {
        case Arrive(t, at) => TracedArrive(past, v, t, at);
        case Pass(at) => TracedPass(past, v, at);
      }
      StepKeeps(v, es[0]);
      RunTraced(past + [es[0]], Step(v, es[0]), es[1..]);
      assert past + [es[0]] + es[1..] == past + es;
    }
  }

  /** MAIN: in every run of a hub, a room leaves the routing only when the bus has been quiet, only after its
      present owner deleted it with no put of the room since, never while the hub is isolated unless it is its
      own, and, if it left for having been held, only with its node dead. */
  lemma RoomsLeaveRightly(me: Node, grace: nat, es: seq<Event>, e: Event, r: Room)
    requires r in Run(New(me, grace), es).routing && r !in Step(Run(New(me, grace), es), e).routing
    ensures var v := Run(New(me, grace), es);
            var w := Step(v, e);
            && e.Pass? && Quiet(v, e.at)
            && Deleted(es, r, v.routing[r])
            && (w.isolated.Some? ==> v.routing[r].node == me)
            && (!RoomGone(v, r) ==> r in v.held && !NodeLives(w, v.routing[r].node))
  {
    var v := Run(New(me, grace), es);
    RunHeldOk(New(me, grace), es);
    RunTraced([], New(me, grace), es);
    assert [] + es == es;
    match e
    case Arrive(t, at) => TokenKeeps(v, t, at);
    case Pass(at) => SettleKeeps(v, at);
  }

  // ---------------------------------------------------------------- isolation and order

  /** The hub is isolated after every event of the run. */
  ghost predicate AllIsolated(v: View, es: seq<Event>)
    decreases |es|
  {
    es == [] || (Step(v, es[0]).isolated.Some? && AllIsolated(Step(v, es[0]), es[1..]))
  }

  /** MAIN: through any stretch of isolation, no room of another node leaves the routing unless the
      room itself was put elsewhere, here. */
  lemma {:induction false} IsolationHolds(v: View, es: seq<Event>, r: Room)
    requires HeldOk(v) && AllIsolated(v, es) && r in v.routing && v.routing[r].node != v.me
    requires forall e :: e in es && e.Arrive? && e.t.RoomPut? && e.t.room == r ==> e.t.node != v.me
    ensures r in Run(v, es).routing && Run(v, es).routing[r].node != v.me
    decreases |es|
  {
    if es != [] {
      match es[0] {
        case Arrive(t, at) => TokenKeeps(v, t, at);
        case Pass(at) => SettleKeeps(v, at);
      }
      IsolationHolds(Step(v, es[0]), es[1..], r);
    }
  }

  /** MAIN: the order of the deletes in a batch, and how often each is there, make no difference. */
  lemma OrderFree(v: View, other: seq<Token>, now: nat)
    requires forall t :: t in v.pending <==> t in other
    ensures Settle(v.(pending := other), now)
            == if v.pending == [] || !Quiet(v, now) then Settle(v, now).(pending := other) else Settle(v, now)
  {
    var w := v.(pending := other);
    assert v.pending == [] <==> other == [] by {
      if v.pending != [] { assert v.pending[0] in other; }
      if other != [] { assert other[0] in v.pending; }
    }
    forall n ensures NodeGone(v, n) <==> NodeGone(w, n) { }
    assert NodesAfter(v.nodes, v.pending, now) == NodesAfter(v.nodes, other, now);
    forall foreign ensures Gone(v.routing, v.me, v.pending, foreign) == Gone(v.routing, v.me, other, foreign) { }
  }

  // ---------------------------------------------------------------- placement

  /** The better place: higher score, and the smaller name on a tie. */
  predicate Better(score: (Node, Room) -> nat, r: Room, a: Node, b: Node) {
    score(a, r) > score(b, r) || (score(a, r) == score(b, r) && a < b)
  }

  ghost predicate IsBest(score: (Node, Room) -> nat, r: Room, ns: set<Node>, a: Node) {
    a in ns && forall b :: b in ns && b != a ==> Better(score, r, a, b)
  }

  function PickFrom(score: (Node, Room) -> nat, ns: seq<Node>, r: Room): Option<Node> {
    if ns == [] then None
    else
      var (best, n) := (PickFrom(score, ns[..|ns| - 1], r), ns[|ns| - 1]);
      if best.None? || Better(score, r, n, best.value) then Some(n) else best
  }

  /** The loop keeps the best so far. */
  method Pick(score: (Node, Room) -> nat, ns: seq<Node>, r: Room) returns (best: Option<Node>)
    ensures best == PickFrom(score, ns, r)
    ensures if ns == [] then best.None? else best.Some? && IsBest(score, r, (set n | n in ns), best.value)
  {
    best := None;
    for i := 0 to |ns|
      invariant best == PickFrom(score, ns[..i], r)
    {
      assert ns[..i + 1][..i] == ns[..i];
      if best.None? || Better(score, r, ns[i], best.value) { best := Some(ns[i]); }
    }
    assert ns[..|ns|] == ns;
    PickIsBest(score, ns, r);
  }

  lemma {:induction false} PickIsBest(score: (Node, Room) -> nat, ns: seq<Node>, r: Room)
    ensures var best := PickFrom(score, ns, r);
            if ns == [] then best.None? else best.Some? && IsBest(score, r, (set n | n in ns), best.value)
  {
    if ns != [] {
      var init := ns[..|ns| - 1];
      PickIsBest(score, init, r);
      var (was, all, best) := ((set n | n in init), (set n | n in ns), PickFrom(score, ns, r).value);
      assert forall n :: n in ns <==> n in init || n == ns[|ns| - 1];
      if init != [] {
        var b := PickFrom(score, init, r).value;
        forall x | x in all && x != best ensures Better(score, r, best, x) {
          if x in init && x != b { assert x in was; assert Better(score, r, b, x); }
        }
      }
    }
  }

  /** There is one best, so the order of the candidates does not matter. */
  lemma BestIsUnique(score: (Node, Room) -> nat, r: Room, ns: set<Node>, a: Node, b: Node)
    requires IsBest(score, r, ns, a) && IsBest(score, r, ns, b)
    ensures a == b
  {
  }

  /** Any two listings of the same nodes, whatever their order and repetitions, give the same pick. */
  lemma PickOrderFree(score: (Node, Room) -> nat, r: Room, ns: seq<Node>, ms: seq<Node>)
    requires forall n :: n in ns <==> n in ms
    ensures PickFrom(score, ns, r) == PickFrom(score, ms, r)
  {
    PickIsBest(score, ns, r);
    PickIsBest(score, ms, r);
    var all := set n | n in ns;
    assert all == set n | n in ms;
    assert |ns| > 0 ==> ns[0] in ms;
    assert |ms| > 0 ==> ms[0] in ns;
    if ns != [] { BestIsUnique(score, r, all, PickFrom(score, ns, r).value, PickFrom(score, ms, r).value); }
  }

  // ---------------------------------------------------------------- blips

  /** A token about a node names one of c. */
  predicate NodeWithin(t: Token, c: set<Node>) { t.NodePut? || t.NodeDel? ==> t.node in c }

  /** Whatever takes a node down in this event does so less than the grace before now. */
  ghost predicate StepBrief(v: View, e: Event, now: nat) {
    e.Pass? && Quiet(v, e.at) && (exists n :: NodeGone(v, n)) ==> now < e.at + v.grace
  }

  ghost predicate Brief(v: View, es: seq<Event>, now: nat)
    decreases |es|
  {
    es == [] || (StepBrief(v, es[0], now) && Brief(Step(v, es[0]), es[1..], now))
  }

  /** The candidates at now are c, and waiting deletes of nodes name such only. */
  ghost predicate Steady(v: View, c: set<Node>, now: nat) {
    Candidates(v, now) == c && forall t :: t in v.pending ==> NodeWithin(t, c)
  }

  lemma ArriveSteady(v: View, t: Token, at: nat, c: set<Node>, now: nat)
    requires Steady(v, c, now) && NodeWithin(t, c)
    ensures Steady(OnToken(v, t, at), c, now)
  {
    var w := OnToken(v, t, at);
    forall x | x in w.pending ensures NodeWithin(x, c) {
      if t.NodePut? { WithoutMembers(v.pending, NodeDel(t.node, t.inst), x); }
      if t.RoomPut? { WithoutMembers(v.pending, RoomDel(t.room, t.node, t.inst), x); }
    }
  }

  lemma PassSteady(v: View, at: nat, c: set<Node>, now: nat)
    requires Steady(v, c, now) && StepBrief(v, Pass(at), now)
    ensures Steady(Settle(v, at), c, now)
  {
    var w := Settle(v, at);
    SettledNodes(v, at);
    if w.nodes != v.nodes { DownSteady(v, w, at, c, now); }
  }

  lemma SettledNodes(v: View, at: nat)
    ensures var w := Settle(v, at);
            && w.me == v.me && w.grace == v.grace && (w.pending == v.pending || w.pending == [])
            && (w.nodes == v.nodes || (Quiet(v, at) && w.nodes == NodesAfter(v.nodes, v.pending, at)))
  {
  }

  lemma DownSteady(v: View, w: View, at: nat, c: set<Node>, now: nat)
    requires Steady(v, c, now) && w.me == v.me && w.grace == v.grace && w.nodes == NodesAfter(v.nodes, v.pending, at)
    requires (exists n :: NodeGone(v, n)) ==> now < at + v.grace
    ensures Candidates(w, now) == c
  {
    forall n ensures n in Candidates(w, now) <==> n in c {
      assert NodeGone(v, n) ==> NodeWithin(NodeDel(n, v.nodes[n].inst), c);
    }
  }

  lemma {:induction false} RunSteady(v: View, es: seq<Event>, c: set<Node>, now: nat)
    requires Steady(v, c, now) && Brief(v, es, now) && forall e :: e in es && e.Arrive? ==> NodeWithin(e.t, c)
    ensures Steady(Run(v, es), c, now)
    decreases |es|
  {
    if es != [] {
      assert es[0] in es;
      match es[0] {
        case Arrive(t, at) => ArriveSteady(v, t, at, c, now);
        case Pass(at) => PassSteady(v, at, c, now);
      }
      RunSteady(Step(v, es[0]), es[1..], c, now);
    }
  }

  /** MAIN: through any run of tokens and settlings in which the nodes concerned were candidates before and each
      was taken down, if at all, less than the grace ago, the candidates are the same throughout, and so every
      room is placed where it was, for every score and however the candidates are listed. */
  lemma BlipMovesNothing(v: View, es: seq<Event>, now: nat, score: (Node, Room) -> nat, r: Room, ns: seq<Node>, ms: seq<Node>)
    requires Brief(v, es, now) && (forall t :: t in v.pending ==> NodeWithin(t, Candidates(v, now)))
    requires forall e :: e in es && e.Arrive? ==> NodeWithin(e.t, Candidates(v, now))
    requires forall n :: n in ns <==> n in Candidates(v, now)
    requires forall n :: n in ms <==> n in Candidates(Run(v, es), now)
    ensures Candidates(Run(v, es), now) == Candidates(v, now)
    ensures PickFrom(score, ns, r) == PickFrom(score, ms, r)
  {
    RunSteady(v, es, Candidates(v, now), now);
    PickOrderFree(score, r, ns, ms);
  }

  // ---------------------------------------------------------------- as it runs

  /** One more delete of the batch, for nodes. */
  lemma NodesSnoc(nodes: map<Node, Seen>, batch: seq<Token>, t: Token, now: nat)
    ensures NodesAfter(nodes, batch + [t], now)
            == if t.NodeDel? && t.node in nodes && nodes[t.node].inst == t.inst
               then NodesAfter(nodes, batch, now)[t.node := Seen(t.inst, false, Some(now))]
               else NodesAfter(nodes, batch, now)
  {
  }

  /** One more delete of the batch, for rooms. */
  lemma GoneSnoc(routing: map<Room, Loc>, me: Node, batch: seq<Token>, t: Token, foreign: bool)
    ensures Gone(routing, me, batch + [t], foreign)
            == Gone(routing, me, batch, foreign)
               + if t.RoomDel? && t.room in routing && routing[t.room] == Loc(t.node, t.inst) && (t.node != me) == foreign
                 then {t.room} else {}
  {
  }

  /** Routing and held rooms after the deletes of a batch. */
  ghost predicate Dropped(me: Node, cut: bool, from: map<Room, Loc>, held: set<Room>, batch: seq<Token>,
                          routing: map<Room, Loc>, now: set<Room>) {
    var (theirs, ours) := (Gone(from, me, batch, true), Gone(from, me, batch, false));
    if cut then now == held + theirs && routing == from - ours else now == held && routing == from - theirs - ours
  }

  lemma DroppedNext(me: Node, cut: bool, from: map<Room, Loc>, held: set<Room>, batch: seq<Token>, t: Token,
                    routing: map<Room, Loc>, now: set<Room>, routing1: map<Room, Loc>, now1: set<Room>)
    requires Dropped(me, cut, from, held, batch, routing, now)
    requires var hit := t.RoomDel? && t.room in routing && routing[t.room] == Loc(t.node, t.inst);
             var keep := hit && cut && t.node != me;
             && now1 == (if keep then now + {t.room} else now)
             && routing1 == (if hit && !keep then routing - {t.room} else routing)
    ensures Dropped(me, cut, from, held, batch + [t], routing1, now1)
  {
    GoneSnoc(from, me, batch, t, true);
    GoneSnoc(from, me, batch, t, false);
  }

  class Hub {
    var me: Node
    var grace: nat
    var nodes: map<Node, Seen>
    var routing: map<Room, Loc>
    var seenOther: bool
    var isolated: Option<nat>
    var held: set<Room>
    var pending: seq<Token>
    var lastAt: nat
    var duplicates: nat
    var recovered: bool

    function Now(): View
      reads this
    {
      View(me, grace, nodes, routing, seenOther, isolated, held, pending, lastAt, duplicates, recovered)
    }

    constructor (self: Node, keep: nat)
      ensures Now() == New(self, keep) && HeldOk(Now())
    {
      me, grace, nodes, routing, seenOther, isolated := self, keep, map[], map[], false, None;
      held, pending, lastAt, duplicates, recovered := {}, [], 0, 0, false;
    }

    method Receive(t: Token, now: nat)
      modifies this
      ensures Now() == OnToken(old(Now()), t, now)
    {
      lastAt := now;
      match t {
        case NodePut(node, inst) =>
          pending := Without(pending, NodeDel(node, inst));
          if node != me {
            seenOther := true;
            if isolated.Some? {
              isolated := None;
              recovered := true;
            }
          }
          nodes := nodes[node := Seen(inst, true, None)];
        case RoomPut(room, node, inst) =>
          pending := Without(pending, RoomDel(room, node, inst));
          if room in routing && routing[room].node != node { duplicates := duplicates + 1; }
          held := held - {room};
          routing := routing[room := Loc(node, inst)];
        case _ => pending := pending + [t];
      }
    }

    method MarkGone(batch: seq<Token>, now: nat) returns (other: bool)
      modifies this`nodes
      ensures nodes == NodesAfter(old(nodes), batch, now)
      ensures other <==> exists n :: n in old(nodes) && n != me && NodeDel(n, old(nodes)[n].inst) in batch
    {
      other := false;
      assert NodesAfter(nodes, [], now) == nodes;
      for i := 0 to |batch|
        invariant nodes == NodesAfter(old(nodes), batch[..i], now)
        invariant other <==> exists n :: n in old(nodes) && n != me && NodeDel(n, old(nodes)[n].inst) in batch[..i]
      {
        assert batch[..i + 1] == batch[..i] + [batch[i]];
        NodesSnoc(old(nodes), batch[..i], batch[i], now);
        match batch[i] {
          case NodeDel(node, inst) =>
            if node in nodes && nodes[node].inst == inst {
              nodes := nodes[node := nodes[node].(live := false, goneAt := Some(now))];
              if node != me { other := true; }
            }
          case _ =>
        }
      }
      assert batch[..|batch|] == batch;
    }

    method DropRooms(batch: seq<Token>)
      modifies this`routing, this`held
      ensures isolated.Some? ==> held == old(held) + Gone(old(routing), me, batch, true)
                                 && routing == old(routing) - Gone(old(routing), me, batch, false)
      ensures isolated.None? ==> held == old(held)
                                 && routing == old(routing) - Gone(old(routing), me, batch, true) - Gone(old(routing), me, batch, false)
    {
      for i := 0 to |batch|
        invariant Dropped(me, isolated.Some?, old(routing), old(held), batch[..i], routing, held)
      {
        assert batch[..i + 1] == batch[..i] + [batch[i]];
        ghost var (was, before) := (routing, held);
        DropRoom(batch[i]);
        DroppedNext(me, isolated.Some?, old(routing), old(held), batch[..i], batch[i], was, before, routing, held);
      }
      assert batch[..|batch|] == batch;
    }

    /** One delete: the room is held back, or goes, if its present owner deleted it. */
    method DropRoom(t: Token)
      modifies this`routing, this`held
      ensures var hit := t.RoomDel? && t.room in old(routing) && old(routing)[t.room] == Loc(t.node, t.inst);
              var keep := hit && isolated.Some? && t.node != me;
              && held == (if keep then old(held) + {t.room} else old(held))
              && routing == (if hit && !keep then old(routing) - {t.room} else old(routing))
    {
      match t {
        case RoomDel(room, node, inst) =>
          if room in routing && routing[room] == Loc(node, inst) {
            if isolated.Some? && node != me { held := held + {room}; } else { routing := routing - {room}; }
          }
        case _ =>
      }
    }

    method ReleaseHeld() returns (dropped: seq<Room>)
      modifies this`routing, this`held
      ensures Now() == Release(old(Now()))
      ensures Distinct(dropped) && forall r :: r in dropped <==> r in DeadHeld(old(Now()))
    {
      var list := ListOf(held);
      held := {};
      dropped := [];
      for i := 0 to |list|
        invariant held == {} && Distinct(dropped)
        invariant forall r :: r in dropped <==> r in list[..i] && !Alive(old(Now()), r)
        invariant routing == old(routing) - set r | r in dropped
      {
        assert list[..i + 1] == list[..i] + [list[i]];
        var room := list[i];
        assert room !in list[..i];
        var alive := room in routing && if routing[room].node in nodes then nodes[routing[room].node].live else routing[room].node == me;
        assert alive <==> Alive(old(Now()), room);
        if !alive {
          Extend(dropped, room);
          routing := routing - {room};
          dropped := dropped + [room];
        }
      }
      assert list[..|list|] == list;
      assert (set r | r in dropped) == DeadHeld(old(Now()));
    }

    method JudgeNodes(batch: seq<Token>, now: nat)
      requires batch == pending
      modifies this
      ensures var was := old(Now());
              var after := NodesAfter(was.nodes, batch, now);
              Now() == was.(nodes := after, isolated := if was.isolated.None? && CutOff(was, after) then Some(now) else was.isolated,
                            pending := [])
    {
      var other := MarkGone(batch, now);
      pending := [];
      var alone := forall n :: n in nodes && n != me ==> !nodes[n].live;
      if seenOther && other && alone && isolated.None? { isolated := Some(now); }
    }

    method SettleNow(now: nat)
      modifies this
      ensures Now() == Settle(old(Now()), now)
    {
      if pending == [] && isolated.None? && held != {} {
        if now >= lastAt + SETTLE { var _ := ReleaseHeld(); }
      } else if pending != [] && now >= lastAt + SETTLE {
        var batch := pending;
        JudgeNodes(batch, now);
        DropRooms(batch);
        if isolated.None? { var _ := ReleaseHeld(); }
      }
    }
  }
}
