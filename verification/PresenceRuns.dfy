/** The view of a hub read off the tokens it saw: which nodes live, whether it is cut off, where rooms
    are placed and when they go, for every run. */
module PresenceRuns {
  import opened Wrappers
  import opened Presence

  // ---------------------------------------------------------------- what the events say

  /** When the last token of a run came. */
  function LastAt(es: seq<Event>): nat {
    if es == [] then 0
    else if es[|es| - 1].Arrive? then es[|es| - 1].at
    else LastAt(es[..|es| - 1])
  }

  /** The m-th event is a settling on a bus that has been quiet for a second. */
  ghost predicate Calm(es: seq<Event>, m: nat) { m < |es| && es[m].Pass? && es[m].at >= LastAt(es[..m]) + 1000 }

  /** A put of the same instance takes a delete back. */
  predicate Cancels(e: Event, t: Token) {
    e.Arrive? && ((t.NodeDel? && e.t == NodePut(t.node, t.inst)) || (t.RoomDel? && e.t == RoomPut(t.room, t.node, t.inst)))
  }

  ghost predicate WaitsFrom(es: seq<Event>, t: Token, d: nat) {
    && d < |es| && es[d].Arrive? && es[d].t == t
    && (forall k :: d < k < |es| ==> !Cancels(es[k], t))
    && (forall k :: d < k < |es| ==> !Calm(es, k))
  }

  /** The delete t came, was not taken back, and nothing has been settled since. */
  ghost predicate Waiting(es: seq<Event>, t: Token) { (t.NodeDel? || t.RoomDel?) && exists d: nat :: WaitsFrom(es, t, d) }

  predicate PutAt(es: seq<Event>, j: nat, n: Node) { j < |es| && es[j].Arrive? && es[j].t.NodePut? && es[j].t.node == n }

  /** The last put of node n. */
  ghost predicate LastPut(es: seq<Event>, j: nat, n: Node) { PutAt(es, j, n) && forall k :: j < k < |es| ==> !PutAt(es, k, n) }

  /** The m-th event settles a delete of the instance that the j-th put. */
  ghost predicate TakenDown(es: seq<Event>, j: nat, n: Node, m: nat) {
    PutAt(es, j, n) && j < m && Calm(es, m) && Waiting(es[..m], NodeDel(n, es[j].t.inst))
  }

  ghost predicate Down(es: seq<Event>, j: nat, n: Node) { exists m: nat :: TakenDown(es, j, n, m) }

  /** That was last done by the m-th event. */
  ghost predicate DownSince(es: seq<Event>, j: nat, n: Node, m: nat) {
    TakenDown(es, j, n, m) && forall k: nat :: k > m ==> !TakenDown(es, j, n, k)
  }

  predicate RoomPutAt(es: seq<Event>, j: nat, r: Room) { j < |es| && es[j].Arrive? && es[j].t.RoomPut? && es[j].t.room == r }

  ghost predicate LastRoomPut(es: seq<Event>, j: nat, r: Room) {
    RoomPutAt(es, j, r) && forall k :: j < k < |es| ==> !RoomPutAt(es, k, r)
  }

  // ---------------------------------------------------------------- one more event

  lemma CalmSnoc(es: seq<Event>, e: Event, k: nat)
    requires k < |es|
    ensures Calm(es + [e], k) <==> Calm(es, k)
  {
    assert (es + [e])[..k] == es[..k];
  }

  lemma CalmLast(es: seq<Event>, e: Event)
    ensures Calm(es + [e], |es|) <==> e.Pass? && e.at >= LastAt(es) + 1000
  {
    assert (es + [e])[..|es|] == es;
  }

  lemma LastAtSnoc(es: seq<Event>, e: Event)
    ensures LastAt(es + [e]) == if e.Arrive? then e.at else LastAt(es)
  {
    assert (es + [e])[..|es|] == es;
  }

  lemma WaitsFromSnoc(es: seq<Event>, e: Event, t: Token, d: nat)
    requires d < |es|
    ensures WaitsFrom(es + [e], t, d) <==> WaitsFrom(es, t, d) && !Cancels(e, t) && !Calm(es + [e], |es|)
  {
    var more := es + [e];
    assert more[d] == es[d] && more[|es|] == e;
    forall k | d < k < |es| ensures (Calm(more, k) <==> Calm(es, k)) && more[k] == es[k] { CalmSnoc(es, e, k); }
  }

  lemma WaitingSnoc(es: seq<Event>, e: Event, t: Token)
    requires t.NodeDel? || t.RoomDel?
    ensures Waiting(es + [e], t) <==>
            (e.Arrive? && e.t == t) || (Waiting(es, t) && !Cancels(e, t) && !Calm(es + [e], |es|))
  {
    var more := es + [e];
    if e.Arrive? && e.t == t { assert WaitsFrom(more, t, |es|); }
    if Waiting(es, t) && !Cancels(e, t) && !Calm(more, |es|) {
      var d: nat :| WaitsFrom(es, t, d);
      WaitsFromSnoc(es, e, t, d);
    }
    if d: nat :| WaitsFrom(more, t, d) {
      if d < |es| { WaitsFromSnoc(es, e, t, d); }
    }
  }

  lemma TakenDownSnoc(es: seq<Event>, e: Event, j: nat, n: Node, m: nat)
    requires m < |es|
    ensures TakenDown(es + [e], j, n, m) <==> TakenDown(es, j, n, m)
  {
    CalmSnoc(es, e, m);
    assert (es + [e])[..m] == es[..m];
    if j < |es| { assert (es + [e])[j] == es[j]; }
  }

  lemma TakenDownLast(es: seq<Event>, e: Event, j: nat, n: Node)
    requires PutAt(es, j, n)
    ensures TakenDown(es + [e], j, n, |es|) <==> Calm(es + [e], |es|) && Waiting(es, NodeDel(n, es[j].t.inst))
  {
    assert (es + [e])[..|es|] == es && (es + [e])[j] == es[j];
  }

  // ---------------------------------------------------------------- tokens that wait

  ghost predicate PendingOk(es: seq<Event>, v: View) {
    v.lastAt == LastAt(es) && forall t :: t in v.pending <==> Waiting(es, t)
  }

  lemma SettledPending(v: View, at: nat)
    ensures Settle(v, at).pending == if Quiet(v, at) then [] else v.pending
    ensures Settle(v, at).lastAt == v.lastAt
  {
  }

  lemma PendingStep(es: seq<Event>, v: View, e: Event)
    requires PendingOk(es, v)
    ensures PendingOk(es + [e], Step(v, e))
  {
    var w := Step(v, e);
    LastAtSnoc(es, e);
    CalmLast(es, e);
    forall t ensures t in w.pending <==> Waiting(es + [e], t) {
      if t.NodeDel? || t.RoomDel? { WaitingSnoc(es, e, t); }
      assert t in v.pending <==> Waiting(es, t);
      match e
      case Arrive(x, at) =>
        if x.NodePut? { WithoutMembers(v.pending, NodeDel(x.node, x.inst), t); }
        if x.RoomPut? { WithoutMembers(v.pending, RoomDel(x.room, x.node, x.inst), t); }
      case Pass(at) => SettledPending(v, at);
    }
  }

  // ---------------------------------------------------------------- nodes

  /** Node n is in the view as its last put and the settlings since say. */
  ghost predicate NodeOk(es: seq<Event>, v: View, n: Node, j: nat) {
    && LastPut(es, j, n) && n in v.nodes && v.nodes[n].inst == es[j].t.inst
    && (v.nodes[n].live <==> !Down(es, j, n))
    && (v.nodes[n].live <==> v.nodes[n].goneAt.None?)
    && (forall m: nat :: DownSince(es, j, n, m) ==> v.nodes[n].goneAt == Some(es[m].at))
  }

  ghost predicate KnownOk(es: seq<Event>, v: View, n: Node) {
    && (n in v.nodes ==> exists j: nat :: NodeOk(es, v, n, j))
    && (n !in v.nodes ==> forall j: nat :: !PutAt(es, j, n))
  }

  lemma PutStep(es: seq<Event>, v: View, e: Event, n: Node)
    requires e.Arrive? && e.t.NodePut? && e.t.node == n
    ensures KnownOk(es + [e], Step(v, e), n)
  {
    assert PutAt(es + [e], |es|, n);
    assert NodeOk(es + [e], Step(v, e), n, |es|);
  }

  lemma LastPutSnoc(es: seq<Event>, e: Event, j: nat, n: Node)
    requires LastPut(es, j, n) && !PutAt(es + [e], |es|, n)
    ensures LastPut(es + [e], j, n)
  {
    var more := es + [e];
    assert more[j] == es[j];
    forall k | j < k < |more| ensures !PutAt(more, k, n) {
      if k < |es| { assert more[k] == es[k] && !PutAt(es, k, n); }
    }
  }

  /** What settling does to a node. */
  lemma SettledNode(v: View, at: nat, n: Node)
    requires n in v.nodes
    ensures var w := Settle(v, at);
            && n in w.nodes && w.nodes[n].inst == v.nodes[n].inst
            && (if Quiet(v, at) && NodeDel(n, v.nodes[n].inst) in v.pending
                then !w.nodes[n].live && w.nodes[n].goneAt == Some(at) else w.nodes[n] == v.nodes[n])
  {
  }

  lemma SameNode(v: View, e: Event, n: Node)
    requires n in v.nodes && e.Arrive? && !(e.t.NodePut? && e.t.node == n)
    ensures n in Step(v, e).nodes && Step(v, e).nodes[n] == v.nodes[n]
  {
  }

  lemma DownSnoc(es: seq<Event>, e: Event, j: nat, n: Node)
    requires PutAt(es, j, n)
    ensures Down(es + [e], j, n) <==> Down(es, j, n) || TakenDown(es + [e], j, n, |es|)
  {
    if m: nat :| TakenDown(es, j, n, m) { TakenDownSnoc(es, e, j, n, m); }
    if m: nat :| TakenDown(es + [e], j, n, m) {
      if m < |es| { TakenDownSnoc(es, e, j, n, m); }
    }
  }

  lemma DownSinceSnoc(es: seq<Event>, e: Event, j: nat, n: Node, m: nat)
    requires PutAt(es, j, n) && DownSince(es + [e], j, n, m)
    ensures if TakenDown(es + [e], j, n, |es|) then m == |es| else DownSince(es, j, n, m)
  {
    assert m < |es + [e]|;
    if m < |es| {
      TakenDownSnoc(es, e, j, n, m);
      forall k: nat | k > m ensures !TakenDown(es, j, n, k) {
        if k < |es| { TakenDownSnoc(es, e, j, n, k); }
      }
    }
  }

  lemma NodeStep(es: seq<Event>, v: View, e: Event, n: Node, j: nat)
    requires PendingOk(es, v) && NodeOk(es, v, n, j) && !PutAt(es + [e], |es|, n)
    ensures NodeOk(es + [e], Step(v, e), n, j)
  {
    var (more, w, x) := (es + [e], Step(v, e), NodeDel(n, es[j].t.inst));
    LastPutSnoc(es, e, j, n);
    assert more[j] == es[j];
    TakenDownLast(es, e, j, n);
    CalmLast(es, e);
    DownSnoc(es, e, j, n);
    assert x in v.pending <==> Waiting(es, x);
    if e.Arrive? {
      assert more[|es|] == e;
      SameNode(v, e, n);
    } else {
      SettledNode(v, e.at, n);
    }
    forall m: nat | DownSince(more, j, n, m) ensures w.nodes[n].goneAt == Some(more[m].at) {
      DownSinceSnoc(es, e, j, n, m);
      if m < |es| { assert more[m] == es[m]; }
    }
  }

  lemma NewNode(v: View, e: Event, n: Node)
    requires n !in v.nodes && !(e.Arrive? && e.t.NodePut? && e.t.node == n)
    ensures n !in Step(v, e).nodes
  {
  }

  lemma KnownStep(es: seq<Event>, v: View, e: Event, n: Node)
    requires PendingOk(es, v) && KnownOk(es, v, n)
    ensures KnownOk(es + [e], Step(v, e), n)
  {
    var more := es + [e];
    assert more[|es|] == e;
    if PutAt(more, |es|, n) {
      PutStep(es, v, e, n);
    } else if n in v.nodes {
      var j: nat :| NodeOk(es, v, n, j);
      NodeStep(es, v, e, n, j);
    } else {
      NewNode(v, e, n);
      forall j: nat ensures !PutAt(more, j, n) {
        if j < |es| { assert more[j] == es[j] && !PutAt(es, j, n); }
      }
    }
  }

  // ---------------------------------------------------------------- isolation

  predicate Others(v: View) { exists n :: n in v.nodes && n != v.me }

  predicate OthersLive(v: View) { exists n :: n in v.nodes && n != v.me && v.nodes[n].live }

  /** Cut off exactly while some other node is known and none lives. */
  ghost predicate CutOffOk(v: View) {
    && (v.seenOther <==> Others(v))
    && (v.isolated.Some? <==> Others(v) && !OthersLive(v))
  }

  lemma PutIsolates(v: View, t: Token, at: nat)
    requires CutOffOk(v)
    ensures CutOffOk(OnToken(v, t, at))
  {
    var w := OnToken(v, t, at);
    if t.NodePut? {
      if t.node != v.me {
        assert t.node in w.nodes && w.nodes[t.node].live;
      } else {
        assert Others(v) ==> Others(w) by { if n :| n in v.nodes && n != v.me { assert n in w.nodes; } }
        assert OthersLive(v) ==> OthersLive(w) by {
          if n :| n in v.nodes && n != v.me && v.nodes[n].live { assert n in w.nodes && w.nodes[n] == v.nodes[n]; }
        }
        if n :| n in w.nodes && n != v.me { assert n in v.nodes; }
        if n :| n in w.nodes && n != v.me && w.nodes[n].live { assert n in v.nodes && v.nodes[n] == w.nodes[n]; }
      }
    }
  }

  lemma JudgeIsolates(v: View, at: nat)
    requires CutOffOk(v)
    ensures CutOffOk(Judge(v, at))
  {
    var (w, after) := (Judge(v, at), NodesAfter(v.nodes, v.pending, at));
    assert w.nodes == after && w.me == v.me && w.seenOther == v.seenOther;
    assert Others(w) <==> Others(v) by {
      if n :| n in v.nodes && n != v.me { assert n in after; }
      if n :| n in after && n != v.me { assert n in v.nodes; }
    }
    if OthersLive(w) {
      var n :| n in after && n != v.me && after[n].live;
      assert v.nodes[n].live;
    } else if OthersLive(v) {
      var n :| n in v.nodes && n != v.me && v.nodes[n].live;
      assert !after[n].live;
      assert NodeGone(v, n);
    }
  }

  lemma IsolationStep(v: View, e: Event)
    requires CutOffOk(v)
    ensures CutOffOk(Step(v, e))
  {
    match e
    case Arrive(t, at) => PutIsolates(v, t, at);
    case Pass(at) => JudgeIsolates(v, at);
  }

  // ---------------------------------------------------------------- rooms

  /** A room is where its last put says. */
  ghost predicate PlacedOk(es: seq<Event>, v: View, r: Room) {
    r in v.routing ==> exists j: nat :: LastRoomPut(es, j, r) && v.routing[r] == Loc(es[j].t.node, es[j].t.inst)
  }

  lemma PlacedStep(es: seq<Event>, v: View, e: Event, r: Room)
    requires PlacedOk(es, v, r) && HeldOk(v)
    ensures PlacedOk(es + [e], Step(v, e), r)
  {
    var (more, w) := (es + [e], Step(v, e));
    assert more[|es|] == e;
    if r in w.routing {
      if RoomPutAt(more, |es|, r) {
        assert LastRoomPut(more, |es|, r);
      } else {
        if e.Pass? { SettleKeeps(v, e.at); }
        assert r in v.routing && w.routing[r] == v.routing[r];
        var j: nat :| LastRoomPut(es, j, r) && v.routing[r] == Loc(es[j].t.node, es[j].t.inst);
        assert more[j] == es[j];
        forall k | j < k < |more| ensures !RoomPutAt(more, k, r) {
          if k < |es| { assert more[k] == es[k] && !RoomPutAt(es, k, r); }
        }
      }
    }
  }

  // ---------------------------------------------------------------- runs

  ghost predicate History(es: seq<Event>, v: View) {
    && PendingOk(es, v) && CutOffOk(v) && HeldOk(v)
    && (forall n :: KnownOk(es, v, n))
    && (forall r :: PlacedOk(es, v, r))
  }

  lemma HistoryStep(es: seq<Event>, v: View, e: Event)
    requires History(es, v)
    ensures History(es + [e], Step(v, e))
  {
    PendingStep(es, v, e);
    IsolationStep(v, e);
    StepKeeps(v, e);
    forall n ensures KnownOk(es + [e], Step(v, e), n) { KnownStep(es, v, e, n); }
    forall r ensures PlacedOk(es + [e], Step(v, e), r) { PlacedStep(es, v, e, r); }
  }

  lemma {:induction false} HistoryRuns(past: seq<Event>, v: View, es: seq<Event>)
    requires History(past, v)
    ensures History(past + es, Run(v, es)) && Run(v, es).me == v.me && Run(v, es).grace == v.grace
    decreases |es|
  {
    if es == [] {
      assert past + es == past;
    } else {
      HistoryStep(past, v, es[0]);
      SameSelf(v, es[0]);
      HistoryRuns(past + [es[0]], Step(v, es[0]), es[1..]);
      assert past + [es[0]] + es[1..] == past + es;
    }
  }

  lemma SameSelf(v: View, e: Event)
    ensures Step(v, e).me == v.me && Step(v, e).grace == v.grace
  {
  }

  lemma RunHistory(me: Node, grace: nat, es: seq<Event>) returns (v: View)
    ensures v == Run(New(me, grace), es) && History(es, v) && v.me == me && v.grace == grace
  {
    v := Run(New(me, grace), es);
    assert [] + es == es;
    HistoryRuns([], New(me, grace), es);
  }

  /** MAIN: in every run, a node is known if and only if it was put, with the instance of its last put, and it lives
      if and only if no settling on a quiet bus since then found a delete of that instance waiting. */
  lemma NodesExactly(me: Node, grace: nat, es: seq<Event>, n: Node)
    ensures var v := Run(New(me, grace), es);
            && (n in v.nodes <==> exists j: nat :: PutAt(es, j, n))
            && (forall j: nat :: LastPut(es, j, n) ==>
                  n in v.nodes && v.nodes[n].inst == es[j].t.inst && (v.nodes[n].live <==> !Down(es, j, n)))
  {
    var v := RunHistory(me, grace, es);
    assert KnownOk(es, v, n);
    if n in v.nodes {
      var i: nat :| NodeOk(es, v, n, i);
      assert PutAt(es, i, n);
      forall j: nat | LastPut(es, j, n) ensures j == i { OneLast(es, i, j, n); }
    }
  }

  lemma OneLast(es: seq<Event>, i: nat, j: nat, n: Node)
    requires LastPut(es, i, n) && LastPut(es, j, n)
    ensures i == j
  {
  }

  ghost predicate OtherPut(es: seq<Event>, me: Node, j: nat, n: Node) { LastPut(es, j, n) && n != me }

  /** Every other node that was put is down after the run. */
  ghost predicate AllOthersDown(es: seq<Event>, me: Node) {
    && (exists j: nat, n :: OtherPut(es, me, j, n))
    && (forall j: nat, n :: OtherPut(es, me, j, n) ==> Down(es, j, n))
  }

  /** MAIN: in every run, a hub is isolated if and only if another node was put and every other node that was put
      has been taken down since its last put. */
  lemma IsolatedExactly(me: Node, grace: nat, es: seq<Event>)
    ensures Run(New(me, grace), es).isolated.Some? <==> AllOthersDown(es, me)
  {
    var v := RunHistory(me, grace, es);
    if n :| n in v.nodes && n != me {
      assert KnownOk(es, v, n);
      var j: nat :| NodeOk(es, v, n, j);
      assert OtherPut(es, me, j, n);
    }
    if j: nat, n :| OtherPut(es, me, j, n) { NodesExactly(me, grace, es, n); }
    if OthersLive(v) {
      var n :| n in v.nodes && n != v.me && v.nodes[n].live;
      assert KnownOk(es, v, n);
      var j: nat :| NodeOk(es, v, n, j);
      assert OtherPut(es, me, j, n) && !Down(es, j, n);
    }
    forall j: nat, n | OtherPut(es, me, j, n) && !OthersLive(v) ensures Down(es, j, n) { NodesExactly(me, grace, es, n); }
  }

  /** MAIN: a settling after which every other node is down takes no room of another node out of the routing: those
      that were deleted are held. */
  lemma AllGoneKeepsRooms(me: Node, grace: nat, es: seq<Event>, at: nat, r: Room)
    requires AllOthersDown(es + [Pass(at)], me)
    requires r in Run(New(me, grace), es).routing && Run(New(me, grace), es).routing[r].node != me
    ensures var (v, w) := (Run(New(me, grace), es), Run(New(me, grace), es + [Pass(at)]));
            && r in w.routing && w.routing[r] == v.routing[r]
            && (at >= LastAt(es) + 1000 && Waiting(es, RoomDel(r, v.routing[r].node, v.routing[r].inst)) ==> r in w.held)
  {
    var v := RunHistory(me, grace, es);
    RunSnoc(New(me, grace), es, Pass(at));
    IsolatedExactly(me, grace, es + [Pass(at)]);
    SettleKeeps(v, at);
    OwnerGone(es, v, r);
  }

  lemma {:induction false} RunSnoc(v: View, es: seq<Event>, e: Event)
    ensures Run(v, es + [e]) == Step(Run(v, es), e)
    decreases |es|
  {
    if es == [] {
      assert es + [e] == [e] && [e][1..] == [];
    } else {
      assert (es + [e])[1..] == es[1..] + [e];
      RunSnoc(Step(v, es[0]), es[1..], e);
    }
  }

  lemma OwnerGone(es: seq<Event>, v: View, r: Room)
    requires PendingOk(es, v) && r in v.routing
    ensures RoomGone(v, r) <==> Waiting(es, RoomDel(r, v.routing[r].node, v.routing[r].inst))
  {
    assert RoomDel(r, v.routing[r].node, v.routing[r].inst) in v.pending <==> Waiting(es, RoomDel(r, v.routing[r].node, v.routing[r].inst));
  }

  /** MAIN: in every run a room is routed to the node and instance of its last put, and a settling takes it out of the
      routing if and only if the bus has been quiet and the delete of that put waits, unless the hub is then
      isolated and the room another node's; or it is not isolated and the room was held and its node does not
      live then. */
  lemma RoomsGoExactly(me: Node, grace: nat, es: seq<Event>, at: nat, r: Room)
    requires r in Run(New(me, grace), es).routing
    ensures var (v, w) := (Run(New(me, grace), es), Run(New(me, grace), es + [Pass(at)]));
            var l := v.routing[r];
            && (exists j: nat :: LastRoomPut(es, j, r) && l == Loc(es[j].t.node, es[j].t.inst))
            && (r !in w.routing <==>
                  && at >= LastAt(es) + 1000
                  && if w.isolated.Some? then Waiting(es, RoomDel(r, l.node, l.inst)) && l.node == me
                     else Waiting(es, RoomDel(r, l.node, l.inst))
                          || (r in v.held && !(if l.node in w.nodes then w.nodes[l.node].live else l.node == me)))
  {
    var v := RunHistory(me, grace, es);
    RunSnoc(New(me, grace), es, Pass(at));
    SettleKeeps(v, at);
    OwnerGone(es, v, r);
    assert PlacedOk(es, v, r);
  }

  /** MAIN: in every run the candidates for a room are this node, the nodes that live, and those last taken down less
      than the grace ago; no others. */
  lemma CandidatesExactly(me: Node, grace: nat, es: seq<Event>, now: nat, n: Node)
    ensures n in Candidates(Run(New(me, grace), es), now) <==>
            || n == me
            || (exists j: nat :: LastPut(es, j, n) && !Down(es, j, n))
            || (exists j: nat, m: nat :: LastPut(es, j, n) && DownSince(es, j, n, m) && now < es[m].at + grace)
  {
    var v := RunHistory(me, grace, es);
    assert KnownOk(es, v, n);
    if n in v.nodes {
      var i: nat :| NodeOk(es, v, n, i);
      forall j: nat | LastPut(es, j, n) ensures j == i { OneLast(es, i, j, n); }
      if Down(es, i, n) { var m := LastDown(es, i, n); }
    } else {
      forall j: nat ensures !LastPut(es, j, n) { assert !PutAt(es, j, n); }
    }
  }

  lemma LastDown(es: seq<Event>, j: nat, n: Node) returns (m: nat)
    requires Down(es, j, n)
    ensures DownSince(es, j, n, m)
  {
    m :| TakenDown(es, j, n, m);
    m := LastDownFrom(es, j, n, m);
  }

  lemma {:induction false} LastDownFrom(es: seq<Event>, j: nat, n: Node, from: nat) returns (m: nat)
    requires TakenDown(es, j, n, from)
    ensures DownSince(es, j, n, m)
    decreases |es| - from
  {
    if k: nat :| k > from && TakenDown(es, j, n, k) { m := LastDownFrom(es, j, n, k); } else { m := from; }
  }

  // ---------------------------------------------------------------- what is reported

  /** Another node is put while the hub is cut off. */
  ghost predicate Returns(es: seq<Event>, me: Node, j: nat) {
    j < |es| && es[j].Arrive? && es[j].t.NodePut? && es[j].t.node != me && AllOthersDown(es[..j], me)
  }

  /** A room is put by a node while it is routed to another. */
  predicate Clash(v: View, e: Event) {
    e.Arrive? && e.t.RoomPut? && e.t.room in v.routing && v.routing[e.t.room].node != e.t.node
  }

  ghost predicate Clashes(me: Node, grace: nat, es: seq<Event>, j: nat) {
    j < |es| && Clash(Run(New(me, grace), es[..j]), es[j])
  }

  ghost function AllClashes(me: Node, grace: nat, es: seq<Event>): set<nat> { set j: nat | j < |es| && Clashes(me, grace, es, j) }

  lemma StepReports(v: View, e: Event)
    ensures var w := Step(v, e);
            && w.recovered == (v.recovered || (e.Arrive? && e.t.NodePut? && e.t.node != v.me && v.isolated.Some?))
            && w.duplicates == v.duplicates + if Clash(v, e) then 1 else 0
  {
  }

  lemma {:induction false} RecoveriesAre(me: Node, grace: nat, es: seq<Event>)
    ensures Run(New(me, grace), es).recovered <==> exists j: nat :: Returns(es, me, j)
    decreases |es|
  {
    if es != [] {
      var (before, e) := (es[..|es| - 1], es[|es| - 1]);
      assert es == before + [e];
      RecoveriesAre(me, grace, before);
      RunSnoc(New(me, grace), before, e);
      var v := RunHistory(me, grace, before);
      StepReports(v, e);
      IsolatedExactly(me, grace, before);
      forall j: nat | j < |before| ensures Returns(es, me, j) <==> Returns(before, me, j) { assert es[..j] == before[..j]; }
      ReturnsNext(es, before, me);
    }
  }

  lemma ClashesNext(me: Node, grace: nat, before: seq<Event>, e: Event, v: View)
    requires v == Run(New(me, grace), before)
    ensures |AllClashes(me, grace, before + [e])| == |AllClashes(me, grace, before)| + if Clash(v, e) then 1 else 0
  {
    var (es, n) := (before + [e], |before|);
    assert es[..n] == before && es[n] == e;
    forall j: nat | j < n ensures Clashes(me, grace, es, j) <==> Clashes(me, grace, before, j) {
      assert es[..j] == before[..j] && es[j] == before[j];
    }
    assert AllClashes(me, grace, es) == AllClashes(me, grace, before) + if Clash(v, e) then {n} else {};
  }

  lemma {:induction false} DuplicatesAre(me: Node, grace: nat, es: seq<Event>)
    ensures Run(New(me, grace), es).duplicates == |AllClashes(me, grace, es)|
    decreases |es|
  {
    if es == [] {
      assert AllClashes(me, grace, es) == {};
    } else {
      var (before, e) := (es[..|es| - 1], es[|es| - 1]);
      var v := Run(New(me, grace), before);
      assert es == before + [e];
      DuplicatesAre(me, grace, before);
      RunSnoc(New(me, grace), before, e);
      StepReports(v, e);
      ClashesNext(me, grace, before, e, v);
    }
  }

  /** MAIN: in every run, a recovery is reported if and only if another node was put while the hub was cut off, and
      the duplicates counted are the puts of rooms routed to another node. */
  lemma ReportsExactly(me: Node, grace: nat, es: seq<Event>)
    ensures var v := Run(New(me, grace), es);
            (v.recovered <==> exists j: nat :: Returns(es, me, j)) && v.duplicates == |AllClashes(me, grace, es)|
  {
    RecoveriesAre(me, grace, es);
    DuplicatesAre(me, grace, es);
  }

  lemma ReturnsNext(es: seq<Event>, before: seq<Event>, me: Node)
    requires |es| == |before| + 1 && forall j: nat :: j < |before| ==> (Returns(es, me, j) <==> Returns(before, me, j))
    ensures (exists j: nat :: Returns(es, me, j)) <==> (exists j: nat :: Returns(before, me, j)) || Returns(es, me, |before|)
  {
    if j: nat :| Returns(before, me, j) { assert Returns(es, me, j); }
    if j: nat :| Returns(es, me, j) { assert j < |before| ==> Returns(before, me, j); }
  }
}
