/** Queries in flight at a node of the mesh: who asked, who still has to answer, and
    what each asker was told. */
module MeshQueries {
  import opened Wrappers

  /** Who asked: a caller here, or the peer of a session under an id of its own. */
  datatype Origin = Caller(handle: nat) | Peer(uid: nat, theirs: nat)

  /** Who answers: a queryable here, or the peer of a session. */
  datatype Target = Own(id: nat) | Via(uid: nat)

  datatype Pending = Pending(origin: Origin, targets: set<Target>, deadline: nat)

  /** A reply is recorded with the target it came from. */
  datatype Answer = Reply(via: Target) | Final

  /** An answer given to the asker of query qid; taken is false if its lane was full. */
  datatype Said = Said(qid: nat, origin: Origin, answer: Answer, taken: bool)

  /** Whether the asker's lane takes the n-th answer. */
  type Lanes = nat -> bool

  datatype State = State(nextId: nat, peers: set<nat>, pending: map<nat, Pending>, said: seq<Said>)

  // ---------------------------------------------------------------- steps

  predicate Reachable(q: State, o: Origin) { o.Peer? ==> o.uid in q.peers }

  function Say(q: State, qid: nat, o: Origin, a: Answer, room: Lanes): State {
    if Reachable(q, o) then q.(said := q.said + [Said(qid, o, a, o.Caller? || room(|q.said|))]) else q
  }

  function Finish(q: State, qid: nat, room: Lanes): State {
    if qid !in q.pending then q
    else Say(q.(pending := q.pending - {qid}), qid, q.pending[qid].origin, Final, room)
  }

  function TargetDone(q: State, qid: nat, t: Target, room: Lanes): State {
    if qid !in q.pending || t !in q.pending[qid].targets then q
    else
      var p := q.pending[qid].(targets := q.pending[qid].targets - {t});
      var r := q.(pending := q.pending[qid := p]);
      if p.targets == {} then Finish(r, qid, room) else r
  }

  function ForwardReply(q: State, qid: nat, t: Target, room: Lanes): State {
    if qid !in q.pending then q else Say(q, qid, q.pending[qid].origin, Reply(t), room)
  }

  /** A reply counts only while its sender has not finished. */
  function OnReply(q: State, t: Target, qid: nat, room: Lanes): State {
    if qid in q.pending && t in q.pending[qid].targets then ForwardReply(q, qid, t, room) else q
  }

  /** A peer whose request lane is full is answered for and done; so is a queryable that is gone. */
  function Refuse(q: State, qid: nat, t: Target, room: Lanes): State {
    TargetDone(if t.Via? then ForwardReply(q, qid, t, room) else q, qid, t, room)
  }

  function Visit(q: State, qid: nat, order: seq<Target>, refused: set<Target>, room: Lanes): State
    decreases |order|
  {
    if order == [] then q
    else Visit(if order[0] in refused then Refuse(q, qid, order[0], room) else q, qid, order[1..], refused, room)
  }

  function Open(q: State, p: Pending): State {
    q.(nextId := q.nextId + 1, pending := q.pending[q.nextId := p])
  }

  /** Ask all targets; with nobody left to answer, finish at once. */
  function Ask(q: State, p: Pending, order: seq<Target>, refused: set<Target>, room: Lanes): State {
    var qid := q.nextId;
    var r := Visit(Open(q, p), qid, order, refused, room);
    if qid in r.pending && r.pending[qid].targets == {} then Finish(r, qid, room) else r
  }

  /** What closing session u means for query qid. */
  function Sever(q: State, u: nat, qid: nat, room: Lanes): State {
    if qid !in q.pending then q
    else if q.pending[qid].origin.Peer? && q.pending[qid].origin.uid == u then q.(pending := q.pending - {qid})
    else TargetDone(q, qid, Via(u), room)
  }

  function SeverAll(q: State, u: nat, order: seq<nat>, room: Lanes): State
    decreases |order|
  {
    if order == [] then q else SeverAll(Sever(q, u, order[0], room), u, order[1..], room)
  }

  function FinishAll(q: State, order: seq<nat>, room: Lanes): State
    decreases |order|
  {
    if order == [] then q else FinishAll(Finish(q, order[0], room), order[1..], room)
  }

  // ---------------------------------------------------------------- what every step keeps

  ghost predicate Attached(peers: set<nat>, p: Pending) {
    && (p.origin.Peer? ==> p.origin.uid in peers)
    && (forall t :: t in p.targets && t.Via? ==> t.uid in peers)
  }

  /** No answer follows a final one. */
  ghost predicate FinalIsLast(said: seq<Said>) {
    forall i, j :: 0 <= i < j < |said| && said[i].qid == said[j].qid ==> said[i].answer != Final
  }

  ghost predicate Ended(said: seq<Said>, qid: nat) { exists i :: 0 <= i < |said| && said[i].qid == qid && said[i].answer == Final }

  /** History: queries still pending have not ended, and ids ahead were never used. */
  ghost predicate HistoryOk(q: State) {
    && FinalIsLast(q.said)
    && (forall qid :: qid in q.pending ==> qid < q.nextId && !Ended(q.said, qid))
    && (forall i :: 0 <= i < |q.said| ==> q.said[i].qid < q.nextId)
  }

  /** All ends of pending queries are among peers, and every query has somebody to answer,
      but those under work. */
  ghost predicate Loose(q: State, peers: set<nat>, work: set<nat>) {
    && HistoryOk(q)
    && (forall k :: k in q.pending ==> Attached(peers, q.pending[k]))
    && (forall k :: k in q.pending && k !in work ==> q.pending[k].targets != {})
  }

  ghost predicate Inv(q: State) { Loose(q, q.peers, {}) }

  /** r is q with some answers given and nothing but query qid changed; if that is gone, it ended. */
  ghost predicate Touches(q: State, r: State, qid: nat) {
    && q.nextId == r.nextId && q.peers == r.peers && q.said <= r.said
    && (forall k :: k != qid ==> (k in q.pending <==> k in r.pending) && (k in q.pending ==> q.pending[k] == r.pending[k]))
    && (qid in r.pending ==> qid in q.pending && r.pending[qid].origin == q.pending[qid].origin
                             && r.pending[qid].deadline == q.pending[qid].deadline)
    && (qid in q.pending && qid !in r.pending && Reachable(q, q.pending[qid].origin) ==> Ended(r.said, qid))
  }

  lemma SayOk(q: State, qid: nat, o: Origin, a: Answer, room: Lanes, peers: set<nat>, work: set<nat>)
    requires Loose(q, peers, work) && qid < q.nextId && !Ended(q.said, qid) && (a == Final ==> qid !in q.pending)
    ensures Loose(Say(q, qid, o, a, room), peers, work)
  {
  }

  lemma FinishOk(q: State, qid: nat, room: Lanes, peers: set<nat>, work: set<nat>)
    requires Loose(q, peers, work)
    ensures var r := Finish(q, qid, room);
            Loose(r, peers, work - {qid}) && qid !in r.pending && Touches(q, r, qid)
  {
    if qid in q.pending {
      SayOk(q.(pending := q.pending - {qid}), qid, q.pending[qid].origin, Final, room, peers, work - {qid});
      var r := Finish(q, qid, room);
      if Reachable(q, q.pending[qid].origin) { assert r.said[|q.said|].answer == Final; }
    }
  }

  lemma ForwardReplyOk(q: State, qid: nat, t: Target, room: Lanes, peers: set<nat>, work: set<nat>)
    requires Loose(q, peers, work)
    ensures var r := ForwardReply(q, qid, t, room);
            Loose(r, peers, work) && r.pending == q.pending && Touches(q, r, qid)
  {
    if qid in q.pending { SayOk(q, qid, q.pending[qid].origin, Reply(t), room, peers, work); }
  }

  lemma TargetDoneOk(q: State, qid: nat, t: Target, room: Lanes, peers: set<nat>, work: set<nat>)
    requires Loose(q, peers, work)
    ensures var r := TargetDone(q, qid, t, room);
            && Loose(r, peers, work) && Touches(q, r, qid)
            && (qid in r.pending ==> r.pending[qid].targets == q.pending[qid].targets - {t})
  {
    if qid in q.pending && t in q.pending[qid].targets {
      var p := q.pending[qid].(targets := q.pending[qid].targets - {t});
      var r := q.(pending := q.pending[qid := p]);
      if p.targets == {} {
        assert Loose(r, peers, work + {qid});
        FinishOk(r, qid, room, peers, work + {qid});
      }
    } else if qid in q.pending {
      assert q.pending[qid].targets - {t} == q.pending[qid].targets;
    }
  }

  lemma RefuseOk(q: State, qid: nat, t: Target, room: Lanes, peers: set<nat>, work: set<nat>)
    requires Loose(q, peers, work)
    ensures Loose(Refuse(q, qid, t, room), peers, work) && Touches(q, Refuse(q, qid, t, room), qid)
  {
    var q1 := if t.Via? then ForwardReply(q, qid, t, room) else q;
    ForwardReplyOk(q, qid, t, room, peers, work);
    TargetDoneOk(q1, qid, t, room, peers, work);
  }

  lemma TouchesTwice(a: State, b: State, c: State, qid: nat)
    requires Touches(a, b, qid) && Touches(b, c, qid)
    ensures Touches(a, c, qid)
  {
    if Ended(b.said, qid) {
      var i :| 0 <= i < |b.said| && b.said[i].qid == qid && b.said[i].answer == Final;
      assert c.said[i] == b.said[i];
    }
  }

  lemma {:induction false} VisitOk(q: State, qid: nat, order: seq<Target>, refused: set<Target>, room: Lanes)
    requires Loose(q, q.peers, {qid})
    ensures var r := Visit(q, qid, order, refused, room); Loose(r, q.peers, {qid}) && Touches(q, r, qid)
    decreases |order|
  {
    if order != [] {
      if order[0] in refused {
        var q1 := Refuse(q, qid, order[0], room);
        RefuseOk(q, qid, order[0], room, q.peers, {qid});
        VisitOk(q1, qid, order[1..], refused, room);
        TouchesTwice(q, q1, Visit(q1, qid, order[1..], refused, room), qid);
      } else {
        VisitOk(q, qid, order[1..], refused, room);
      }
    }
  }

  /** Asking uses an id never used before, leaves the other queries alone, and a query that nobody
      is left to answer has ended. */
  lemma AskOk(q: State, p: Pending, order: seq<Target>, refused: set<Target>, room: Lanes)
    requires Inv(q) && Attached(q.peers, p)
    ensures var r := Ask(q, p, order, refused, room);
            && Inv(r) && q.said <= r.said
            && (forall k :: k in q.pending ==> k in r.pending && r.pending[k] == q.pending[k])
            && (q.nextId in r.pending || Ended(r.said, q.nextId))
    ensures q.nextId !in q.pending && forall i :: 0 <= i < |q.said| ==> q.said[i].qid != q.nextId
  {
    var (qid, q0) := (q.nextId, Open(q, p));
    assert !Ended(q.said, qid);
    VisitOk(q0, qid, order, refused, room);
    var r := Visit(q0, qid, order, refused, room);
    if qid in r.pending && r.pending[qid].targets == {} {
      FinishOk(r, qid, room, q.peers, {qid});
      TouchesTwice(q0, r, Finish(r, qid, room), qid);
    }
  }

  // ---------------------------------------------------------------- closing a session

  predicate Free(p: Pending, u: nat) { !(p.origin.Peer? && p.origin.uid == u) && Via(u) !in p.targets }

  lemma SeverOk(q: State, u: nat, qid: nat, room: Lanes)
    requires Loose(q, q.peers + {u}, {})
    ensures var r := Sever(q, u, qid, room);
            && Loose(r, q.peers + {u}, {}) && r.peers == q.peers && r.nextId == q.nextId && q.said <= r.said
            && (qid in r.pending ==> Free(r.pending[qid], u))
            && (forall k :: k in r.pending ==> k in q.pending && r.pending[k].origin == q.pending[k].origin)
            && (forall k :: k in q.pending && k != qid ==> k in r.pending && r.pending[k] == q.pending[k])
            && (qid in q.pending && qid !in r.pending ==>
                  (q.pending[qid].origin.Peer? && q.pending[qid].origin.uid == u) || Ended(r.said, qid))
  {
    if qid in q.pending && !(q.pending[qid].origin.Peer? && q.pending[qid].origin.uid == u) {
      TargetDoneOk(q, qid, Via(u), room, q.peers + {u}, {});
    }
  }

  /** A query that is gone was asked over the closed session or has been answered to the end. */
  ghost predicate GoneRightly(q: State, r: State, u: nat) {
    forall k :: k in q.pending && k !in r.pending ==> (q.pending[k].origin.Peer? && q.pending[k].origin.uid == u) || Ended(r.said, k)
  }

  lemma EndedStays(a: seq<Said>, b: seq<Said>, qid: nat)
    requires Ended(a, qid) && a <= b
    ensures Ended(b, qid)
  {
    var i :| 0 <= i < |a| && a[i].qid == qid && a[i].answer == Final;
    assert b[i] == a[i];
  }

  lemma {:induction false} SeverAllOk(q: State, u: nat, order: seq<nat>, room: Lanes)
    requires Loose(q, q.peers + {u}, {})
    requires forall k :: k in q.pending ==> k in order || Free(q.pending[k], u)
    ensures var r := SeverAll(q, u, order, room);
            && Loose(r, q.peers + {u}, {}) && r.peers == q.peers && r.nextId == q.nextId && q.said <= r.said
            && (forall k :: k in r.pending ==> Free(r.pending[k], u))
            && GoneRightly(q, r, u)
    decreases |order|
  {
    if order != [] {
      var (k0, q1) := (order[0], Sever(q, u, order[0], room));
      SeverOk(q, u, k0, room);
      forall k | k in q1.pending ensures k in order[1..] || Free(q1.pending[k], u) {
        if k != k0 { assert k in order ==> k in order[1..]; }
      }
      SeverAllOk(q1, u, order[1..], room);
      var r := SeverAll(q1, u, order[1..], room);
      forall k | k in q.pending && k !in r.pending
        ensures (q.pending[k].origin.Peer? && q.pending[k].origin.uid == u) || Ended(r.said, k) {
        if k !in q1.pending && Ended(q1.said, k) { EndedStays(q1.said, r.said, k); }
      }
    }
  }

  function CloseSession(q: State, u: nat, order: seq<nat>, room: Lanes): State {
    if u !in q.peers then q else SeverAll(q.(peers := q.peers - {u}), u, order, room)
  }

  /** MAIN: closing a session leaves no query with an end there, and ends those it was the last to answer. */
  lemma CloseFreesQueries(q: State, u: nat, order: seq<nat>, room: Lanes)
    requires Inv(q) && forall k :: k in order <==> k in q.pending
    ensures var r := CloseSession(q, u, order, room);
            && Inv(r) && r.peers == q.peers - {u} && r.nextId == q.nextId && q.said <= r.said
            && (forall k :: k in r.pending ==> Free(r.pending[k], u)) && GoneRightly(q, r, u)
  {
    if u !in q.peers {
      assert q.peers - {u} == q.peers;
    } else {
      var q0 := q.(peers := q.peers - {u});
      assert q0.peers + {u} == q.peers;
      SeverAllOk(q0, u, order, room);
    }
  }

  /** After a long gap every session is closed, in some order; visits says in what order each close
      goes through the queries. */
  function FenceAll(q: State, uids: seq<nat>, visits: seq<seq<nat>>, room: Lanes): State
    requires |uids| == |visits|
    decreases |uids|
  {
    if uids == [] then q else FenceAll(CloseSession(q, uids[0], visits[0], room), uids[1..], visits[1..], room)
  }

  ghost predicate Fences(q: State, uids: seq<nat>, visits: seq<seq<nat>>, room: Lanes)
    decreases |uids|
  {
    && |uids| == |visits|
    && (uids != [] ==> (forall k :: k in visits[0] <==> k in q.pending)
                       && Fences(CloseSession(q, uids[0], visits[0], room), uids[1..], visits[1..], room))
  }

  lemma {:induction false} FenceAllOk(q: State, uids: seq<nat>, visits: seq<seq<nat>>, room: Lanes)
    requires Inv(q) && Fences(q, uids, visits, room)
    ensures var r := FenceAll(q, uids, visits, room);
            && Inv(r) && r.nextId == q.nextId && q.said <= r.said && (forall u :: u in r.peers <==> u in q.peers && u !in uids)
            && (forall k :: k in q.pending && k !in r.pending ==> q.pending[k].origin.Peer? || Ended(r.said, k))
    decreases |uids|
  {
    if uids != [] {
      var q1 := CloseSession(q, uids[0], visits[0], room);
      CloseFreesQueries(q, uids[0], visits[0], room);
      FenceAllOk(q1, uids[1..], visits[1..], room);
      var r := FenceAll(q1, uids[1..], visits[1..], room);
      forall k | k in q.pending && k !in r.pending ensures q.pending[k].origin.Peer? || Ended(r.said, k) {
        if k !in q1.pending {
          if Ended(q1.said, k) { EndedStays(q1.said, r.said, k); }
        } else {
          CloseKeeps(q, uids[0], visits[0], room, k);
        }
      }
    }
  }

  lemma {:induction false} CloseKeeps(q: State, u: nat, visit: seq<nat>, room: Lanes, k: nat)
    requires k in CloseSession(q, u, visit, room).pending
    ensures k in q.pending && CloseSession(q, u, visit, room).pending[k].origin == q.pending[k].origin
  {
    if u in q.peers { SeverAllKeeps(q.(peers := q.peers - {u}), u, visit, room, k); }
  }

  lemma {:induction false} SeverAllKeeps(q: State, u: nat, order: seq<nat>, room: Lanes, k: nat)
    requires k in SeverAll(q, u, order, room).pending
    ensures k in q.pending && SeverAll(q, u, order, room).pending[k].origin == q.pending[k].origin
    decreases |order|
  {
    if order != [] { SeverAllKeeps(Sever(q, u, order[0], room), u, order[1..], room, k); }
  }

  lemma {:induction false} FenceNext(q: State, uids: seq<nat>, visits: seq<seq<nat>>, room: Lanes, u: nat, visit: seq<nat>)
    requires Fences(q, uids, visits, room)
    requires forall k :: k in visit <==> k in FenceAll(q, uids, visits, room).pending
    ensures Fences(q, uids + [u], visits + [visit], room)
    ensures FenceAll(q, uids + [u], visits + [visit], room) == CloseSession(FenceAll(q, uids, visits, room), u, visit, room)
    decreases |uids|
  {
    var (us, vs) := (uids + [u], visits + [visit]);
    if uids == [] {
      assert us[1..] == [] && vs[1..] == [] && us[0] == u && vs[0] == visit;
    } else {
      assert us[1..] == uids[1..] + [u] && vs[1..] == visits[1..] + [visit] && us[0] == uids[0] && vs[0] == visits[0];
      FenceNext(CloseSession(q, uids[0], visits[0], room), uids[1..], visits[1..], room, u, visit);
    }
  }

  // ---------------------------------------------------------------- deadlines

  lemma {:induction false} FinishAllOk(q: State, order: seq<nat>, room: Lanes)
    requires Inv(q)
    ensures var r := FinishAll(q, order, room);
            && Inv(r) && r.peers == q.peers && r.nextId == q.nextId && q.said <= r.said
            && (forall k :: k in r.pending <==> k in q.pending && k !in order)
            && (forall k :: k in r.pending ==> r.pending[k] == q.pending[k])
            && (forall k :: k in q.pending && k in order ==> Ended(r.said, k))
    decreases |order|
  {
    if order != [] {
      var q1 := Finish(q, order[0], room);
      FinishOk(q, order[0], room, q.peers, {});
      FinishAllOk(q1, order[1..], room);
      var r := FinishAll(q1, order[1..], room);
      forall k | k in q.pending && k in order ensures Ended(r.said, k) {
        if k == order[0] { EndedStays(q1.said, r.said, k); }
      }
    }
  }

  ghost predicate IsLate(q: State, now: nat, order: seq<nat>) {
    forall k :: k in order <==> k in q.pending && q.pending[k].deadline <= now
  }

  /** MAIN: a tick ends exactly the queries whose deadline has passed, and changes no other. */
  lemma TickEndsLate(q: State, now: nat, order: seq<nat>, room: Lanes)
    requires Inv(q) && IsLate(q, now, order)
    ensures var r := FinishAll(q, order, room);
            && Inv(r)
            && (forall k :: k in r.pending <==> k in q.pending && q.pending[k].deadline > now)
            && (forall k :: k in r.pending ==> r.pending[k] == q.pending[k])
            && (forall k :: k in q.pending && q.pending[k].deadline <= now ==> Ended(r.said, k))
  {
    FinishAllOk(q, order, room);
  }

  // ---------------------------------------------------------------- runs

  datatype Event =
    | TakeId
    | Joined(uid: nat)
    | Left(uid: nat, visit: seq<nat>)
    | Asked(p: Pending, order: seq<Target>, refused: set<Target>)
    | Replied(t: Target, qid: nat)
    | Done(t: Target, qid: nat)
    | Ticked(now: nat, late: seq<nat>)
    | Fenced(uids: seq<nat>, visits: seq<seq<nat>>)

  ghost predicate IsList(order: seq<Target>, ts: set<Target>) {
    Distinct(order) && forall t :: t in order <==> t in ts
  }

  /** A question never goes back where it came from, and only to live sessions. */
  ghost predicate Enabled(q: State, e: Event, room: Lanes) {
    match e
    case Joined(u) => u !in q.peers
    case Left(u, visit) => forall k :: k in visit <==> k in q.pending
    case Asked(p, order, _) => Attached(q.peers, p) && IsList(order, p.targets)
                               && (p.origin.Peer? ==> Via(p.origin.uid) !in p.targets)
    case Ticked(now, late) => IsLate(q, now, late)
    case Fenced(uids, visits) => Fences(q, uids, visits, room) && forall u :: u in uids <==> u in q.peers
    case _ => true
  }

  function Apply(q: State, e: Event, room: Lanes): State {
    match e
    case TakeId => q.(nextId := q.nextId + 1)
    case Joined(u) => q.(peers := q.peers + {u})
    case Left(u, visit) => CloseSession(q, u, visit, room)
    case Asked(p, order, refused) => Ask(q, p, order, refused, room)
    case Replied(t, qid) => OnReply(q, t, qid, room)
    case Done(t, qid) => TargetDone(q, qid, t, room)
    case Ticked(_, late) => FinishAll(q, late, room)
    case Fenced(uids, visits) => if |uids| == |visits| then FenceAll(q, uids, visits, room) else q
  }

  /** MAIN: every step keeps the invariant; a query leaves only with its answers ended, or
      with the session it was asked over. */
  lemma StepOk(q: State, e: Event, room: Lanes)
    requires Inv(q) && Enabled(q, e, room)
    ensures Inv(Apply(q, e, room)) && q.said <= Apply(q, e, room).said
    ensures e.Left? ==> GoneRightly(q, Apply(q, e, room), e.uid)
    ensures e.Fenced? ==> Apply(q, e, room).peers == {}
    ensures forall k :: k in q.pending && k !in Apply(q, e, room).pending ==>
                          (q.pending[k].origin.Peer? && (e.Left? || e.Fenced?)) || Ended(Apply(q, e, room).said, k)
  {
    match e
    case TakeId =>
    case Joined(u) =>
    case Left(u, visit) => CloseFreesQueries(q, u, visit, room);
    case Asked(p, order, refused) => AskOk(q, p, order, refused, room);
    case Replied(t, qid) => ForwardReplyOk(q, qid, t, room, q.peers, {});
    case Done(t, qid) => TargetDoneOk(q, qid, t, room, q.peers, {});
    case Ticked(now, late) => FinishAllOk(q, late, room);
    case Fenced(uids, visits) => FenceAllOk(q, uids, visits, room);
  }

  const Start := State(1, {}, map[], [])

  /** qs are the states of a run: the n-th event, with the lanes as in rooms, leads from the n-th to the next. */
  ghost predicate IsRun(es: seq<Event>, rooms: seq<Lanes>, qs: seq<State>) {
    && |rooms| == |es| && |qs| == |es| + 1 && qs[0] == Start
    && forall n :: 0 <= n < |es| ==> Enabled(qs[n], es[n], rooms[n]) && qs[n + 1] == Apply(qs[n], es[n], rooms[n])
  }

  lemma {:induction false} RunOk(es: seq<Event>, rooms: seq<Lanes>, qs: seq<State>, n: nat)
    requires IsRun(es, rooms, qs) && n <= |es|
    ensures Inv(qs[n])
  {
    if n > 0 {
      RunOk(es, rooms, qs, n - 1);
      StepOk(qs[n - 1], es[n - 1], rooms[n - 1]);
    }
  }

  /** MAIN: in every run, whatever lanes are full, every pending query has somebody left to
      answer and both ends alive, and no answer to a query follows its final one. */
  lemma QueriesAreFenced(es: seq<Event>, rooms: seq<Lanes>, qs: seq<State>)
    requires IsRun(es, rooms, qs)
    ensures var q := qs[|es|];
            && (forall k :: k in q.pending ==> q.pending[k].targets != {} && Attached(q.peers, q.pending[k]))
            && FinalIsLast(q.said)
  {
    RunOk(es, rooms, qs, |es|);
  }

  // ---------------------------------------------------------------- as it runs

  class Queries {
    var nextId: nat
    var peers: set<nat>
    var pending: map<nat, Pending>
    /** What the askers were told, a history. */
    var said: seq<Said>

    function Now(): State
      reads this
    {
      State(nextId, peers, pending, said)
    }

    constructor ()
      ensures Now() == Start && Inv(Now())
    {
      nextId, peers, pending, said := 1, {}, map[], [];
    }

    method Tell(qid: nat, o: Origin, a: Answer, room: Lanes)
      modifies this
      ensures Now() == Say(old(Now()), qid, o, a, room)
    {
      match o
      case Caller(_) => said := said + [Said(qid, o, a, true)];
      case Peer(u, _) =>
        if u in peers { said := said + [Said(qid, o, a, room(|said|))]; }
    }

    method FinishQuery(qid: nat, room: Lanes)
      modifies this
      ensures Now() == Finish(old(Now()), qid, room)
    {
      if qid in pending {
        var o := pending[qid].origin;
        pending := pending - {qid};
        Tell(qid, o, Final, room);
      }
    }

    method Complete(qid: nat, t: Target, room: Lanes)
      modifies this
      ensures Now() == TargetDone(old(Now()), qid, t, room)
    {
      if qid in pending && t in pending[qid].targets {
        var p := pending[qid].(targets := pending[qid].targets - {t});
        pending := pending[qid := p];
        if p.targets == {} { FinishQuery(qid, room); }
      }
    }

    /** t: who replied. */
    method PassOn(qid: nat, t: Target, room: Lanes)
      modifies this
      ensures Now() == ForwardReply(old(Now()), qid, t, room)
    {
      if qid in pending { Tell(qid, pending[qid].origin, Reply(t), room); }
    }

    /** Open a query and hand it to its targets; refused are those that do not take it. */
    method RouteGet(p: Pending, refused: set<Target>, room: Lanes) returns (qid: nat, ghost order: seq<Target>)
      modifies this
      ensures qid == old(nextId) && IsList(order, p.targets)
      ensures Now() == Ask(old(Now()), p, order, refused, room)
    {
      qid := nextId;
      nextId := nextId + 1;
      pending := pending[qid := p];
      ghost var begun := Now();
      var list := ListOf(p.targets);
      for i := 0 to |list|
        invariant Visit(Now(), qid, list[i..], refused, room) == Visit(begun, qid, list, refused, room)
      {
        assert list[i..][1..] == list[i + 1..];
        var t := list[i];
        if t in refused {
          if t.Via? { PassOn(qid, t, room); }
          Complete(qid, t, room);
        }
      }
      if qid in pending && pending[qid].targets == {} { FinishQuery(qid, room); }
      order := list;
    }

    /** The part of closing a session that concerns queries. */
    method Close(u: nat, room: Lanes) returns (ghost order: seq<nat>)
      modifies this
      ensures forall k :: k in order <==> k in old(pending)
      ensures Now() == CloseSession(old(Now()), u, order, room)
    {
      var list := ListOf(pending.Keys);
      order := list;
      if u !in peers { return; }
      peers := peers - {u};
      ghost var cut := Now();
      for i := 0 to |list|
        invariant SeverAll(Now(), u, list[i..], room) == SeverAll(cut, u, list, room)
      {
        assert list[i..][1..] == list[i + 1..];
        var k := list[i];
        if k in pending {
          var o := pending[k].origin;
          if o.Peer? && o.uid == u { pending := pending - {k}; } else { Complete(k, Via(u), room); }
        }
      }
    }

    /** The part of a tick that concerns queries. */
    method Tick(now: nat, room: Lanes) returns (ghost order: seq<nat>)
      modifies this
      ensures IsLate(old(Now()), now, order) && Now() == FinishAll(old(Now()), order, room)
    {
      var list := ListOf(set k: nat | k in pending && pending[k].deadline <= now);
      order := list;
      ghost var was := Now();
      for i := 0 to |list|
        invariant FinishAll(Now(), list[i..], room) == FinishAll(was, list, room)
      {
        assert list[i..][1..] == list[i + 1..];
        FinishQuery(list[i], room);
      }
    }

    /** A tick after a long gap: every session is closed, and no query is looked at for its deadline. */
    method Fence(room: Lanes) returns (ghost uids: seq<nat>, ghost visits: seq<seq<nat>>)
      modifies this
      ensures (forall u :: u in uids <==> u in old(peers)) && Fences(old(Now()), uids, visits, room)
      ensures Now() == FenceAll(old(Now()), uids, visits, room)
    {
      var list := ListOf(peers);
      uids, visits := [], [];
      ghost var was := Now();
      for i := 0 to |list|
        invariant uids == list[..i] && |visits| == |uids| && Fences(was, uids, visits, room)
        invariant Now() == FenceAll(was, uids, visits, room)
      {
        ghost var visit := Close(list[i], room);
        FenceNext(was, uids, visits, room, list[i], visit);
        uids, visits := uids + [list[i]], visits + [visit];
      }
    }

    /** One event; done is the event with the orders that hash tables gave. */
    method Serve(e: Event, room: Lanes) returns (ghost done: Event)
      requires Inv(Now())
      requires match e
               case Joined(u) => u !in peers
               case Asked(p, _, _) => Attached(peers, p) && (p.origin.Peer? ==> Via(p.origin.uid) !in p.targets)
               case _ => true
      modifies this
      ensures Inv(Now()) && Enabled(old(Now()), done, room) && Now() == Apply(old(Now()), done, room)
    {
      ghost var was := Now();
      done := e;
      match e {
        case TakeId => nextId := nextId + 1;
        case Joined(u) => peers := peers + {u};
        case Left(u, _) =>
          ghost var order := Close(u, room);
          done := Left(u, order);
        case Asked(p, _, refused) =>
          var _, order := RouteGet(p, refused, room);
          done := Asked(p, order, refused);
        case Replied(t, qid) =>
          if qid in pending && t in pending[qid].targets { PassOn(qid, t, room); }
        case Done(t, qid) => Complete(qid, t, room);
        case Ticked(now, _) =>
          ghost var order := Tick(now, room);
          done := Ticked(now, order);
        case Fenced(_, _) =>
          ghost var uids, visits := Fence(room);
          done := Fenced(uids, visits);
      }
      StepOk(was, done, room);
    }
  }
}
