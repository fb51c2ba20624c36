/** Which replies reach an asker: a query's course read off the events of a run. */
module MeshReplies {
  import opened Wrappers
  import opened MeshQueries

  // ---------------------------------------------------------------- one step

  /** What ends the part of target t in query qid, asked as p: t is done, its session or the
      asker's goes, or a tick finds the deadline passed. */
  predicate Ends(e: Event, qid: nat, t: Target, p: Pending) {
    match e
    case Done(s, k) => s == t && k == qid
    case Left(u, _) => t == Via(u) || (p.origin.Peer? && p.origin.uid == u)
    case Ticked(now, _) => p.deadline <= now
    case Fenced(_, _) => t.Via? || p.origin.Peer?
    case _ => false
  }

  predicate SameAsk(a: Pending, b: Pending) { a.origin == b.origin && a.deadline == b.deadline }

  /** Queries of r are queries of q, with fewer targets at most. */
  ghost predicate Less(q: State, r: State) {
    forall k :: k in r.pending ==> k in q.pending && SameAsk(r.pending[k], q.pending[k]) && r.pending[k].targets <= q.pending[k].targets
  }

  /** The answers given between q and r all are final ones, to askers of queries of q. */
  ghost predicate OnlyFinals(q: State, r: State) {
    && q.said <= r.said
    && forall i :: |q.said| <= i < |r.said| ==>
                     r.said[i].answer == Final && r.said[i].qid in q.pending && r.said[i].origin == q.pending[r.said[i].qid].origin
  }

  ghost predicate Stays(r: State, k: nat, t: Target) { k in r.pending && t in r.pending[k].targets }

  /** Nothing is lost but by an end. */
  ghost predicate Keeps(q: State, r: State, e: Event) {
    forall k, t :: Stays(q, k, t) && !Ends(e, k, t, q.pending[k]) ==> Stays(r, k, t)
  }

  /** Whatever ended is gone. */
  ghost predicate Drops(q: State, r: State, e: Event) {
    forall k, t :: k in q.pending && Stays(r, k, t) ==> !Ends(e, k, t, q.pending[k])
  }

  /** Queries of r are carried over from q, or just asked. */
  ghost predicate Carries(q: State, r: State, e: Event) {
    && (forall k :: k in q.pending && k in r.pending ==>
                      SameAsk(r.pending[k], q.pending[k]) && r.pending[k].targets <= q.pending[k].targets)
    && (forall k :: k in r.pending && k !in q.pending ==> e.Asked? && k == q.nextId)
  }

  lemma Twice(a: State, b: State, c: State)
    requires Less(a, b) && Less(b, c) && OnlyFinals(a, b) && OnlyFinals(b, c)
    ensures Less(a, c) && OnlyFinals(a, c)
  {
    forall i | |a.said| <= i < |c.said|
      ensures c.said[i].answer == Final && c.said[i].qid in a.pending && c.said[i].origin == a.pending[c.said[i].qid].origin
    {
      if i < |b.said| { assert c.said[i] == b.said[i]; }
    }
  }

  lemma FinishSays(q: State, qid: nat, room: Lanes)
    ensures Less(q, Finish(q, qid, room)) && OnlyFinals(q, Finish(q, qid, room))
  {
  }

  lemma TargetDoneSays(q: State, qid: nat, t: Target, room: Lanes)
    ensures var r := TargetDone(q, qid, t, room);
            && Less(q, r) && OnlyFinals(q, r) && !Stays(r, qid, t)
            && forall k, s :: Stays(q, k, s) && (k != qid || s != t) ==> Stays(r, k, s)
  {
    if qid in q.pending && t in q.pending[qid].targets {
      var p := q.pending[qid].(targets := q.pending[qid].targets - {t});
      var q1 := q.(pending := q.pending[qid := p]);
      if p.targets == {} {
        FinishSays(q1, qid, room);
        Twice(q, q1, Finish(q1, qid, room));
        forall s | Stays(q, qid, s) ensures s == t { assert s in p.targets + {t}; }
      }
    }
  }

  lemma SeverSays(q: State, u: nat, qid: nat, room: Lanes)
    ensures var r := Sever(q, u, qid, room);
            && Less(q, r) && OnlyFinals(q, r)
            && forall k, t :: Stays(q, k, t) && t != Via(u) && q.pending[k].origin.Caller? ==> Stays(r, k, t)
    ensures var r := Sever(q, u, qid, room);
            forall k, t :: Stays(q, k, t) && t != Via(u) && q.pending[k].origin.Peer? && q.pending[k].origin.uid != u ==> Stays(r, k, t)
  {
    if qid in q.pending && !(q.pending[qid].origin.Peer? && q.pending[qid].origin.uid == u) { TargetDoneSays(q, qid, Via(u), room); }
  }

  predicate Apart(p: Pending, t: Target, u: nat) { t != Via(u) && !(p.origin.Peer? && p.origin.uid == u) }

  ghost predicate KeepsApart(q: State, r: State, u: nat) {
    forall k, t :: Stays(q, k, t) && Apart(q.pending[k], t, u) ==> Stays(r, k, t)
  }

  lemma {:induction false} SeverAllSays(q: State, u: nat, order: seq<nat>, room: Lanes)
    ensures var r := SeverAll(q, u, order, room); Less(q, r) && OnlyFinals(q, r) && KeepsApart(q, r, u)
    decreases |order|
  {
    if order != [] {
      var q1 := Sever(q, u, order[0], room);
      SeverSays(q, u, order[0], room);
      SeverAllSays(q1, u, order[1..], room);
      Twice(q, q1, SeverAll(q1, u, order[1..], room));
    }
  }

  lemma CloseSays(q: State, u: nat, visit: seq<nat>, room: Lanes)
    ensures var r := CloseSession(q, u, visit, room); Less(q, r) && OnlyFinals(q, r) && KeepsApart(q, r, u)
  {
    if u in q.peers {
      var q0 := q.(peers := q.peers - {u});
      SeverAllSays(q0, u, visit, room);
    }
  }

  ghost predicate KeepsOwn(q: State, r: State) {
    forall k, t :: Stays(q, k, t) && t.Own? && q.pending[k].origin.Caller? ==> Stays(r, k, t)
  }

  lemma {:induction false} FenceSays(q: State, uids: seq<nat>, visits: seq<seq<nat>>, room: Lanes)
    requires |uids| == |visits|
    ensures var r := FenceAll(q, uids, visits, room); Less(q, r) && OnlyFinals(q, r) && KeepsOwn(q, r)
    decreases |uids|
  {
    if uids != [] {
      var q1 := CloseSession(q, uids[0], visits[0], room);
      CloseSays(q, uids[0], visits[0], room);
      FenceSays(q1, uids[1..], visits[1..], room);
      Twice(q, q1, FenceAll(q1, uids[1..], visits[1..], room));
    }
  }

  lemma {:induction false} FinishAllSays(q: State, order: seq<nat>, room: Lanes)
    ensures var r := FinishAll(q, order, room); Less(q, r) && OnlyFinals(q, r)
    decreases |order|
  {
    if order != [] {
      var q1 := Finish(q, order[0], room);
      FinishSays(q, order[0], room);
      FinishAllSays(q1, order[1..], room);
      Twice(q, q1, FinishAll(q1, order[1..], room));
    }
  }

  // ---------------------------------------------------------------- asking

  /** A word to asker o of query qid; a reply only for a peer that refused. */
  predicate AskWord(s: Said, qid: nat, o: Origin, order: seq<Target>, refused: set<Target>) {
    s.qid == qid && s.origin == o && (s.answer.Reply? ==> s.answer.via.Via? && s.answer.via in order && s.answer.via in refused)
  }

  ghost predicate AskWords(q: State, r: State, qid: nat, o: Origin, order: seq<Target>, refused: set<Target>) {
    q.said <= r.said && forall i :: |q.said| <= i < |r.said| ==> AskWord(r.said[i], qid, o, order, refused)
  }

  lemma RefuseSays(q: State, qid: nat, t: Target, room: Lanes, p: Pending, refused: set<Target>)
    requires qid in q.pending ==> q.pending[qid].origin == p.origin
    requires t in refused
    ensures var r := Refuse(q, qid, t, room);
            && AskWords(q, r, qid, p.origin, [t], refused)
            && (qid in r.pending ==> qid in q.pending && SameAsk(r.pending[qid], q.pending[qid]))
            && !Stays(r, qid, t) && forall s :: Stays(q, qid, s) && s != t ==> Stays(r, qid, s)
    ensures forall s :: Stays(Refuse(q, qid, t, room), qid, s) ==> Stays(q, qid, s)
  {
    var q1 := if t.Via? then ForwardReply(q, qid, t, room) else q;
    assert q1.pending == q.pending;
    assert AskWords(q, q1, qid, p.origin, [t], refused);
    TargetDoneSays(q1, qid, t, room);
    TargetDoneAlone(q1, qid, t, room);
  }

  /** Only query qid is spoken for. */
  lemma TargetDoneAlone(q: State, qid: nat, t: Target, room: Lanes)
    ensures var r := TargetDone(q, qid, t, room);
            q.said <= r.said && forall i :: |q.said| <= i < |r.said| ==> r.said[i].qid == qid && qid in q.pending
  {
  }

  lemma {:induction false} VisitSays(q: State, qid: nat, order: seq<Target>, refused: set<Target>, room: Lanes, p: Pending)
    requires qid in q.pending ==> SameAsk(q.pending[qid], p)
    ensures var r := Visit(q, qid, order, refused, room);
            && AskWords(q, r, qid, p.origin, order, refused)
            && (qid in r.pending ==> qid in q.pending && SameAsk(r.pending[qid], p))
            && (forall t :: Stays(r, qid, t) <==> Stays(q, qid, t) && !(t in order && t in refused))
    decreases |order|
  {
    if order != [] {
      var (t0, rest) := (order[0], order[1..]);
      if t0 in refused {
        var q1 := Refuse(q, qid, t0, room);
        RefuseSays(q, qid, t0, room, p, refused);
        VisitSays(q1, qid, rest, refused, room, p);
        WordsTwice(q, q1, Visit(q1, qid, rest, refused, room), qid, p.origin, order, refused);
      } else {
        VisitSays(q, qid, rest, refused, room, p);
      }
    }
  }

  lemma WordsTwice(a: State, b: State, c: State, qid: nat, o: Origin, order: seq<Target>, refused: set<Target>)
    requires order != [] && AskWords(a, b, qid, o, [order[0]], refused) && AskWords(b, c, qid, o, order[1..], refused)
    ensures AskWords(a, c, qid, o, order, refused)
  {
    forall i | |a.said| <= i < |c.said| ensures AskWord(c.said[i], qid, o, order, refused) {
      if i < |b.said| {
        assert c.said[i] == b.said[i] && AskWord(b.said[i], qid, o, [order[0]], refused);
      } else {
        assert AskWord(c.said[i], qid, o, order[1..], refused);
      }
    }
  }

  /** After asking, exactly those who were asked and did not refuse are awaited. */
  lemma AskSays(q: State, p: Pending, order: seq<Target>, refused: set<Target>, room: Lanes)
    requires Inv(q) && IsList(order, p.targets)
    ensures var (r, qid) := (Ask(q, p, order, refused, room), q.nextId);
            && AskWords(q, r, qid, p.origin, order, refused)
            && (qid in r.pending ==> SameAsk(r.pending[qid], p))
            && (forall t :: Stays(r, qid, t) <==> t in p.targets && t !in refused)
  {
    var (qid, q0) := (q.nextId, Open(q, p));
    VisitSays(q0, qid, order, refused, room, p);
    var r := Visit(q0, qid, order, refused, room);
    if qid in r.pending && r.pending[qid].targets == {} {
      forall t ensures !(t in p.targets && t !in refused) {
        assert !Stays(r, qid, t);
        assert t in p.targets ==> Stays(q0, qid, t);
      }
    } else {
      forall t ensures Stays(r, qid, t) <==> t in p.targets && t !in refused { assert Stays(q0, qid, t) <==> t in p.targets; }
    }
  }

  // ---------------------------------------------------------------- every step

  /** What a step makes of the queries there are. */
  lemma StepKeeps(q: State, e: Event, room: Lanes)
    requires Inv(q) && Enabled(q, e, room)
    ensures Keeps(q, Apply(q, e, room), e) && Drops(q, Apply(q, e, room), e)
    ensures Carries(q, Apply(q, e, room), e)
  {
    match e
    case TakeId =>
    case Joined(u) =>
    case Left(u, visit) => LeftKeeps(q, u, visit, room);
    case Asked(p, order, refused) => AskKeeps(q, p, order, refused, room);
    case Replied(t, qid) =>
    case Done(t, qid) => TargetDoneSays(q, qid, t, room);
    case Ticked(now, late) => TickKeeps(q, now, late, room);
    case Fenced(uids, visits) => FenceKeeps(q, uids, visits, room);
  }

  lemma LeftKeeps(q: State, u: nat, visit: seq<nat>, room: Lanes)
    requires Inv(q) && Enabled(q, Left(u, visit), room)
    ensures var r := CloseSession(q, u, visit, room); Keeps(q, r, Left(u, visit)) && Drops(q, r, Left(u, visit)) && Less(q, r)
  {
    CloseSays(q, u, visit, room);
    CloseFreesQueries(q, u, visit, room);
  }

  lemma FenceKeeps(q: State, uids: seq<nat>, visits: seq<seq<nat>>, room: Lanes)
    requires Inv(q) && Enabled(q, Fenced(uids, visits), room)
    ensures var r := FenceAll(q, uids, visits, room);
            Keeps(q, r, Fenced(uids, visits)) && Drops(q, r, Fenced(uids, visits)) && Less(q, r)
  {
    FenceSays(q, uids, visits, room);
    FenceAllOk(q, uids, visits, room);
    var r := FenceAll(q, uids, visits, room);
    forall k, t | k in q.pending && Stays(r, k, t) ensures !Ends(Fenced(uids, visits), k, t, q.pending[k]) {
      assert Attached(r.peers, r.pending[k]);
    }
  }

  lemma TickKeeps(q: State, now: nat, late: seq<nat>, room: Lanes)
    requires Inv(q) && Enabled(q, Ticked(now, late), room)
    ensures var r := FinishAll(q, late, room); Keeps(q, r, Ticked(now, late)) && Drops(q, r, Ticked(now, late)) && Less(q, r)
  {
    FinishAllOk(q, late, room);
  }

  lemma AskKeeps(q: State, p: Pending, order: seq<Target>, refused: set<Target>, room: Lanes)
    requires Inv(q) && Attached(q.peers, p)
    ensures var r := Ask(q, p, order, refused, room);
            && (forall k :: k in q.pending ==> k in r.pending && r.pending[k] == q.pending[k])
            && (forall k :: k in r.pending && k !in q.pending ==> k == q.nextId)
  {
    AskOk(q, p, order, refused, room);
    var q0 := Open(q, p);
    assert Loose(q0, q.peers, {q.nextId}) by { assert !Ended(q.said, q.nextId); }
    VisitOk(q0, q.nextId, order, refused, room);
  }

  /** Where an answer given in a step comes from: s is that answer, q the state before. */
  ghost predicate Stems(q: State, e: Event, s: Said) {
    && (|| (s.qid in q.pending && s.origin == q.pending[s.qid].origin)
        || (e.Asked? && s.qid == q.nextId && s.origin == e.p.origin))
    && (s.answer.Reply? ==>
          || (e == Replied(s.answer.via, s.qid) && Stays(q, s.qid, s.answer.via))
          || (e.Asked? && s.qid == q.nextId && s.answer.via.Via? && s.answer.via in e.p.targets && s.answer.via in e.refused))
  }

  lemma StepSays(q: State, e: Event, room: Lanes, i: nat)
    requires Inv(q) && Enabled(q, e, room) && |q.said| <= i < |Apply(q, e, room).said|
    ensures Stems(q, e, Apply(q, e, room).said[i])
  {
    match e
    case TakeId =>
    case Joined(u) =>
    case Left(u, visit) => CloseSays(q, u, visit, room);
    case Asked(p, order, refused) => AskSays(q, p, order, refused, room);
    case Replied(t, qid) =>
    case Done(t, qid) => TargetDoneSays(q, qid, t, room);
    case Ticked(now, late) => FinishAllSays(q, late, room);
    case Fenced(uids, visits) => FenceSays(q, uids, visits, room);
  }

  /** What a question makes of itself. */
  ghost predicate Starts(q: State, r: State, e: Event) {
    e.Asked? ==>
      && (q.nextId in r.pending ==> SameAsk(r.pending[q.nextId], e.p))
      && (forall t :: Stays(r, q.nextId, t) <==> t in e.p.targets && t !in e.refused)
  }

  ghost predicate Says(q: State, r: State, e: Event) {
    q.said <= r.said && forall i :: |q.said| <= i < |r.said| ==> Stems(q, e, r.said[i])
  }

  /** All that one step is seen to do. */
  ghost predicate Moves(q: State, e: Event, r: State) {
    Keeps(q, r, e) && Drops(q, r, e) && Carries(q, r, e) && Starts(q, r, e) && Says(q, r, e)
  }

  lemma StepMoves(q: State, e: Event, room: Lanes)
    requires Inv(q) && Enabled(q, e, room)
    ensures Moves(q, e, Apply(q, e, room))
  {
    var r := Apply(q, e, room);
    StepKeeps(q, e, room);
    StepOk(q, e, room);
    if e.Asked? { AskSays(q, e.p, e.order, e.refused, room); }
    forall i | |q.said| <= i < |r.said| ensures Stems(q, e, r.said[i]) { StepSays(q, e, room, i); }
  }

  // ---------------------------------------------------------------- runs

  ghost predicate Course(es: seq<Event>, qs: seq<State>) {
    |qs| == |es| + 1 && qs[0] == Start && forall n :: 0 <= n < |es| ==> Moves(qs[n], es[n], qs[n + 1])
  }

  lemma RunIsCourse(es: seq<Event>, rooms: seq<Lanes>, qs: seq<State>)
    requires IsRun(es, rooms, qs)
    ensures Course(es, qs)
  {
    forall n | 0 <= n < |es| ensures Moves(qs[n], es[n], qs[n + 1]) {
      RunOk(es, rooms, qs, n);
      StepMoves(qs[n], es[n], rooms[n]);
    }
  }

  /** The j-th event asks query qid. */
  ghost predicate AskedAt(es: seq<Event>, qs: seq<State>, j: nat, qid: nat) {
    j < |es| && j < |qs| && es[j].Asked? && qs[j].nextId == qid
  }

  /** Before the n-th event: query qid was asked by the j-th, t took it, and nothing ended its part since. */
  ghost predicate Awaited(es: seq<Event>, qs: seq<State>, j: nat, n: nat, qid: nat, t: Target) {
    && j < n <= |es| && AskedAt(es, qs, j, qid)
    && t in es[j].p.targets && t !in es[j].refused
    && forall m :: j < m < n ==> !Ends(es[m], qid, t, es[j].p)
  }

  lemma {:induction false} AwaitedStays(es: seq<Event>, qs: seq<State>, j: nat, n: nat, qid: nat, t: Target)
    requires Course(es, qs) && Awaited(es, qs, j, n, qid, t)
    ensures Stays(qs[n], qid, t) && SameAsk(qs[n].pending[qid], es[j].p)
    decreases n
  {
    assert Moves(qs[n - 1], es[n - 1], qs[n]);
    if n > j + 1 { AwaitedStays(es, qs, j, n - 1, qid, t); }
  }

  lemma {:induction false} PendingTraced(es: seq<Event>, qs: seq<State>, n: nat, qid: nat) returns (j: nat)
    requires Course(es, qs) && n <= |es| && qid in qs[n].pending
    ensures j < n && AskedAt(es, qs, j, qid) && SameAsk(qs[n].pending[qid], es[j].p)
    ensures forall t :: Stays(qs[n], qid, t) ==> Awaited(es, qs, j, n, qid, t)
    decreases n
  {
    assert n > 0;
    assert Moves(qs[n - 1], es[n - 1], qs[n]);
    if qid in qs[n - 1].pending {
      j := PendingTraced(es, qs, n - 1, qid);
      forall t | Stays(qs[n], qid, t) ensures Awaited(es, qs, j, n, qid, t) {
        assert Stays(qs[n - 1], qid, t);
        assert Awaited(es, qs, j, n - 1, qid, t);
      }
    } else {
      j := n - 1;
    }
  }

  /** MAIN: in every run, a target is still expected to answer a query if and only if it was asked,
      took the query, and since then neither finished nor lost its session, the asker's session
      is there, and no tick found the deadline passed. */
  lemma AwaitedExactly(es: seq<Event>, rooms: seq<Lanes>, qs: seq<State>, n: nat, qid: nat, t: Target)
    requires IsRun(es, rooms, qs) && n <= |es|
    ensures (qid in qs[n].pending && t in qs[n].pending[qid].targets) <==> exists j: nat :: Awaited(es, qs, j, n, qid, t)
  {
    RunIsCourse(es, rooms, qs);
    if Stays(qs[n], qid, t) {
      var j := PendingTraced(es, qs, n, qid);
      assert Awaited(es, qs, j, n, qid, t);
    }
    if j :| Awaited(es, qs, j, n, qid, t) { AwaitedStays(es, qs, j, n, qid, t); }
  }

  /** The step n in which the i-th answer before event m was given. */
  lemma {:induction false} SaidIn(es: seq<Event>, qs: seq<State>, m: nat, i: nat) returns (n: nat)
    requires Course(es, qs) && m <= |es| && i < |qs[m].said|
    ensures n < m && |qs[n].said| <= i < |qs[n + 1].said|
    ensures Stems(qs[n], es[n], qs[m].said[i])
  {
    assert m > 0;
    assert Moves(qs[m - 1], es[m - 1], qs[m]);
    if i < |qs[m - 1].said| { n := SaidIn(es, qs, m - 1, i); } else { n := m - 1; }
  }

  /** MAIN: every reply an asker got in a run was sent by a target that was asked that very query
      and whose part had not ended, or stands for a peer that could not be asked. */
  lemma RepliesAreAwaited(es: seq<Event>, rooms: seq<Lanes>, qs: seq<State>, i: nat) returns (j: nat, n: nat)
    requires IsRun(es, rooms, qs) && i < |qs[|es|].said| && qs[|es|].said[i].answer.Reply?
    ensures j <= n < |es| && |qs[n].said| <= i < |qs[n + 1].said|
    ensures var s := qs[|es|].said[i];
            var t := s.answer.via;
            && AskedAt(es, qs, j, s.qid) && s.origin == es[j].p.origin && t in es[j].p.targets
            && if n == j then t.Via? && t in es[j].refused
               else es[n] == Replied(t, s.qid) && Awaited(es, qs, j, n, s.qid, t)
  {
    RunIsCourse(es, rooms, qs);
    n := SaidIn(es, qs, |es|, i);
    RunOk(es, rooms, qs, n);
    if es[n].Asked? {
      j := n;
    } else {
      var s := qs[|es|].said[i];
      j := PendingTraced(es, qs, n, s.qid);
      assert Stays(qs[n], s.qid, s.answer.via);
    }
  }

  lemma ReplyStep(q: State, t: Target, qid: nat, room: Lanes)
    requires Inv(q)
    ensures var r := Apply(q, Replied(t, qid), room);
            if Stays(q, qid, t)
            then r.pending == q.pending && |r.said| == |q.said| + 1 && q.said <= r.said
                 && r.said[|q.said|].qid == qid && r.said[|q.said|].origin == q.pending[qid].origin
                 && r.said[|q.said|].answer == Reply(t)
            else r == q
  {
  }

  /** MAIN: and every reply of such a target is passed on to the asker of that query; any other
      reply changes nothing. */
  lemma AwaitedRepliesPass(es: seq<Event>, rooms: seq<Lanes>, qs: seq<State>, n: nat, qid: nat, t: Target)
    requires IsRun(es, rooms, qs) && n < |es| && es[n] == Replied(t, qid)
    ensures (forall j: nat :: !Awaited(es, qs, j, n, qid, t)) ==> qs[n + 1] == qs[n]
    ensures forall j: nat :: Awaited(es, qs, j, n, qid, t) ==>
                          && qs[n].said <= qs[n + 1].said && |qs[n + 1].said| == |qs[n].said| + 1
                          && qs[n + 1].pending == qs[n].pending
                          && qs[n + 1].said[|qs[n].said|].qid == qid && qs[n + 1].said[|qs[n].said|].answer == Reply(t)
                          && qs[n + 1].said[|qs[n].said|].origin == es[j].p.origin
  {
    RunIsCourse(es, rooms, qs);
    RunOk(es, rooms, qs, n);
    AwaitedExactly(es, rooms, qs, n, qid, t);
    ReplyStep(qs[n], t, qid, rooms[n]);
    forall j: nat | Awaited(es, qs, j, n, qid, t) ensures Stays(qs[n], qid, t) && qs[n].pending[qid].origin == es[j].p.origin {
      AwaitedStays(es, qs, j, n, qid, t);
    }
  }

  /** A late query that a fenced tick leaves: asked here, of a queryable here, which is slow. The tick would
      have ended it had it not been fenced. */
  lemma FenceSparesLate(handle: nat, id: nat, deadline: nat, now: nat, rooms: seq<Lanes>)
    requires deadline <= now && |rooms| == 2
    ensures var p := Pending(Caller(handle), {Own(id)}, deadline);
            var es := [Asked(p, [Own(id)], {}), Fenced([], [])];
            var q := Apply(Start, es[0], rooms[0]);
            && IsRun(es, rooms, [Start, q, q])
            && q.pending == map[1 := p] && q.said == []
            && IsLate(q, now, [1]) && Ended(FinishAll(q, [1], rooms[1]).said, 1)
  {
    var p := Pending(Caller(handle), {Own(id)}, deadline);
    var (q0, q) := (Open(Start, p), Ask(Start, p, [Own(id)], {}, rooms[0]));
    assert [Own(id)][1..] == [];
    assert Visit(q0, 1, [Own(id)], {}, rooms[0]) == Visit(q0, 1, [], {}, rooms[0]) == q0;
    assert q == q0 && q0.pending == map[1 := p];
    LoneTick(q, p, rooms[1]);
  }

  lemma LoneTick(q: State, p: Pending, room: Lanes)
    requires q.pending == map[1 := p] && p.origin.Caller?
    ensures Ended(FinishAll(q, [1], room).said, 1)
  {
    var r := Finish(q, 1, room);
    assert r.said[|q.said|] == Said(1, p.origin, Final, true);
    assert [1][1..] == [];
    assert FinishAll(q, [1], room) == FinishAll(r, [], room) == r;
  }

  // ---------------------------------------------------------------- askers

  /** No two queries of the run come from the same asker under the same id. */
  ghost predicate AskersDiffer(es: seq<Event>) {
    forall i, j :: 0 <= i < j < |es| && es[i].Asked? && es[j].Asked? ==> es[i].p.origin != es[j].p.origin
  }

  lemma AnswerTraced(es: seq<Event>, qs: seq<State>, i: nat) returns (j: nat)
    requires Course(es, qs) && i < |qs[|es|].said|
    ensures var s := qs[|es|].said[i]; AskedAt(es, qs, j, s.qid) && s.origin == es[j].p.origin
  {
    var n := SaidIn(es, qs, |es|, i);
    var s := qs[|es|].said[i];
    if s.qid in qs[n].pending && s.origin == qs[n].pending[s.qid].origin { j := PendingTraced(es, qs, n, s.qid); } else { j := n; }
  }

  /** MAIN: askers that use an id once are told nothing after a final answer. */
  lemma NothingAfterFinal(es: seq<Event>, rooms: seq<Lanes>, qs: seq<State>, a: nat, b: nat)
    requires IsRun(es, rooms, qs) && AskersDiffer(es) && a < b < |qs[|es|].said|
    requires qs[|es|].said[a].origin == qs[|es|].said[b].origin
    ensures qs[|es|].said[a].answer != Final
  {
    RunIsCourse(es, rooms, qs);
    var i := AnswerTraced(es, qs, a);
    var j := AnswerTraced(es, qs, b);
    QueriesAreFenced(es, rooms, qs);
  }

  // ---------------------------------------------------------------- what an asker is told at once

  /** The peers among the targets that could not be asked, in the order visited. */
  function Refusals(order: seq<Target>, refused: set<Target>): seq<Target> {
    if order == [] then [] else (if order[0].Via? && order[0] in refused then [order[0]] else []) + Refusals(order[1..], refused)
  }

  function Replies(ts: seq<Target>): seq<Answer> { if ts == [] then [] else [Reply(ts[0])] + Replies(ts[1..]) }

  ghost predicate AllTo(ss: seq<Said>, qid: nat, o: Origin, answers: seq<Answer>) {
    |ss| == |answers| && forall i :: 0 <= i < |ss| ==> ss[i].qid == qid && ss[i].origin == o && ss[i].answer == answers[i]
  }

  /** Between q and r asker o of query qid was told exactly these answers, and nobody else anything. */
  ghost predicate Told(q: State, r: State, qid: nat, o: Origin, answers: seq<Answer>) {
    q.said <= r.said && AllTo(r.said[|q.said|..], qid, o, answers)
  }

  lemma ToldThen(q: State, r: State, u: State, qid: nat, o: Origin, a: seq<Answer>, b: seq<Answer>)
    requires Told(q, r, qid, o, a) && Told(r, u, qid, o, b)
    ensures Told(q, u, qid, o, a + b)
  {
    var (x, y) := (r.said[|q.said|..], u.said[|r.said|..]);
    assert u.said[|q.said|..] == x + y;
  }

  /** One answer. */
  lemma SayTells(q: State, qid: nat, o: Origin, a: Answer, room: Lanes)
    requires Reachable(q, o)
    ensures Told(q, Say(q, qid, o, a, room), qid, o, [a])
  {
    var r := Say(q, qid, o, a, room);
    assert r.said[|q.said|..] == [r.said[|q.said|]];
  }

  /** Query qid of q is as p and its asker can be told. */
  ghost predicate Waits(q: State, qid: nat, p: Pending) { qid in q.pending && q.pending[qid] == p && Reachable(q, p.origin) }

  /** After some targets went, the query waits for those left, or has ended for want of any. */
  ghost predicate GoesOn(q: State, r: State, qid: nat, p: Pending, left: set<Target>, replies: seq<Answer>) {
    && r.peers == q.peers
    && if left == {} && p.targets != {} then qid !in r.pending && Told(q, r, qid, p.origin, replies + [Final])
       else Waits(r, qid, p.(targets := left)) && Told(q, r, qid, p.origin, replies)
  }

  lemma RefuseTells(q: State, qid: nat, p: Pending, t: Target, room: Lanes)
    requires Waits(q, qid, p) && t in p.targets
    ensures GoesOn(q, Refuse(q, qid, t, room), qid, p, p.targets - {t}, Replies(if t.Via? then [t] else []))
  {
    var q1 := if t.Via? then ForwardReply(q, qid, t, room) else q;
    var a := Replies(if t.Via? then [t] else []);
    if t.Via? {
      SayTells(q, qid, p.origin, Reply(t), room);
      assert Replies([t]) == [Reply(t)] by { assert [t][1..] == []; }
    }
    DoneTells(q1, qid, p, t, room);
    var r := TargetDone(q1, qid, t, room);
    if p.targets - {t} == {} {
      ToldThen(q, q1, r, qid, p.origin, a, [Final]);
    } else {
      ToldThen(q, q1, r, qid, p.origin, a, []);
      assert a + [] == a;
    }
  }

  lemma DoneTells(q: State, qid: nat, p: Pending, t: Target, room: Lanes)
    requires Waits(q, qid, p) && t in p.targets
    ensures var r := TargetDone(q, qid, t, room);
            && r.peers == q.peers
            && if p.targets - {t} == {} then qid !in r.pending && Told(q, r, qid, p.origin, [Final])
               else Waits(r, qid, p.(targets := p.targets - {t})) && Told(q, r, qid, p.origin, [])
  {
    var q1 := q.(pending := q.pending[qid := p.(targets := p.targets - {t})]);
    SayTells(q1.(pending := q1.pending - {qid}), qid, p.origin, Final, room);
  }

  lemma {:induction false} RepliesSplit(a: seq<Target>, b: seq<Target>)
    ensures Replies(a + b) == Replies(a) + Replies(b)
  {
    if a == [] {
      assert a + b == b;
    } else {
      assert (a + b)[0] == a[0] && (a + b)[1..] == a[1..] + b;
      RepliesSplit(a[1..], b);
    }
  }

  /** Those of ts that could not be asked. */
  ghost function Out(order: seq<Target>, refused: set<Target>): set<Target> { set t | t in order && t in refused }

  lemma {:induction false} VisitTells(q: State, qid: nat, p: Pending, order: seq<Target>, refused: set<Target>, room: Lanes)
    requires Waits(q, qid, p) && Distinct(order) && forall t :: t in order ==> t in p.targets
    ensures GoesOn(q, Visit(q, qid, order, refused, room), qid, p, p.targets - Out(order, refused), Replies(Refusals(order, refused)))
    decreases |order|, 0
  {
    if order == [] {
      assert p.targets - Out(order, refused) == p.targets;
      assert p.(targets := p.targets) == p;
    } else {
      var (t, rest) := (order[0], order[1..]);
      assert order == [t] + rest && t !in rest && Distinct(rest);
      assert Out(order, refused) == (if t in refused then {t} else {}) + Out(rest, refused);
      if t in refused {
        VisitRefused(q, qid, p, t, rest, refused, room);
      } else {
        VisitTells(q, qid, p, rest, refused, room);
        assert p.targets - Out(order, refused) == p.targets - Out(rest, refused);
        assert Refusals(order, refused) == Refusals(rest, refused);
      }
    }
  }

  lemma Nobody(order: seq<Target>, ts: set<Target>)
    requires forall t :: t in order ==> t in ts
    ensures ts == {} ==> order == []
  {
    if order != [] { assert order[0] in ts; }
  }

  lemma {:induction false} VisitRefused(q: State, qid: nat, p: Pending, t: Target, rest: seq<Target>, refused: set<Target>, room: Lanes)
    requires Waits(q, qid, p) && t in p.targets && t in refused && t !in rest && Distinct(rest)
    requires forall u :: u in rest ==> u in p.targets
    ensures GoesOn(q, Visit(Refuse(q, qid, t, room), qid, rest, refused, room), qid, p, p.targets - ({t} + Out(rest, refused)),
                 Replies((if t.Via? then [t] else []) + Refusals(rest, refused)))
    decreases |rest|, 1
  {
    var q1 := Refuse(q, qid, t, room);
    var (own, left) := (if t.Via? then [t] else [], p.targets - {t});
    RefuseTells(q, qid, p, t, room);
    RepliesSplit(own, Refusals(rest, refused));
    assert p.targets - ({t} + Out(rest, refused)) == left - Out(rest, refused);
    if left == {} {
      Nobody(rest, left);
      assert own + [] == own;
    } else {
      VisitTells(q1, qid, p.(targets := left), rest, refused, room);
      GoesOnThen(q, q1, Visit(q1, qid, rest, refused, room), qid, p, left, left - Out(rest, refused),
               Replies(own), Replies(Refusals(rest, refused)));
    }
  }

  lemma GoesOnThen(q: State, q1: State, r: State, qid: nat, p: Pending, left: set<Target>, last: set<Target>,
                 a: seq<Answer>, b: seq<Answer>)
    requires left != {} && last <= left && left <= p.targets
    requires GoesOn(q, q1, qid, p, left, a) && GoesOn(q1, r, qid, p.(targets := left), last, b)
    ensures GoesOn(q, r, qid, p, last, a + b)
  {
    if last == {} {
      ToldThen(q, q1, r, qid, p.origin, a, b + [Final]);
      assert a + (b + [Final]) == (a + b) + [Final];
    } else {
      ToldThen(q, q1, r, qid, p.origin, a, b);
    }
  }

  /** MAIN: in every run, an asker that can be told is told at once of every peer that could not be asked, one reply
      each in the order visited, and then, if and only if nobody is left to answer, that this was all; otherwise the
      query waits for exactly those who were asked. */
  lemma RefusalsAreTold(es: seq<Event>, rooms: seq<Lanes>, qs: seq<State>, n: nat)
    requires IsRun(es, rooms, qs) && n < |es| && es[n].Asked?
    ensures var (q, r, e) := (qs[n], qs[n + 1], es[n]);
            var (qid, replies) := (q.nextId, Replies(Refusals(e.order, e.refused)));
            if e.p.targets <= e.refused then qid !in r.pending && Told(q, r, qid, e.p.origin, replies + [Final])
            else && qid in r.pending && r.pending[qid] == e.p.(targets := e.p.targets - e.refused)
                 && Told(q, r, qid, e.p.origin, replies)
  {
    RunOk(es, rooms, qs, n);
    var (q, e) := (qs[n], es[n]);
    assert Enabled(q, e, rooms[n]) && qs[n + 1] == Apply(q, e, rooms[n]);
    AskTells(q, e.p, e.order, e.refused, rooms[n]);
  }

  lemma AskTells(q: State, p: Pending, order: seq<Target>, refused: set<Target>, room: Lanes)
    requires Attached(q.peers, p) && IsList(order, p.targets)
    ensures var (r, qid, replies) := (Ask(q, p, order, refused, room), q.nextId, Replies(Refusals(order, refused)));
            if p.targets <= refused then qid !in r.pending && Told(q, r, qid, p.origin, replies + [Final])
            else Waits(r, qid, p.(targets := p.targets - refused)) && Told(q, r, qid, p.origin, replies)
  {
    var (q0, qid) := (Open(q, p), q.nextId);
    VisitTells(q0, qid, p, order, refused, room);
    assert p.targets - Out(order, refused) == p.targets - refused;
    var (v, replies) := (Visit(q0, qid, order, refused, room), Replies(Refusals(order, refused)));
    if p.targets - refused == {} {
      forall t | t in p.targets ensures t in refused { assert t in p.targets - refused || t in refused; }
    }
    if p.targets == {} {
      Nobody(order, p.targets);
      assert Told(q0, Finish(v, qid, room), qid, p.origin, [] + [Final]);
    }
  }
}
