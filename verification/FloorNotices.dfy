/** Who is told what: the answer to every request, what a revoked speaker hears, and how a change of hands reaches
    every member. */
module FloorNotices {
  import opened Wrappers
  import opened FloorSpec
  import opened FloorSafety
  import opened FloorSteps
  import opened FloorLaws
  import FloorRuns

  // ---------------------------------------------------------------- notices of a fan-out

  /** Stages in which a client is told of Taken or Idle: not while it sends without permission, and a speaker is not
      told that the floor is idle. */
  predicate Hears(st: Option<P>, t: Mt) {
    st in {Some(P.NpIdle), Some(P.NpTaken), Some(P.Prevoke)} || (st == Some(P.Permitted) && t == Mt.Taken)
  }

  function Hearing(d: Desk, us: seq<User>, t: Mt): seq<User> {
    if us == [] then [] else (if Hears(PartOf(d, us[0]).st, t) then [us[0]] else []) + Hearing(d, us[1..], t)
  }

  /** One notice to each of `to`, in that order, of type t and naming a. */
  ghost predicate Notices(ns: seq<Out>, to: seq<User>, t: Mt, a: Option<User>) {
    |ns| == |to| && forall i :: 0 <= i < |ns| ==> ns[i].to == to[i] && ns[i].m.t == t && ns[i].m.a == a
  }

  lemma TellTold(d: Desk, u: User, ev: Msg)
    requires ev.t in {Mt.Taken, Mt.Idle}
    ensures var r := Tell(d, u, ev);
            if Hears(PartOf(d, u).st, ev.t)
            then |r.out| == |d.out| + 1 && d.out <= r.out && Notices(r.out[|d.out|..], [u], ev.t, ev.a) else r.out == d.out
    ensures forall x :: x != u ==> PartOf(Tell(d, u, ev), x) == PartOf(d, x)
  {
  }

  lemma {:induction false} HearingSame(d: Desk, c: Desk, us: seq<User>, t: Mt)
    requires forall u :: u in us ==> PartOf(d, u).st == PartOf(c, u).st
    ensures Hearing(d, us, t) == Hearing(c, us, t)
  {
    if us != [] {
      assert us[0] in us;
      HearingSame(d, c, us[1..], t);
    }
  }

  lemma NoticesJoin(ns: seq<Out>, to: seq<User>, ns2: seq<Out>, to2: seq<User>, t: Mt, a: Option<User>)
    requires Notices(ns, to, t, a) && Notices(ns2, to2, t, a)
    ensures Notices(ns + ns2, to + to2, t, a)
  {
  }

  lemma {:induction false} TellAllTold(d: Desk, us: seq<User>, ev: Msg)
    requires ev.t in {Mt.Taken, Mt.Idle} && forall i, j :: 0 <= i < j < |us| ==> us[i] != us[j]
    ensures d.out <= TellAll(d, us, ev).out
    ensures Notices(TellAll(d, us, ev).out[|d.out|..], Hearing(d, us, ev.t), ev.t, ev.a)
    decreases us
  {
    if us != [] {
      var d1 := Tell(d, us[0], ev);
      var r := TellAll(d1, us[1..], ev);
      TellTold(d, us[0], ev);
      TellAllTold(d1, us[1..], ev);
      HearingSame(d, d1, us[1..], ev.t) by {
        forall u | u in us[1..] ensures u != us[0] { }
      }
      if Hears(PartOf(d, us[0]).st, ev.t) {
        NoticesJoin(d1.out[|d.out|..], [us[0]], r.out[|d1.out|..], Hearing(d1, us[1..], ev.t), ev.t, ev.a);
        assert r.out[|d.out|..] == d1.out[|d.out|..] + r.out[|d1.out|..];
      }
    }
  }

  lemma FanTold(f: State, ev: Msg, skip: set<User>)
    requires ev.t in {Mt.Taken, Mt.Idle}
    ensures var r := Fan(f, ev, skip);
            f.d.out <= r.d.out
            && Notices(r.d.out[|f.d.out|..], Hearing(f.d, Ascending(f.members - skip), ev.t), ev.t, ev.a)
  {
    var (us, s) := (Ascending(f.members - skip), (f.d.seqNo + 1) % 65536);
    FanTells(f, ev, skip, us, s);
    AscendingLists(f.members - skip);
    TellAllTold(f.d.(seqNo := s), us, ev.(q := s));
    HearingSame(f.d.(seqNo := s), f.d, us, ev.t);
  }

  // ---------------------------------------------------------------- a change of hands

  /** What a new speaker is told. */
  function Grant(f: State, u: User, p: nat): seq<Out> {
    if Stage(f, u) in {Some(P.NpIdle), Some(P.NpTaken), Some(P.Permitted)} then [Out(u, Msg(Mt.Granted, None, p, f.t2Secs, 0))] else []
  }

  /** After `lead`, the new speaker is told that it speaks and everybody else who listens that it does. */
  ghost predicate TakenIsTold(f: State, r: State, lead: seq<Out>, u: User, p: nat) {
    var n := |lead + Grant(f, u, p)|;
    && n <= |r.d.out| && r.d.out[..n] == lead + Grant(f, u, p)
    && Notices(r.d.out[n..], Hearing(f.d, Ascending(f.members - {u}), Mt.Taken), Mt.Taken, Some(u))
  }

  ghost predicate IdleIsTold(f: State, r: State, lead: seq<Out>, last: Option<User>) {
    && |lead| <= |r.d.out| && r.d.out[..|lead|] == lead
    && Notices(r.d.out[|lead|..], Hearing(f.d, Ascending(f.members), Mt.Idle), Mt.Idle, last)
  }

  lemma EnterTakenTold(f: State, sp: User)
    requires f.speaker == Some(sp)
    ensures TakenIsTold(f, EnterTaken(f), f.d.out, sp, f.sprio)
  {
    var f1 := f.(idleBcast := false);
    var ev := NewMsg(Mt.Granted, None, f.sprio, f.t2Secs);
    var f2 := PartA(f1, sp, ev);
    assert f2.d.out == f.d.out + Grant(f, sp, f.sprio) && forall x :: x != sp ==> PartOf(f2.d, x) == PartOf(f.d, x);
    FanTold(f2, NewMsg(Mt.Taken, Some(sp), 0, 0), {sp});
    var us := Ascending(f.members - {sp});
    AscendingLists(f.members - {sp});
    HearingSame(f2.d, f.d, us, Mt.Taken);
  }

  ghost predicate HandoverTold(f: State, r: State, lead: seq<Out>, last: Option<User>) {
    if f.queue == [] then IdleIsTold(f, r, lead, last) else TakenIsTold(f, r, lead, f.queue[0].u, f.queue[0].p)
  }

  lemma IdleEnterTold(f: State)
    ensures HandoverTold(f, IdleEnter(f), f.d.out, f.prev)
  {
    if f.queue == [] {
      var f1 := f.(g := G.Idle, speaker := None, revoking := None, firstRtp := false, idleBcast := true, c7 := 1);
      FanTold(f1, NewMsg(Mt.Idle, f.prev, 0, 0), {});
      assert f1.members - {} == f1.members;
    } else {
      var w := f.queue[0];
      var f1 := f.(queue := f.queue[1..], g := G.Taken, speaker := Some(w.u), sprio := w.p, revoking := None,
                   succ := true, rtpSeen := false, firstRtp := false, c20 := 1);
      EnterTakenTold(f1, w.u);
      assert Grant(f1, w.u, w.p) == Grant(f, w.u, w.p);
    }
  }

  /** The same if the records differ in flags only. */
  lemma HandoverSame(f: State, f1: State, r: State, lead: seq<Out>, last: Option<User>)
    requires HandoverTold(f1, r, lead, last) && f1.queue == f.queue && f1.members == f.members && f1.t2Secs == f.t2Secs
    requires forall u :: PartOf(f.d, u).st == PartOf(f1.d, u).st
    ensures HandoverTold(f, r, lead, last)
  {
    if f.queue == [] {
      HearingSame(f.d, f1.d, Ascending(f.members), Mt.Idle);
    } else {
      HearingSame(f.d, f1.d, Ascending(f.members - {f.queue[0].u}), Mt.Taken);
    }
  }

  /** A release is acknowledged first. */
  function Lead(e: Event): seq<Out> { if e.OnRx? then [Out(e.u, Msg(Mt.Ack, None, ACK_OF_RELEASE, 0, 0))] else [] }

  /** Giving up after a change of flags, with `lead` said before. */
  lemma EnterTold(f: State, f1: State, p: Part, u: User, lead: seq<Out>)
    requires Fresh(f) && p.st == PartOf(f.d, u).st
    requires f1 == SetPart(f, u, p).(prev := Holder(f), d := f1.d) && f1.d == Write(f.d, u, p).(out := lead, seqNo := f1.d.seqNo)
    ensures HandoverTold(f, IdleEnter(f1), lead, Holder(f))
  {
    IdleEnterTold(f1);
    HandoverSame(f, f1, IdleEnter(f1), lead, Holder(f));
  }

  lemma SpeakerReleases(f: State, u: User, m: Msg, t2Left: nat)
    requires Fresh(f) && Holder(f) == Some(u) && m.t == Mt.Release
    ensures HandoverTold(f, PermittedC(f, u, m, t2Left), Lead(OnRx(u, m, true, t2Left)), Holder(f))
  {
    var p := PartOf(f.d, u).(released := true);
    var f1 := Send(SetPart(f, u, p), u, Mt.Ack, None, ACK_OF_RELEASE, 0).(prev := Some(u));
    assert PermittedC(f, u, m, t2Left) == IdleEnter(f1);
    EnterTold(f, f1, p, u, Lead(OnRx(u, m, true, t2Left)));
  }

  lemma RevokedReleases(f: State, u: User, m: Msg)
    requires Fresh(f) && Holder(f) == Some(u) && m.t == Mt.Release && u in f.d.parts
    ensures HandoverTold(f, PrevokeC(f, u, m), Lead(OnRx(u, m, true, 0)), Holder(f))
  {
    var p := PartOf(f.d, u);
    assert f.d.parts[u := p] == f.d.parts;
    var f1 := Send(f, u, Mt.Ack, None, ACK_OF_RELEASE, 0).(prev := Some(u));
    assert PrevokeC(f, u, m) == IdleEnter(f1);
    EnterTold(f, f1, p, u, Lead(OnRx(u, m, true, 0)));
  }

  lemma ReleaseTold(f: State, e: Event)
    requires Inv(f) && Fresh(f) && GivesUp(f, e) && e.OnRx?
    ensures HandoverTold(f, ServerRx(f, e.u, e.m, e.half, e.t2Left), Lead(e), Holder(f))
  {
    assert PartOk(f, e.u);
    if Stage(f, e.u) == Some(P.Permitted) {
      assert ServerRx(f, e.u, e.m, e.half, e.t2Left) == PermittedC(f, e.u, e.m, e.t2Left);
      SpeakerReleases(f, e.u, e.m, e.t2Left);
    } else {
      assert ServerRx(f, e.u, e.m, e.half, e.t2Left) == PrevokeC(f, e.u, e.m);
      RevokedReleases(f, e.u, e.m);
    }
  }

  lemma AwayTold(f: State, u: User)
    requires Fresh(f) && f.g == G.Taken && f.speaker == Some(u)
    ensures HandoverTold(f, PubAway(f, u), [], Holder(f)) && Leave(f, u).d.out == PubAway(f, u).d.out
  {
    var p := PartOf(f.d, u).(pubRoom := false);
    var f1 := SetPart(f, u, p).(prev := Holder(f));
    assert PubAway(f, u) == IdleEnter(f1);
    EnterTold(f, f1, p, u, []);
  }

  lemma ExpireTold(f: State)
    requires Fresh(f)
    ensures HandoverTold(f, IdleEnter(f.(prev := Holder(f))), [], Holder(f))
  {
    IdleEnterTold(f.(prev := Holder(f)));
    HandoverSame(f, f.(prev := Holder(f)), IdleEnter(f.(prev := Holder(f))), [], Holder(f));
  }

  lemma GiveUpTold(f: State, e: Event)
    requires Inv(f) && Fresh(f) && GivesUp(f, e) && Enabled(f, e)
    ensures HandoverTold(f, Apply(f, e), Lead(e), Holder(f))
  {
    assert f == f.(fx := [], d := f.d.(out := []));
    match e
    case OnRx(_, _, _, _) => ReleaseTold(f, e);
    case OnPubAway(u) => AwayTold(f, u);
    case OnLeave(u) => AwayTold(f, u);
    case OnJoin(u, perm) => ExpireTold(f);
    case Tick(t) => ExpireTold(f);
  }

  lemma TakeIdleTold(f: State, e: Event)
    requires Inv(f) && Fresh(f) && TakesIdle(f, e)
    ensures TakenIsTold(f, ServerRx(f, e.u, e.m, e.half, e.t2Left), [], e.u, e.m.n)
  {
    var f1 := f.(g := G.Taken, speaker := Some(e.u), sprio := e.m.n, succ := false,
                 rtpSeen := false, firstRtp := false, c20 := 0);
    assert ServerRx(f, e.u, e.m, e.half, e.t2Left) == EnterTaken(f1);
    EnterTakenTold(f1, e.u);
    assert Grant(f1, e.u, e.m.n) == Grant(f, e.u, e.m.n);
  }

  // ---------------------------------------------------------------- answers to requests

  ghost predicate Said(r: State, u: User, t: Mt, n: nat, x: nat) { r.d.out == [Out(u, Msg(t, None, n, x, 0))] }

  lemma {:induction false} PosIs(q: seq<Waiter>, u: User, i: nat)
    requires i < |q| && q[i].u == u && forall j :: 0 <= j < i ==> q[j].u != u
    ensures Pos(q, u) == i + 1 && QPrio(q, u) == q[i].p
  {
    if i > 0 {
      assert q[0].u != u;
      assert q[1..][i - 1] == q[i] && q[i] in q[1..];
      PosIs(q[1..], u, i - 1);
    }
  }

  /** The place of u in a queue of distinct users, counted from one. */
  lemma PlaceOf(q: seq<Waiter>, u: User) returns (i: nat)
    requires Ranked(q) && InQ(q, u)
    ensures i < |q| && q[i].u == u && Pos(q, u) == i + 1 && QPrio(q, u) == q[i].p
  {
    RankedPositions(q);
    i :| i < |q| && q[i].u == u;
    PosIs(q, u, i);
  }

  /** Answers on a taken floor to somebody who knows that it is taken. */
  ghost predicate TakenAnswer(f: State, r: State, u: User, p: nat) {
    if PartOf(f.d, u).retry then Said(r, u, Mt.Deny, DENY_RETRY_AFTER, 0)
    else if InQ(f.queue, u) then exists i :: 0 <= i < |f.queue| && f.queue[i].u == u && Said(r, u, Mt.Qinfo, i + 1, f.queue[i].p)
    else if p > HolderPrio(f) then
      if f.g == G.Taken then r.d.out == PutOut(f, REVOKE_PREEMPTED) + [Out(u, Msg(Mt.Qinfo, None, 1, p, 0))]
      else r.d.out == []
    else if |f.queue| >= f.qmax then Said(r, u, Mt.Deny, DENY_QUEUE_FULL, 0)
    else exists i :: 0 <= i < |r.queue| && r.queue[i] == Waiter(u, p, false) && Said(r, u, Mt.Qinfo, i + 1, p)
  }

  /** What a speaker that is put out is told; nothing if it was not told yet that it speaks. */
  function PutOut(f: State, cause: nat): seq<Out> {
    if f.speaker.Some? && Stage(f, f.speaker.value) == Some(P.Permitted)
    then [Out(f.speaker.value, Msg(Mt.Revoke, None, cause, 0, 0))] else []
  }

  lemma CompetesTold(f: State, u: User, p: nat)
    requires Inv(f) && Fresh(f) && f.g != G.Idle && Stage(f, u) == Some(P.NpTaken)
    requires !PartOf(f.d, u).retry && !InQ(f.queue, u) && p > HolderPrio(f)
    ensures TakenAnswer(f, TakenReq(f, u, p), u, p)
    ensures f.g != G.Taken ==> TakenReq(f, u, p) == f
  {
    if f.g == G.Taken {
      NobodyPreempts(f);
      assert TakenReq(f, u, p) == ArbPreempt(f, u, p);
      if f.speaker.value != u { PreemptMoves(f, u, p, f.speaker.value); }
    }
  }

  lemma WaitsTold(f: State, u: User, p: nat)
    requires Inv(f) && Fresh(f) && f.g != G.Idle && Stage(f, u) == Some(P.NpTaken)
    requires PartOf(f.d, u).retry || InQ(f.queue, u) || p <= HolderPrio(f)
    ensures TakenAnswer(f, TakenReq(f, u, p), u, p)
    ensures PartOf(f.d, u).retry || InQ(f.queue, u) || |f.queue| >= f.qmax ==>
              TakenReq(f, u, p) == f.(d := f.d.(out := TakenReq(f, u, p).d.out))
  {
    if PartOf(f.d, u).retry {
    } else if InQ(f.queue, u) {
      var i := PlaceOf(f.queue, u);
    } else if |f.queue| < f.qmax {
      LinedUp(f, u, p, TakenReq(f, u, p));
    }
  }

  lemma LinedUp(f: State, u: User, p: nat, r: State)
    requires Ranked(f.queue) && Fresh(f) && !InQ(f.queue, u) && r.queue == InsertQ(f.queue, Waiter(u, p, false))
    requires r.d == Say(f.d, u, Mt.Qinfo, None, Pos(r.queue, u), p)
    ensures exists i :: 0 <= i < |r.queue| && r.queue[i] == Waiter(u, p, false) && Said(r, u, Mt.Qinfo, i + 1, p)
  {
    var w := Waiter(u, p, false);
    InsertRanked(f.queue, w);
    InsertMembers(f.queue, w);
    var i := PlaceOf(r.queue, u);
    RankedPositions(r.queue);
    assert w in r.queue;
    assert r.queue[i] == w;
  }

  /** The answer to a request. */
  ghost predicate Answered(f: State, r: State, e: Event)
    requires e.OnRx?
  {
    var p := PartOf(f.d, e.u);
    if e.u !in f.members then Said(r, e.u, Mt.Deny, DENY_OTHER, 0)
    else if !e.half then Said(r, e.u, Mt.Deny, DENY_RECV_ONLY, 0)
    else if !p.pubRoom then Said(r, e.u, Mt.Deny, DENY_NOT_PUBROOM, 0)
    else if !p.perm then Said(r, e.u, Mt.Deny, DENY_NO_PERMISSION, 0)
    else if p.st == Some(P.NpIdle) then
      if |f.members| <= 1 then Said(r, e.u, Mt.Deny, DENY_ONLY_ONE, 0)
      else if p.retry then Said(r, e.u, Mt.Deny, DENY_RETRY_AFTER, 0)
      else TakenIsTold(f, r, [], e.u, e.m.n)
    else if p.st == Some(P.NpTaken) then TakenAnswer(f, r, e.u, e.m.n)
    else if p.st == Some(P.Permitted) then Said(r, e.u, Mt.Granted, f.sprio, if f.firstRtp then e.t2Left else f.t2Secs)
    else r.d.out == []
  }

  /** Nothing happened but what was said. */
  ghost predicate OnlySaid(f: State, r: State) { r == f.(fx := [], d := f.d.(out := r.d.out)) }

  lemma TakenAnswered(f: State, e: Event)
    requires Inv(f) && Fresh(f) && f.g != G.Idle && Asks(f, e) && Stage(f, e.u) == Some(P.NpTaken)
    ensures var r := TakenReq(f, e.u, e.m.n);
            TakenAnswer(f, r, e.u, e.m.n) && (!Preempts(f, e) && !Enqueues(f, e) ==> OnlySaid(f, r))
  {
    if PartOf(f.d, e.u).retry || InQ(f.queue, e.u) || e.m.n <= HolderPrio(f) {
      WaitsTold(f, e.u, e.m.n);
    } else {
      CompetesTold(f, e.u, e.m.n);
    }
  }

  lemma IdleRefused(f: State, u: User, p: nat)
    requires Fresh(f) && f.g == G.Idle && (|f.members| <= 1 || PartOf(f.d, u).retry)
    ensures var r := ArbReqIdle(f, u, p);
            OnlySaid(f, r) && Said(r, u, Mt.Deny, if |f.members| <= 1 then DENY_ONLY_ONE else DENY_RETRY_AFTER, 0)
  {
  }

  lemma AskAnswered(f: State, e: Event)
    requires Inv(f) && Fresh(f) && Asks(f, e)
    ensures var r := PartC(f, e.u, e.m, e.t2Left);
            Answered(f, r, e) && (!TakesIdle(f, e) && !Preempts(f, e) && !Enqueues(f, e) ==> OnlySaid(f, r))
  {
    var u := e.u;
    assert PartOk(f, u);
    if TakesIdle(f, e) {
      TakeIdleTold(f, e);
      assert ServerRx(f, u, e.m, e.half, e.t2Left) == PartC(f, u, e.m, e.t2Left);
    } else if Stage(f, u) == Some(P.NpIdle) {
      assert PartC(f, u, e.m, e.t2Left) == ArbReqIdle(f, u, e.m.n);
      IdleRefused(f, u, e.m.n);
    } else if Stage(f, u) == Some(P.NpTaken) {
      assert PartC(f, u, e.m, e.t2Left) == TakenReq(f, u, e.m.n);
      TakenAnswered(f, e);
    } else {
      assert PartC(f, u, e.m, e.t2Left) == (if Stage(f, u) == Some(P.Permitted) then ArbReqPermitted(f, u, e.t2Left) else f);
    }
  }

  lemma RequestAnswered(f: State, e: Event)
    requires Inv(f) && Fresh(f) && e.OnRx? && e.m.t == Mt.Request
    ensures var r := ServerRx(f, e.u, e.m, e.half, e.t2Left);
            Answered(f, r, e) && (!TakesIdle(f, e) && !Preempts(f, e) && !Enqueues(f, e) ==> OnlySaid(f, r))
  {
    if Asks(f, e) {
      assert ServerRx(f, e.u, e.m, e.half, e.t2Left) == PartC(f, e.u, e.m, e.t2Left);
      AskAnswered(f, e);
    }
  }

  // ---------------------------------------------------------------- runs

  function Clean(f: State): State { f.(fx := [], d := f.d.(out := [])) }

  lemma CleanInv(f: State, e: Event)
    requires Inv(f)
    ensures Inv(Clean(f)) && Fresh(Clean(f)) && Apply(f, e) == Apply(Clean(f), e)
    ensures forall u :: PartOf(Clean(f).d, u) == PartOf(f.d, u)
  {
    forall x ensures PartOk(Clean(f), x) { assert PartOk(f, x); }
    SameStart(f, Clean(f), e);
  }

  lemma Reaches(qmax: nat, t2Secs: nat, es: seq<Event>)
    requires IsRun(Init(qmax, t2Secs), es)
    ensures Inv(Run(Init(qmax, t2Secs), es))
  {
    FloorRuns.InitInv(qmax, t2Secs);
    FloorRuns.RunInv(Init(qmax, t2Secs), es);
  }

  lemma HearingClean(f: State, us: seq<User>, t: Mt)
    ensures Hearing(Clean(f).d, us, t) == Hearing(f.d, us, t)
  {
    HearingSame(Clean(f).d, f.d, us, t);
  }

  lemma AnsweredClean(f: State, r: State, e: Event)
    requires e.OnRx? && Answered(Clean(f), r, e)
    ensures Answered(f, r, e)
  {
    assert PartOf(Clean(f).d, e.u) == PartOf(f.d, e.u);
    if f.speaker.Some? { assert PartOf(Clean(f).d, f.speaker.value) == PartOf(f.d, f.speaker.value); }
    HearingClean(f, Ascending(f.members - {e.u}), Mt.Taken);
  }

  /** MAIN: every request is answered as the rules say, in their order: who may not ask is told why, even if the
      floor is idle; who may is granted the idle floor, told its place, put in line, or put in the speaker's place;
      and unless it is granted the floor or waits from now on, nothing but the answer happens. */
  lemma RequestsAreAnswered(qmax: nat, t2Secs: nat, es: seq<Event>, e: Event)
    requires IsRun(Init(qmax, t2Secs), es) && e.OnRx? && e.m.t == Mt.Request
    ensures var f := Run(Init(qmax, t2Secs), es);
            var r := Apply(f, e);
            Answered(f, r, e) && (!TakesIdle(f, e) && !Preempts(f, e) && !Enqueues(f, e) ==> OnlySaid(f, r))
  {
    var f := Run(Init(qmax, t2Secs), es);
    Reaches(qmax, t2Secs, es);
    CleanInv(f, e);
    RequestAnswered(Clean(f), e);
    assert Apply(f, e) == ServerRx(Clean(f), e.u, e.m, e.half, e.t2Left);
    AnsweredClean(f, Apply(f, e), e);
  }

  /** MAIN: preemption. On every run, an entitled request at a higher priority than the speaker's, from somebody who
      does not wait yet, puts the speaker out: it is told so with the cause, the group is revoking it, and the
      requester stands at the head of the queue and is told so. */
  lemma PreemptionRevokes(qmax: nat, t2Secs: nat, es: seq<Event>, u: User, m: Msg, t2Left: nat)
    requires IsRun(Init(qmax, t2Secs), es) && m.t == Mt.Request
    requires var f := Run(Init(qmax, t2Secs), es);
             var p := PartOf(f.d, u);
             && f.g == G.Taken && u in f.members && p.pubRoom && p.perm && p.st == Some(P.NpTaken) && !p.retry
             && !InQ(f.queue, u) && m.n > f.sprio
    ensures var f := Run(Init(qmax, t2Secs), es);
            var r := Apply(f, OnRx(u, m, true, t2Left));
            && f.speaker.Some? && r.g == G.Prevoke && r.revoking == f.speaker && r.speaker == None && r.fx == []
            && r.rcauseG == 4 && r.rprio == f.sprio && r.queue == [Waiter(u, m.n, true)] + f.queue
            && (PartOf(f.d, f.speaker.value).st == Some(P.Permitted) ==>
                  r.d.out == [Out(f.speaker.value, Msg(Mt.Revoke, None, 4, 0, 0)), Out(u, Msg(Mt.Qinfo, None, 1, m.n, 0))])
            && (PartOf(f.d, f.speaker.value).st != Some(P.Permitted) ==> r.d.out == [Out(u, Msg(Mt.Qinfo, None, 1, m.n, 0))])
  {
    var f := Run(Init(qmax, t2Secs), es);
    var e := OnRx(u, m, true, t2Left);
    Reaches(qmax, t2Secs, es);
    assert Preempts(f, e);
    CleanMoves(f, e);
    RequestsAreAnswered(qmax, t2Secs, es, e);
    assert TakenAnswer(f, Apply(f, e), u, m.n);
  }

  /** MAIN: a preempting waiter and a speaker that nobody revokes never stand side by side. */
  lemma PreemptingOnlyUntilRevoked(qmax: nat, t2Secs: nat, es: seq<Event>)
    requires IsRun(Init(qmax, t2Secs), es)
    ensures var f := Run(Init(qmax, t2Secs), es);
            (exists w :: w in f.queue && w.pre) ==> f.g == G.Prevoke && f.revoking.Some? && f.speaker.None?
  {
    Reaches(qmax, t2Secs, es);
    var f := Run(Init(qmax, t2Secs), es);
    if f.g == G.Taken { NobodyPreempts(f); }
  }

  lemma PrevokeTold(f: State, sp: User, cause: nat)
    requires f.speaker == Some(sp) && Fresh(f)
    ensures PrevokeEnter(f, sp, cause).d.out == PutOut(f, cause)
  {
  }

  lemma RevocationTold(f: State, e: Event)
    requires Inv(f) && Fresh(f) && Revokes(f, e) && !Preempts(f, e)
    ensures Apply(f, e).d.out == PutOut(f, Cause(f, e))
  {
    assert f == f.(fx := [], d := f.d.(out := []));
    var sp := f.speaker.value;
    if LosesRight(f, e) {
      var f1 := SetPart(f, sp, PartOf(f.d, sp).(perm := false));
      assert Apply(f, e) == PrevokeEnter(f1, sp, REVOKE_NO_PERMISSION);
      PrevokeTold(f1, sp, REVOKE_NO_PERMISSION);
    } else {
      var f1 := SetPart(f, sp, PartOf(f.d, sp).(retry := true));
      assert Apply(f, e) == PrevokeEnter(f1, sp, REVOKE_TOO_LONG);
      PrevokeTold(f1, sp, REVOKE_TOO_LONG);
    }
  }

  ghost predicate ChangeTold(f: State, r: State, e: Event) {
    if GivesUp(f, e) then HandoverTold(f, r, Lead(e), Holder(f))
    else if TakesIdle(f, e) then TakenIsTold(f, r, [], e.u, e.m.n)
    else Revokes(f, e) && !Preempts(f, e) ==> r.d.out == PutOut(f, Cause(f, e))
  }

  lemma ChangeToldClean(f: State, r: State, e: Event)
    requires ChangeTold(Clean(f), r, e)
    ensures ChangeTold(f, r, e)
  {
    var c := Clean(f);
    assert forall u :: PartOf(c.d, u) == PartOf(f.d, u);
    HearingClean(f, Ascending(f.members), Mt.Idle);
    if f.queue != [] { HearingClean(f, Ascending(f.members - {f.queue[0].u}), Mt.Taken); }
    if TakesIdle(f, e) { HearingClean(f, Ascending(f.members - {e.u}), Mt.Taken); }
  }

  /** MAIN: every change of hands is told, on every run: a release is acknowledged first, the new speaker is granted
      the floor at its priority, and every other member who listens gets one Taken naming the new speaker, or one
      Idle naming the last one, in the order of the member set; a speaker put out is told the cause. */
  lemma ChangesAreTold(qmax: nat, t2Secs: nat, es: seq<Event>, e: Event)
    requires IsRun(Init(qmax, t2Secs), es) && Enabled(Run(Init(qmax, t2Secs), es), e)
    ensures ChangeTold(Run(Init(qmax, t2Secs), es), Apply(Run(Init(qmax, t2Secs), es), e), e)
  {
    var f := Run(Init(qmax, t2Secs), es);
    Reaches(qmax, t2Secs, es);
    CleanInv(f, e);
    var c := Clean(f);
    if GivesUp(c, e) {
      GiveUpTold(c, e);
    } else if TakesIdle(c, e) {
      TakeIdleTold(c, e);
    } else if Revokes(c, e) && !Preempts(c, e) {
      RevocationTold(c, e);
    }
    ChangeToldClean(f, Apply(f, e), e);
  }

  // ---------------------------------------------------------------- everything else

  /** One notice, whatever its number. */
  ghost predicate Noticed(r: State, lead: seq<Out>, u: User, t: Mt, a: Option<User>) {
    |r.d.out| == |lead| + 1 && lead <= r.d.out && Notices(r.d.out[|lead|..], [u], t, a)
  }

  function Acked(u: User): seq<Out> { [Out(u, Msg(Mt.Ack, None, ACK_OF_RELEASE, 0, 0))] }

  /** A user that releases without holding the floor is told how the floor stands; media without permission is
      answered by a revocation; a question about the queue by the place in it. */
  ghost predicate ClientTold(f: State, r: State, u: User, t: Mt) {
    var st := Stage(f, u);
    if u !in f.members then r.d.out == []
    else if t == Mt.Release then
      if st == Some(P.NpSends) then Noticed(r, Acked(u), u, if f.g == G.Idle then Mt.Idle else Mt.Taken,
                                            if f.g == G.Idle then f.prev else Holder(f))
      else if st == Some(P.NpIdle) then Noticed(r, Acked(u), u, Mt.Idle, f.prev)
      else Noticed(r, Acked(u), u, Mt.Taken, Holder(f))
    else if t == Mt.Rtp && (st == Some(P.NpTaken) || (st == Some(P.NpIdle) && PartOf(f.d, u).released)) then
      Said(r, u, Mt.Revoke, REVOKE_NO_PERMISSION, 0) && Stage(r, u) == Some(P.NpSends)
    else if t == Mt.QposReq && st == Some(P.NpTaken) then
      if InQ(f.queue, u) then exists i :: 0 <= i < |f.queue| && f.queue[i].u == u && Said(r, u, Mt.Qinfo, i + 1, f.queue[i].p)
      else Said(r, u, Mt.Qinfo, 254, 0)
    else r.d.out == []
  }

  lemma {:induction false} NoPlace(q: seq<Waiter>, u: User)
    requires !InQ(q, u)
    ensures Pos(q, u) == 254 && QPrio(q, u) == 0
  {
    if q != [] {
      assert q[0] in q;
      assert !InQ(q[1..], u) by { assert forall w :: w in q[1..] ==> w in q; }
      NoPlace(q[1..], u);
    }
  }

  lemma SayNotices(f: State, lead: seq<Out>, u: User, t: Mt, a: Option<User>)
    requires f.d.out == lead && t in {Mt.Taken, Mt.Idle}
    ensures Noticed(Send(f, u, t, a, 0, 0), lead, u, t, a)
  {
  }

  lemma NpIdleTold(f: State, u: User, m: Msg)
    requires Fresh(f) && u in f.members && Stage(f, u) == Some(P.NpIdle) && m.t != Mt.Request
    ensures ClientTold(f, NpIdleC(f, u, m), u, m.t)
  {
    if m.t == Mt.Release {
      var f1 := Send(f, u, Mt.Ack, None, ACK_OF_RELEASE, 0).(queue := Dequeue(f.queue, u));
      SayNotices(f1, Acked(u), u, Mt.Idle, f.prev);
    }
  }

  lemma TakenReleaseTold(f: State, u: User, m: Msg)
    requires Fresh(f) && u in f.members && Stage(f, u) == Some(P.NpTaken) && m.t == Mt.Release
    ensures ClientTold(f, NpTakenC(f, u, m), u, m.t)
  {
    var f1 := Send(f, u, Mt.Ack, None, ACK_OF_RELEASE, 0);
    var f2 := SetPart(f1, u, PartOf(f.d, u).(c21 := 1)).(queue := Dequeue(f.queue, u));
    SayNotices(f2, Acked(u), u, Mt.Taken, Holder(f));
  }

  lemma NpTakenTold(f: State, u: User, m: Msg)
    requires Fresh(f) && Ranked(f.queue) && u in f.members && Stage(f, u) == Some(P.NpTaken) && m.t != Mt.Request
    ensures ClientTold(f, NpTakenC(f, u, m), u, m.t)
  {
    match m.t
    case Release => TakenReleaseTold(f, u, m);
    case QposReq =>
      if InQ(f.queue, u) { var i := PlaceOf(f.queue, u); } else { NoPlace(f.queue, u); }
      assert NpTakenC(f, u, m) == Send(f, u, Mt.Qinfo, None, Pos(f.queue, u), QPrio(f.queue, u));
    case Rtp => assert NpTakenC(f, u, m) == Revoke3(f, u);
    case _ =>
  }

  lemma NpSendsTold(f: State, u: User, m: Msg)
    requires Fresh(f) && Inv(f) && u in f.members && Stage(f, u) == Some(P.NpSends) && m.t != Mt.Request
    ensures ClientTold(f, NpSendsC(f, u, m), u, m.t)
  {
    assert PartOk(f, u);
    if m.t == Mt.Release {
      var f1 := Send(f, u, Mt.Ack, None, ACK_OF_RELEASE, 0);
      SettleTold(f1, u, P.NpTaken, Mt.Taken, Holder(f));
      SettleTold(f1, u, P.NpIdle, Mt.Idle, f.prev);
    }
  }

  lemma SettleTold(f: State, u: User, to: P, t: Mt, a: Option<User>)
    requires f.d.out == Acked(u) && t in {Mt.Taken, Mt.Idle}
    ensures Noticed(SendE(f, u, to, NewMsg(t, a, 0, 0)), Acked(u), u, t, a)
  {
    SayNotices(SetPart(f, u, Entered(PartOf(f.d, u), to)), Acked(u), u, t, a);
  }

  /** Messages other than requests, from anybody who does not give up the floor with them. */
  lemma ClientsTold(f: State, u: User, m: Msg, t2Left: nat)
    requires Fresh(f) && Inv(f) && u in f.members && m.t != Mt.Request && !GivesUp(f, OnRx(u, m, true, t2Left))
    ensures ClientTold(f, PartC(f, u, m, t2Left), u, m.t)
  {
    assert PartOk(f, u);
    match f.d.parts[u].st.value
    case NpIdle => NpIdleTold(f, u, m);
    case NpTaken => NpTakenTold(f, u, m);
    case Permitted => assert PartC(f, u, m, t2Left) == PermittedC(f, u, m, t2Left);
    case Prevoke => assert PartC(f, u, m, t2Left) == PrevokeC(f, u, m);
    case NpSends => NpSendsTold(f, u, m);
  }

  /** What the reminders say. */
  ghost predicate ReminderTold(f: State, r: State, t: Timer) {
    match t
    case T7 => IdleIsTold(f, r, [], f.prev)
    case T8(u) =>
      Said(r, u, Mt.Revoke, if Stage(f, u) == Some(P.Prevoke) then PartOf(f.d, u).rcause else REVOKE_NO_PERMISSION, 0)
    case T9(u) => r.d.out == []
    case T20 => r.d.out == if f.c20 < 3 && f.speaker.Some? then Grant(f, f.speaker.value, f.sprio) else []
    case T21(u) => if PartOf(f.d, u).c21 < 3 then Noticed(r, [], u, Mt.Taken, Holder(f)) else r.d.out == []
    case _ => true
  }

  lemma RemindersTold(f: State, t: Timer)
    requires Fresh(f) && Armed(f, t) && (f.g == G.Taken ==> f.speaker.Some?)
    ensures ReminderTold(f, Fire(f, t), t)
  {
    match t
    case T7 => T7Told(f);
    case T20 => T20Told(f);
    case T21(u) => T21Told(f, u);
    case T8(u) => assert Fire(f, t) == FireT8(f, u);
    case _ =>
  }

  lemma T7Told(f: State)
    requires Fresh(f)
    ensures IdleIsTold(f, FireT7(f), [], f.prev)
  {
    FanTold(f.(c7 := f.c7 + 1), NewMsg(Mt.Idle, f.prev, 0, 0), {});
    assert f.members - {} == f.members;
  }

  lemma T20Told(f: State)
    requires Fresh(f) && f.speaker.Some?
    ensures FireT20(f).d.out == if f.c20 < 3 then Grant(f, f.speaker.value, f.sprio) else []
  {
  }

  lemma T21Told(f: State, u: User)
    requires Fresh(f)
    ensures ReminderTold(f, FireT21(f, u), T21(u))
  {
    var f1 := SetPart(f, u, PartOf(f.d, u).(c21 := PartOf(f.d, u).c21 + 1));
    SayNotices(f1, [], u, Mt.Taken, Holder(f));
  }

  /** What is said in a step that neither moves the floor nor answers a request. */
  ghost predicate RestTold(f: State, r: State, e: Event) {
    match e
    case OnRx(u, m, _, _) => ClientTold(f, r, u, m.t)
    case OnRtp(u) => ClientTold(f, r, u, Mt.Rtp)
    case OnReady(u) =>
      if Holder(f) == Some(u) then r.d.out == []
      else if Holder(f).Some? then Noticed(r, [], u, Mt.Taken, Holder(f)) else Noticed(r, [], u, Mt.Idle, f.prev)
    case OnPermDown(u) => if InQ(f.queue, u) then Said(r, u, Mt.Deny, DENY_NO_PERMISSION, 0) else r.d.out == []
    case Tick(t) => ReminderTold(f, r, t)
    case _ => r.d.out == []
  }

  predicate MovesFloor(f: State, e: Event) { GivesUp(f, e) || TakesIdle(f, e) || Revokes(f, e) }

  lemma RxRestTold(f: State, u: User, m: Msg, half: bool, t2Left: nat)
    requires Fresh(f) && Inv(f) && m.t != Mt.Request && !MovesFloor(f, OnRx(u, m, half, t2Left))
    ensures ClientTold(f, ServerRx(f, u, m, half, t2Left), u, m.t)
  {
    if u in f.members {
      ClientsTold(f, u, m, t2Left);
      if m.t == Mt.Ack { AckTold(f, u, m, t2Left); }
    }
  }

  lemma AckTold(f: State, u: User, m: Msg, t2Left: nat)
    requires Fresh(f) && m.t == Mt.Ack
    ensures ClientTold(f, f, u, m.t)
  {
  }

  lemma PermDownTold(f: State, u: User)
    requires Fresh(f) && !LosesRight(f, OnPermDown(u))
    ensures RestTold(f, PermDown(f, u), OnPermDown(u))
  {
  }

  lemma ReadyTold(f: State, u: User)
    requires Fresh(f)
    ensures RestTold(f, Ready(f, u), OnReady(u))
  {
    if Holder(f).Some? { SayNotices(f, [], u, Mt.Taken, Holder(f)); } else { SayNotices(f, [], u, Mt.Idle, f.prev); }
  }

  lemma RestIsTold(f: State, e: Event)
    requires Fresh(f) && Inv(f) && Enabled(f, e) && !MovesFloor(f, e) && !(e.OnRx? && e.m.t == Mt.Request)
    ensures RestTold(f, Apply(f, e), e)
  {
    assert f == f.(fx := [], d := f.d.(out := []));
    match e
    case OnRx(u, m, half, t2Left) => RxRestTold(f, u, m, half, t2Left);
    case OnRtp(u) => RtpTold(f, u);
    case OnReady(u) => ReadyTold(f, u);
    case OnPermDown(u) => PermDownTold(f, u);
    case Tick(t) => RemindersTold(f, t);
    case _ => NothingTold(f, e);
  }

  lemma RtpTold(f: State, u: User)
    requires Fresh(f) && Inv(f)
    ensures ClientTold(f, RtpIn(f, u), u, Mt.Rtp)
  {
    if u in f.members { ClientsTold(f, u, NewMsg(Mt.Rtp, None, 0, 0), 0); }
  }

  lemma NothingTold(f: State, e: Event)
    requires Fresh(f) && f == f.(fx := [], d := f.d.(out := [])) && !GivesUp(f, e)
    requires e.OnPermUp? || e.OnPubSelect? || e.OnPubAway? || e.OnLeave? || e.OnJoin?
    ensures Apply(f, e).d.out == []
  {
    match e
    case OnJoin(u, perm) => assert Apply(f, e) == Joined(f, u, perm);
    case OnLeave(u) => GoneTold(f, u);
    case OnPubAway(u) => GoneTold(f, u);
    case OnPermUp(u) => assert Apply(f, e) == PermUp(f, u);
    case OnPubSelect(u) => assert Apply(f, e) == PubSelect(f, u);
  }

  lemma GoneTold(f: State, u: User)
    requires Fresh(f) && !(f.g == G.Taken && f.speaker == Some(u))
    ensures PubAway(f, u).d.out == [] && Leave(f, u).d.out == []
  {
  }

  lemma RestClean(f: State, r: State, e: Event)
    requires RestTold(Clean(f), r, e)
    ensures RestTold(f, r, e)
  {
    if !e.Tick? {
      assert PartOf(Clean(f).d, e.u) == PartOf(f.d, e.u);
    } else {
      RemindersClean(f, r, e.t);
    }
  }

  lemma RemindersClean(f: State, r: State, t: Timer)
    requires ReminderTold(Clean(f), r, t)
    ensures ReminderTold(f, r, t)
  {
    if t == T7 { HearingClean(f, Ascending(f.members), Mt.Idle); }
    if t.T8? || t.T21? { assert PartOf(Clean(f).d, t.u) == PartOf(f.d, t.u); }
    if f.speaker.Some? { assert PartOf(Clean(f).d, f.speaker.value) == PartOf(f.d, f.speaker.value); }
  }

  /** MAIN: what is said in every other step of every run, and that nothing else is. */
  lemma OthersAreTold(qmax: nat, t2Secs: nat, es: seq<Event>, e: Event)
    requires IsRun(Init(qmax, t2Secs), es) && Enabled(Run(Init(qmax, t2Secs), es), e)
    requires !MovesFloor(Run(Init(qmax, t2Secs), es), e) && !(e.OnRx? && e.m.t == Mt.Request)
    ensures RestTold(Run(Init(qmax, t2Secs), es), Apply(Run(Init(qmax, t2Secs), es), e), e)
  {
    var f := Run(Init(qmax, t2Secs), es);
    Reaches(qmax, t2Secs, es);
    CleanInv(f, e);
    MovesClean(f, e);
    RestIsTold(Clean(f), e);
    RestClean(f, Apply(f, e), e);
  }

  lemma MovesClean(f: State, e: Event)
    ensures MovesFloor(Clean(f), e) <==> MovesFloor(f, e)
    ensures Enabled(Clean(f), e) <==> Enabled(f, e)
  {
    if !e.Tick? { assert PartOf(Clean(f).d, e.u) == PartOf(f.d, e.u); }
  }
}
