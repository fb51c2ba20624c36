/** What each event does to the floor, said of every run and in terms that a caller can check before the event:
    when the floor changes hands, when a speaker is put out, and who waits. */
module FloorLaws {
  import opened Wrappers
  import opened FloorSpec
  import opened FloorSafety
  import opened FloorSteps
  import FloorRuns

  function Stage(f: State, u: User): Option<P> { PartOf(f.d, u).st }

  /** A request that is let through to arbitration: from a member that may send and publishes here. */
  predicate Asks(f: State, e: Event) {
    e.OnRx? && e.m.t == Mt.Request && e.u in f.members && e.half && PartOf(f.d, e.u).pubRoom && PartOf(f.d, e.u).perm
  }

  predicate TakesIdle(f: State, e: Event) {
    f.g == G.Idle && Asks(f, e) && Stage(f, e.u) == Some(P.NpIdle) && |f.members| > 1 && !PartOf(f.d, e.u).retry
  }

  /** A request of somebody who is not waiting yet and knows that the floor is taken. */
  predicate Competes(f: State, e: Event) {
    f.g != G.Idle && Asks(f, e) && Stage(f, e.u) == Some(P.NpTaken) && !PartOf(f.d, e.u).retry && !InQ(f.queue, e.u)
  }

  predicate Preempts(f: State, e: Event) { f.g == G.Taken && Competes(f, e) && e.m.n > f.sprio }

  predicate Enqueues(f: State, e: Event) { Competes(f, e) && e.m.n <= HolderPrio(f) && |f.queue| < f.qmax }

  predicate LosesRight(f: State, e: Event) { f.g == G.Taken && e.OnPermDown? && f.speaker == Some(e.u) }

  predicate Revokes(f: State, e: Event) { f.g == G.Taken && (Preempts(f, e) || LosesRight(f, e) || e == Tick(T2)) }

  function Cause(f: State, e: Event): nat {
    if Preempts(f, e) then REVOKE_PREEMPTED else if LosesRight(f, e) then REVOKE_NO_PERMISSION else REVOKE_TOO_LONG
  }

  /** The holder is done: it releases, goes away while speaking, comes anew while being revoked, or its time is over. */
  predicate GivesUp(f: State, e: Event) {
    f.g != G.Idle
    && match e
       case OnRx(u, m, _, _) => m.t == Mt.Release && Stage(f, u) in {Some(P.Permitted), Some(P.Prevoke)}
       case OnPubAway(u) => f.g == G.Taken && f.speaker == Some(u)
       case OnLeave(u) => f.g == G.Taken && f.speaker == Some(u)
       case OnJoin(u, _) => f.g == G.Prevoke && f.revoking == Some(u)
       case Tick(t) => t == T1 || t == T3
       case _ => false
  }

  /** A waiting user withdraws: it releases, loses its permission or goes away. */
  predicate Withdraws(f: State, e: Event) {
    match e
    case OnRx(u, m, _, _) => m.t == Mt.Release && Stage(f, u) == Some(P.NpTaken)
    case OnPermDown(u) => !(f.g == G.Taken && f.speaker == Some(u))
    case OnPubAway(u) => Holder(f) != Some(u)
    case OnLeave(u) => Holder(f) != Some(u)
    case _ => false
  }

  // ---------------------------------------------------------------- what the floor does

  /** The floor goes to the head of the queue, or idle if nobody waits. */
  ghost predicate Handed(f: State, r: State) {
    && r.revoking == None && r.prev == Holder(f)
    && if f.queue == [] then r.g == G.Idle && r.speaker == None && r.fx == [Fx.Release(Holder(f))] && r.queue == []
       else && r.g == G.Taken && r.speaker == Some(f.queue[0].u) && r.sprio == f.queue[0].p
            && r.fx == [Bind(f.queue[0].u)] && r.queue == f.queue[1..]
  }

  ghost predicate Given(f: State, r: State, u: User, p: nat) {
    r.g == G.Taken && r.speaker == Some(u) && r.sprio == p && r.revoking == None && r.fx == [Bind(u)] && r.queue == []
    && r.prev == f.prev
  }

  ghost predicate Revoked(f: State, r: State, cause: nat) {
    && r.g == G.Prevoke && r.revoking == f.speaker && r.speaker == None && r.rprio == f.sprio && r.rcauseG == cause
    && r.fx == [] && r.prev == f.prev
  }

  ghost predicate Stays(f: State, r: State) {
    && r.g == f.g && r.speaker == f.speaker && r.revoking == f.revoking && r.fx == [] && r.prev == f.prev
    && r.sprio == f.sprio && r.rprio == f.rprio
  }

  /** Who waits afterwards, unless the floor changes hands. */
  ghost predicate Waits(f: State, r: State, e: Event) {
    if Preempts(f, e) then r.queue == [Waiter(e.u, e.m.n, true)] + f.queue
    else if Enqueues(f, e) then forall w :: w in r.queue <==> w in f.queue || w == Waiter(e.u, e.m.n, false)
    else if Withdraws(f, e) then forall w :: w in r.queue <==> w in f.queue && w.u != e.u
    else r.queue == f.queue
  }

  ghost predicate Moves(f: State, r: State, e: Event) {
    if GivesUp(f, e) then Handed(f, r)
    else if TakesIdle(f, e) then Given(f, r, e.u, e.m.n)
    else Waits(f, r, e) && if Revokes(f, e) then Revoked(f, r, Cause(f, e)) else Stays(f, r)
  }

  // ---------------------------------------------------------------- step by step

  predicate Fresh(f: State) { f.fx == [] && f.d.out == [] }

  lemma IdleEnterHands(f: State, h: Option<User>)
    requires f.g != G.Idle && h == f.prev
    ensures var r := IdleEnter(f);
            && r.revoking == None && r.prev == h
            && if f.queue == [] then r.g == G.Idle && r.speaker == None && r.fx == f.fx + [Fx.Release(h)] && r.queue == []
               else && r.g == G.Taken && r.speaker == Some(f.queue[0].u) && r.sprio == f.queue[0].p
                    && r.fx == f.fx + [Bind(f.queue[0].u)] && r.queue == f.queue[1..]
  {
  }

  /** In a taken group nobody preempts already. */
  lemma NobodyPreempts(f: State)
    requires Inv(f) && f.g == G.Taken
    ensures !PreQ(f.queue)
  {
    RankedPositions(f.queue);
    forall w | w in f.queue ensures !w.pre {
      var i :| 0 <= i < |f.queue| && f.queue[i] == w;
    }
  }

  /** A preempting request: the speaker is told that it is put out, and the requester that it is next. */
  lemma PreemptMoves(f: State, u: User, p: nat, sp: User)
    requires f.g == G.Taken && f.speaker == Some(sp) && Fresh(f) && u != sp
    ensures var r := ArbPreempt(f, u, p);
            && Revoked(f, r, REVOKE_PREEMPTED) && r.queue == [Waiter(u, p, true)] + f.queue
            && r.d.out == (if Stage(f, sp) == Some(P.Permitted) then [Out(sp, Msg(Mt.Revoke, None, REVOKE_PREEMPTED, 0, 0))] else [])
                          + [Out(u, Msg(Mt.Qinfo, None, 1, p, 0))]
  {
  }

  lemma CompeteMoves(f: State, u: User, m: Msg, t2Left: nat)
    requires Inv(f) && Fresh(f) && Asks(f, OnRx(u, m, true, t2Left)) && Stage(f, u) == Some(P.NpTaken)
    ensures Moves(f, TakenReq(f, u, m.n), OnRx(u, m, true, t2Left))
  {
    var e := OnRx(u, m, true, t2Left);
    assert PartOk(f, u);
    if f.g == G.Taken { NobodyPreempts(f); }
    if Preempts(f, e) {
      assert TakenReq(f, u, m.n) == ArbPreempt(f, u, m.n);
      if f.speaker.value != u { PreemptMoves(f, u, m.n, f.speaker.value); } else { SelfPreempts(f, u, m.n); }
    } else {
      LineUp(f, u, m, t2Left);
    }
  }

  /** Even of the speaker itself, if it is not told yet that it speaks. */
  lemma SelfPreempts(f: State, u: User, p: nat)
    requires f.g == G.Taken && f.speaker == Some(u) && Fresh(f)
    ensures var r := ArbPreempt(f, u, p); Revoked(f, r, REVOKE_PREEMPTED) && r.queue == [Waiter(u, p, true)] + f.queue
  {
  }

  lemma LineUp(f: State, u: User, m: Msg, t2Left: nat)
    requires Fresh(f) && f.g != G.Idle && Asks(f, OnRx(u, m, true, t2Left)) && Stage(f, u) == Some(P.NpTaken)
    requires !Preempts(f, OnRx(u, m, true, t2Left)) && (f.g == G.Taken ==> !PreQ(f.queue))
    ensures var r := TakenReq(f, u, m.n); Stays(f, r) && Waits(f, r, OnRx(u, m, true, t2Left))
  {
    var e := OnRx(u, m, true, t2Left);
    if Enqueues(f, e) {
      InsertMembers(f.queue, Waiter(u, m.n, false));
      assert TakenReq(f, u, m.n).queue == InsertQ(f.queue, Waiter(u, m.n, false));
    } else {
      assert TakenReq(f, u, m.n).queue == f.queue;
    }
  }

  lemma RequestMoves(f: State, u: User, m: Msg, half: bool, t2Left: nat)
    requires Inv(f) && Fresh(f) && m.t == Mt.Request
    ensures Moves(f, ServerRx(f, u, m, half, t2Left), OnRx(u, m, half, t2Left))
  {
    assert PartOk(f, u);
    if Asks(f, OnRx(u, m, half, t2Left)) {
      assert ServerRx(f, u, m, half, t2Left) == PartC(f, u, m, t2Left);
      if Stage(f, u) == Some(P.NpTaken) { CompeteMoves(f, u, m, t2Left); } else { AskMoves(f, u, m, t2Left); }
    }
  }

  lemma AskMoves(f: State, u: User, m: Msg, t2Left: nat)
    requires Inv(f) && Fresh(f) && Asks(f, OnRx(u, m, true, t2Left)) && Stage(f, u) != Some(P.NpTaken)
    ensures Moves(f, PartC(f, u, m, t2Left), OnRx(u, m, true, t2Left))
  {
    assert PartOk(f, u);
    if Stage(f, u) == Some(P.NpIdle) {
      assert PartC(f, u, m, t2Left) == ArbReqIdle(f, u, m.n);
      IdleAnswers(f, u, m.n);
    } else {
      assert PartC(f, u, m, t2Left) == (if Stage(f, u) == Some(P.Permitted) then ArbReqPermitted(f, u, t2Left) else f);
    }
  }

  lemma IdleAnswers(f: State, u: User, p: nat)
    requires Fresh(f) && f.g == G.Idle && f.revoking == None && f.queue == []
    ensures var r := ArbReqIdle(f, u, p);
            if |f.members| > 1 && !PartOf(f.d, u).retry then Given(f, r, u, p) else Stays(f, r) && r.queue == f.queue
  {
  }

  lemma ReleaseMoves(f: State, u: User, m: Msg, half: bool, t2Left: nat)
    requires Inv(f) && Fresh(f) && m.t == Mt.Release
    ensures Moves(f, ServerRx(f, u, m, half, t2Left), OnRx(u, m, half, t2Left))
  {
    assert PartOk(f, u);
    if u in f.members {
      assert ServerRx(f, u, m, half, t2Left) == PartC(f, u, m, t2Left);
      match f.d.parts[u].st.value
      case NpIdle =>
      case NpTaken => TakenReleases(f, u, m);
      case Permitted => PermittedReleases(f, u, m, t2Left);
      case Prevoke => PrevokeReleases(f, u, m);
      case NpSends => SendsReleases(f, u, m);
    }
  }

  lemma TakenReleases(f: State, u: User, m: Msg)
    requires Fresh(f) && m.t == Mt.Release
    ensures var r := NpTakenC(f, u, m); Stays(f, r) && forall w :: w in r.queue <==> w in f.queue && w.u != u
  {
    DequeueMembers(f.queue, u);
  }

  lemma SendsReleases(f: State, u: User, m: Msg)
    requires Fresh(f)
    ensures Stays(f, NpSendsC(f, u, m)) && NpSendsC(f, u, m).queue == f.queue
  {
  }

  lemma PermittedReleases(f: State, u: User, m: Msg, t2Left: nat)
    requires Fresh(f) && f.g != G.Idle && Holder(f) == Some(u) && m.t == Mt.Release
    ensures Handed(f, PermittedC(f, u, m, t2Left))
  {
    var f1 := Send(SetPart(f, u, PartOf(f.d, u).(released := true)), u, Mt.Ack, None, ACK_OF_RELEASE, 0);
    IdleEnterHands(f1.(prev := Some(u)), Some(u));
  }

  lemma PrevokeReleases(f: State, u: User, m: Msg)
    requires Fresh(f) && f.g != G.Idle && Holder(f) == Some(u) && m.t == Mt.Release
    ensures Handed(f, PrevokeC(f, u, m))
  {
    var f1 := Send(f, u, Mt.Ack, None, ACK_OF_RELEASE, 0);
    IdleEnterHands(f1.(prev := Some(u)), Some(u));
  }

  lemma OtherRxMoves(f: State, u: User, m: Msg, half: bool, t2Left: nat)
    requires Inv(f) && Fresh(f) && m.t !in {Mt.Request, Mt.Release}
    ensures Moves(f, ServerRx(f, u, m, half, t2Left), OnRx(u, m, half, t2Left))
  {
    if u in f.members { SilentMoves(f, u, m, t2Left); }
  }

  /** Messages other than requests and releases leave the floor and the queue alone. */
  lemma SilentMoves(f: State, u: User, m: Msg, t2Left: nat)
    requires Inv(f) && Fresh(f) && m.t !in {Mt.Request, Mt.Release} && u in f.members
    ensures Stays(f, PartC(f, u, m, t2Left)) && PartC(f, u, m, t2Left).queue == f.queue
  {
    assert PartOk(f, u);
    match f.d.parts[u].st.value
    case NpIdle => NpIdleSilent(f, u, m);
    case NpTaken => NpTakenSilent(f, u, m);
    case Permitted =>
    case Prevoke =>
    case NpSends => SendsReleases(f, u, m);
  }

  lemma NpIdleSilent(f: State, u: User, m: Msg)
    requires Fresh(f) && m.t !in {Mt.Request, Mt.Release}
    ensures Stays(f, NpIdleC(f, u, m)) && NpIdleC(f, u, m).queue == f.queue
  {
  }

  lemma NpTakenSilent(f: State, u: User, m: Msg)
    requires Fresh(f) && m.t !in {Mt.Request, Mt.Release}
    ensures Stays(f, NpTakenC(f, u, m)) && NpTakenC(f, u, m).queue == f.queue
  {
    match m.t
    case Rtp => assert NpTakenC(f, u, m) == Revoke3(f, u);
    case QposReq => assert NpTakenC(f, u, m) == Send(f, u, Mt.Qinfo, None, Pos(f.queue, u), QPrio(f.queue, u));
    case _ =>
  }

  lemma AwayMoves(f: State, u: User, e: Event)
    requires Inv(f) && Fresh(f) && (e == OnPubAway(u) || e == OnLeave(u))
    ensures Moves(f, PubAway(f, u), e)
  {
    var f1 := SetPart(f, u, PartOf(f.d, u).(pubRoom := false));
    if GivesUp(f, e) {
      IdleEnterHands(f1.(prev := Some(u)), Some(u));
    } else if Withdraws(f, e) {
      DequeueMembers(f.queue, u);
      assert PubAway(f, u) == f1.(queue := Dequeue(f.queue, u));
    }
  }

  lemma LeaveMoves(f: State, u: User)
    requires Inv(f) && Fresh(f)
    ensures Moves(f, Leave(f, u), OnLeave(u))
  {
    AwayMoves(f, u, OnLeave(u));
  }

  lemma PermDownMoves(f: State, u: User)
    requires Inv(f) && Fresh(f)
    ensures Moves(f, PermDown(f, u), OnPermDown(u))
  {
    if LosesRight(f, OnPermDown(u)) { RightLost(f, u); } else { WaiterLost(f, u); }
  }

  lemma RightLost(f: State, u: User)
    requires Fresh(f) && f.g == G.Taken && f.speaker == Some(u)
    ensures Revoked(f, PermDown(f, u), REVOKE_NO_PERMISSION) && PermDown(f, u).queue == f.queue
  {
  }

  lemma WaiterLost(f: State, u: User)
    requires Fresh(f) && !(f.g == G.Taken && f.speaker == Some(u))
    ensures Stays(f, PermDown(f, u)) && forall w :: w in PermDown(f, u).queue <==> w in f.queue && w.u != u
  {
    DequeueMembers(f.queue, u);
  }

  lemma JoinMoves(f: State, u: User, perm: bool)
    requires Inv(f) && Fresh(f)
    ensures Moves(f, Join(f, u, perm), OnJoin(u, perm))
  {
    if f.g == G.Prevoke && f.revoking == Some(u) { IdleEnterHands(f.(prev := f.revoking), f.revoking); }
  }

  lemma TickMoves(f: State, t: Timer)
    requires Inv(f) && Fresh(f) && Armed(f, t)
    ensures Moves(f, Fire(f, t), Tick(t))
  {
    match t
    case T1 => IdleEnterHands(f.(prev := Holder(f)), Holder(f));
    case T3 => IdleEnterHands(f.(prev := Holder(f)), Holder(f));
    case T2 => TooLong(f);
    case _ => Reminds(f, t);
  }

  lemma TooLong(f: State)
    requires Fresh(f) && f.g == G.Taken && f.speaker.Some?
    ensures Revoked(f, FireT2(f), REVOKE_TOO_LONG) && FireT2(f).queue == f.queue
  {
  }

  lemma Reminds(f: State, t: Timer)
    requires Fresh(f) && t !in {T1, T2, T3}
    ensures Stays(f, Fire(f, t)) && Fire(f, t).queue == f.queue
  {
    match t
    case T7 => assert Fire(f, t) == FireT7(f);
    case T20 => assert Fire(f, t) == FireT20(f);
    case T8(u) => assert Fire(f, t) == FireT8(f, u);
    case T9(u) => assert Fire(f, t) == FireT9(f, u);
    case T21(u) => assert Fire(f, t) == FireT21(f, u);
  }

  lemma RxMoves(f: State, u: User, m: Msg, half: bool, t2Left: nat)
    requires Inv(f) && Fresh(f)
    ensures Moves(f, ServerRx(f, u, m, half, t2Left), OnRx(u, m, half, t2Left))
  {
    if m.t == Mt.Request {
      RequestMoves(f, u, m, half, t2Left);
    } else if m.t == Mt.Release {
      ReleaseMoves(f, u, m, half, t2Left);
    } else {
      OtherRxMoves(f, u, m, half, t2Left);
    }
  }

  lemma RtpMoves(f: State, u: User)
    requires Inv(f) && Fresh(f)
    ensures Moves(f, RtpIn(f, u), OnRtp(u))
  {
    if u in f.members { SilentMoves(f, u, NewMsg(Mt.Rtp, None, 0, 0), 0); }
  }

  lemma ReadyMoves(f: State, u: User)
    requires Fresh(f)
    ensures Moves(f, Ready(f, u), OnReady(u))
  {
  }

  lemma UpMoves(f: State, u: User)
    requires Fresh(f)
    ensures Moves(f, PermUp(f, u), OnPermUp(u)) && Moves(f, PubSelect(f, u), OnPubSelect(u))
  {
  }

  lemma StepMoves(f: State, e: Event)
    requires Inv(f) && Fresh(f) && Enabled(f, e)
    ensures Moves(f, Apply(f, e), e)
  {
    assert f == f.(fx := [], d := f.d.(out := []));
    match e
    case OnRx(u, m, half, t2Left) => RxMoves(f, u, m, half, t2Left);
    case OnRtp(u) => RtpMoves(f, u);
    case OnReady(u) => ReadyMoves(f, u);
    case OnPermDown(u) => PermDownMoves(f, u);
    case OnPermUp(u) => UpMoves(f, u);
    case OnPubSelect(u) => UpMoves(f, u);
    case OnPubAway(u) => AwayMoves(f, u, e);
    case OnLeave(u) => LeaveMoves(f, u);
    case OnJoin(u, perm) => JoinMoves(f, u, perm);
    case Tick(t) => TickMoves(f, t);
  }

  // ---------------------------------------------------------------- runs

  /** MAIN: what every event does to the floor and to the queue, on every run. The floor changes hands exactly if the
      holder gives up or an entitled request finds it idle; a speaker is put out exactly if somebody of higher priority
      asks, its permission goes or its time is over; and the waiters change exactly as requests and withdrawals say. */
  lemma FloorMovesExactly(qmax: nat, t2Secs: nat, es: seq<Event>, e: Event)
    requires IsRun(Init(qmax, t2Secs), es) && Enabled(Run(Init(qmax, t2Secs), es), e)
    ensures var f := Run(Init(qmax, t2Secs), es);
            var r := Apply(f, e);
            && Moves(f, r, e)
            && (r.fx != [] <==> GivesUp(f, e) || TakesIdle(f, e))
            && (r.g == G.Prevoke && f.g != G.Prevoke <==> Revokes(f, e))
            && (f.g == G.Idle && r.g != G.Idle <==> TakesIdle(f, e))
  {
    var (f0, f) := (Init(qmax, t2Secs), Run(Init(qmax, t2Secs), es));
    FloorRuns.InitInv(qmax, t2Secs);
    FloorRuns.RunInv(f0, es);
    CleanMoves(f, e);
    MovesExactly(f, Apply(f, e), e);
  }

  lemma MovesExactly(f: State, r: State, e: Event)
    requires Moves(f, r, e)
    ensures r.fx != [] <==> GivesUp(f, e) || TakesIdle(f, e)
    ensures r.g == G.Prevoke && f.g != G.Prevoke <==> Revokes(f, e)
    ensures f.g == G.Idle && r.g != G.Idle <==> TakesIdle(f, e)
  {
  }

  lemma CleanMoves(f: State, e: Event)
    requires Inv(f) && Enabled(f, e)
    ensures Moves(f, Apply(f, e), e)
  {
    var c := f.(fx := [], d := f.d.(out := []));
    forall x ensures PartOk(c, x) { assert PartOk(f, x); }
    StepMoves(c, e);
    SameStart(f, c, e);
    SameMoves(f, c, Apply(f, e), e);
  }

  lemma SameStart(f: State, c: State, e: Event)
    requires c == f.(fx := [], d := f.d.(out := []))
    ensures Apply(f, e) == Apply(c, e)
  {
  }

  lemma SameMoves(f: State, c: State, r: State, e: Event)
    requires c == f.(fx := [], d := f.d.(out := [])) && Moves(c, r, e)
    ensures Moves(f, r, e)
  {
    assert forall u :: PartOf(c.d, u) == PartOf(f.d, u);
  }
}
