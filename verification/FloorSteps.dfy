/** Every event keeps the floor invariant, tells clients the truth, moves the
    queue in one of five ways and emits at most one media effect. */
module FloorSteps {
  import opened Wrappers
  import opened FloorSpec
  import opened FloorSafety

  /** The floor goes to the head of the queue, which leaves it; nobody waits on an idle floor. */
  ghost predicate Succeeds(f: State, r: State) {
    if f.queue == [] then r.queue == []
    else r.queue == f.queue[1..] && r.speaker == Some(f.queue[0].u) && r.sprio == f.queue[0].p
  }

  /** The media effects of a step say exactly how the holder changed; the floor goes idle only if
      nobody waits, and the one who loses it is remembered. */
  ghost predicate FxStep(f: State, r: State) {
    || (r.fx == f.fx && Holder(r) == Holder(f) && (r.g == G.Idle <==> f.g == G.Idle) && r.prev == f.prev)
    || (r.g == G.Taken && r.speaker.Some? && r.fx == f.fx + [Bind(r.speaker.value)] && Succeeds(f, r)
        && r.prev == (if f.g == G.Idle then f.prev else Holder(f)))
    || (r.g == G.Idle && f.g != G.Idle && f.queue == [] && r.fx == f.fx + [Fx.Release(Holder(f))] && r.prev == Holder(f))
  }

  ghost predicate Good(f: State, r: State, u: User) {
    && Inv(r) && OutOk(r) && FxStep(f, r)
    && QueueMove(f.queue, r.queue, u) && r.qmax == f.qmax
  }

  ghost predicate SameGroup(f: State, r: State) {
    && r.g == f.g && r.speaker == f.speaker && r.revoking == f.revoking && r.members == f.members
    && r.qmax == f.qmax
  }

  /** Rewriting one participant record keeps the invariant if that record stays consistent. */
  lemma OnePart(f: State, r: State, u: User)
    requires Inv(f) && SameGroup(f, r) && QueueOk(r.queue, r.qmax) && (r.g == G.Idle ==> r.queue == [])
    requires r.g == G.Taken ==> !PreHead(r.queue)
    requires forall x :: x != u ==> (x in r.d.parts <==> x in f.d.parts)
    requires forall x :: x != u && x in f.d.parts ==> r.d.parts[x] == f.d.parts[x]
    requires PartOk(r, u)
    ensures Inv(r)
  {
    forall x ensures PartOk(r, x) { assert PartOk(f, x); }
  }

  lemma SendGood(f: State, u: User, t: Mt, n: nat, x: nat)
    requires Inv(f) && Neutral(f) && t !in {Mt.Taken, Mt.Idle, Mt.Granted}
    ensures Good(f, Send(f, u, t, None, n, x), u) && Neutral(Send(f, u, t, None, n, x))
  {
    assert PartOk(f, u);
    OnePart(f, Send(f, u, t, None, n, x), u);
  }

  lemma DenyGood(f: State, u: User, n: nat)
    requires Inv(f) && Neutral(f)
    ensures Good(f, PartA(f, u, NewMsg(Mt.Deny, None, n, 0)), u)
  {
    SendGood(f, u, Mt.Deny, n, 0);
  }

  lemma InvSenders(f: State)
    requires Inv(f) && f.g != G.Idle
    ensures SendersSeeTaken(f) && forall u :: Shape(f, u)
  {
    forall u ensures Shape(f, u) { assert PartOk(f, u); }
    forall u | u in f.members && PartOf(f.d, u).st == Some(P.NpSends) ensures PartOf(f.d, u).gTaken {
      assert PartOk(f, u);
    }
  }

  lemma IdleEnterGood(f: State, v: User)
    requires Inv(f) && f.g != G.Idle && Neutral(f) && f.prev == Holder(f)
    ensures Good(f, IdleEnter(f), v)
  {
    InvSenders(f);
    IdleEnterOk(f);
  }

  lemma PrevokeEnterGood(f: State, u: User, cause: nat, v: User)
    requires Inv(f) && f.g == G.Taken && f.speaker == Some(u) && Neutral(f)
    ensures Good(f, PrevokeEnter(f, u, cause), v) && Neutral(PrevokeEnter(f, u, cause))
    ensures PrevokeEnter(f, u, cause).g == G.Prevoke && PrevokeEnter(f, u, cause).queue == f.queue
  {
    var r := PrevokeEnter(f, u, cause);
    var ev := NewMsg(Mt.Revoke, None, cause, 0);
    assert React(PartOf(f.d, u), ev).write.Some? ==> PartOf(f.d, u).st == Some(P.Permitted);
    forall x ensures PartOk(r, x) {
      assert PartOk(f, x);
      assert PartOk(f, u);
    }
  }

  lemma ArbPreemptGood(f: State, u: User, p: nat)
    requires Inv(f) && Neutral(f) && !InQ(f.queue, u) && !PreQ(f.queue)
    ensures Good(f, ArbPreempt(f, u, p), u)
  {
    if f.g == G.Taken {
      var w := Waiter(u, p, true);
      var f1 := f.(queue := [w] + f.queue);
      PreemptOk(f.queue, w, f.qmax);
      var r := PrevokeEnter(f, f.speaker.value, REVOKE_PREEMPTED);
      PrevokeEnterGood(f, f.speaker.value, REVOKE_PREEMPTED, u);
      var f2 := PrevokeEnter(f1, f.speaker.value, REVOKE_PREEMPTED);
      assert f2 == r.(queue := [w] + f.queue);
      forall x ensures PartOk(f2, x) { assert PartOk(r, x); }
      SendGood(f2, u, Mt.Qinfo, 1, p);
      assert ArbPreempt(f, u, p) == Send(f2, u, Mt.Qinfo, None, 1, p);
    }
  }

  lemma EnqueueGood(f: State, u: User, p: nat)
    requires Inv(f) && Neutral(f) && f.g != G.Idle && !InQ(f.queue, u) && |f.queue| < f.qmax
    ensures var f1 := f.(queue := InsertQ(f.queue, Waiter(u, p, false)));
            Good(f, Send(f1, u, Mt.Qinfo, None, Pos(f1.queue, u), p), u)
  {
    var f1 := f.(queue := InsertQ(f.queue, Waiter(u, p, false)));
    InsertOk(f.queue, Waiter(u, p, false), f.qmax);
    forall x ensures PartOk(f1, x) { assert PartOk(f, x); }
    SendGood(f1, u, Mt.Qinfo, Pos(f1.queue, u), p);
  }

  lemma TakenReqGood(f: State, u: User, p: nat)
    requires Inv(f) && Neutral(f) && f.g != G.Idle
    ensures Good(f, TakenReq(f, u, p), u)
  {
    if PartOf(f.d, u).retry {
      SendGood(f, u, Mt.Deny, DENY_RETRY_AFTER, 0);
    } else if InQ(f.queue, u) {
      SendGood(f, u, Mt.Qinfo, Pos(f.queue, u), QPrio(f.queue, u));
    } else if p > HolderPrio(f) && !PreQ(f.queue) {
      ArbPreemptGood(f, u, p);
    } else if p > HolderPrio(f) {
    } else if |f.queue| >= f.qmax {
      SendGood(f, u, Mt.Deny, DENY_QUEUE_FULL, 0);
    } else {
      EnqueueGood(f, u, p);
    }
  }

  lemma ArbReqIdleGood(f: State, u: User, p: nat)
    requires Inv(f) && Neutral(f) && u in f.members && PartOf(f.d, u).st == Some(P.NpIdle)
    ensures Good(f, ArbReqIdle(f, u, p), u)
  {
    assert PartOk(f, u);
    if Alone(f) {
      DenyGood(f, u, DENY_ONLY_ONE);
    } else if PartOf(f.d, u).retry {
      DenyGood(f, u, DENY_RETRY_AFTER);
    } else {
      var f1 := f.(g := G.Taken, speaker := Some(u), sprio := p, succ := false,
                   rtpSeen := false, firstRtp := false, c20 := 0);
      forall x ensures Shape(f1, x) { assert PartOk(f, x); }
      EnterTakenParts(f1);
      EnterTakenOut(f1);
      IdleGrantAgrees(f, f1, EnterTaken(f1));
    }
  }

  /** As `AllAgreeOnTaken`, when the group was idle and the speaker is not sending yet. */
  lemma IdleGrantAgrees(f: State, f1: State, r: State)
    requires Inv(f) && f.g == G.Idle && f1.members == f.members && f1.d == f.d
    requires r.g == G.Taken && r.speaker.Some? && r.members == f.members
    requires r.speaker.value in f.members && PartOf(f.d, r.speaker.value).st == Some(P.NpIdle)
    requires r.d.parts.Keys == f.d.parts.Keys
    requires forall x :: x in f.d.parts ==> r.d.parts[x] == AfterTaken(f1, r.speaker.value, x)
    ensures forall u :: PartOk(r, u)
  {
    forall u ensures PartOk(r, u) {
      assert PartOk(f, u);
      if u in f.members { HeardTaken(f.d.parts[u]); }
    }
  }

  lemma Revoke3Good(f: State, u: User)
    requires Inv(f) && Neutral(f) && u in f.members && PartOf(f.d, u).st in {Some(P.NpIdle), Some(P.NpTaken)}
    ensures Good(f, Revoke3(f, u), u)
  {
    assert PartOk(f, u);
    OnePart(f, Revoke3(f, u), u);
  }

  lemma ArbRelGood(f: State, u: User)
    requires Inv(f) && Neutral(f)
    ensures Good(f, ArbRel(f, u), u)
  {
    if Holder(f) == Some(u) {
      var f1 := f.(prev := Some(u));
      forall x ensures PartOk(f1, x) { assert PartOk(f, x); }
      IdleEnterGood(f1, u);
    }
  }

  /** A change of fields that the invariant does not mention. */
  lemma RecordGood(f: State, u: User, p: Part)
    requires Inv(f) && Neutral(f) && u in f.members
    requires p.st == PartOf(f.d, u).st && p.gTaken == PartOf(f.d, u).gTaken
    ensures Good(f, SetPart(f, u, p), u) && Neutral(SetPart(f, u, p))
  {
    assert PartOk(f, u);
    OnePart(f, SetPart(f, u, p), u);
  }

  lemma IdleReleaseGood(f: State, u: User, ev: Msg)
    requires Inv(f) && Neutral(f) && u in f.members && ev.t == Mt.Release && PartOf(f.d, u).st == Some(P.NpIdle)
    ensures Good(f, NpIdleC(f, u, ev), u)
  {
    assert PartOk(f, u);
    DequeueOk(f.queue, u, f.qmax);
    OnePart(f, NpIdleC(f, u, ev), u);
  }

  lemma TakenReleaseGood(f: State, u: User, ev: Msg)
    requires Inv(f) && Neutral(f) && u in f.members && ev.t == Mt.Release && PartOf(f.d, u).st == Some(P.NpTaken)
    ensures Good(f, NpTakenC(f, u, ev), u)
  {
    assert PartOk(f, u);
    DequeueOk(f.queue, u, f.qmax);
    OnePart(f, NpTakenC(f, u, ev), u);
  }

  lemma TruthGood(f: State, r: State, u: User)
    requires Inv(f) && Neutral(f) && r == f.(d := r.d) && r.d.parts == f.d.parts && OutOk(r)
    ensures Good(f, r, u)
  {
    assert PartOk(f, u);
    OnePart(f, r, u);
  }

  lemma Rebase(f: State, f1: State, r: State, u: User)
    requires f1.fx == f.fx && f1.queue == f.queue && f1.g == f.g && Holder(f1) == Holder(f) && f1.qmax == f.qmax && f1.prev == f.prev
    requires Good(f1, r, u)
    ensures Good(f, r, u)
  {
  }

  lemma SettleIdleGood(f: State, u: User, a: Option<User>)
    requires Inv(f) && a == f.prev && Neutral(f) && u in f.members && PartOf(f.d, u).st == Some(P.NpSends) && f.g == G.Idle
    ensures Good(f, SendE(f, u, P.NpIdle, NewMsg(Mt.Idle, a, 0, 0)), u)
  {
    var f1 := SetPart(f, u, Entered(PartOf(f.d, u), P.NpIdle));
    assert PartOk(f, u);
    OnePart(f, f1, u);
    TruthGood(f1, Send(f1, u, Mt.Idle, a, 0, 0), u);
    Rebase(f, f1, Send(f1, u, Mt.Idle, a, 0, 0), u);
  }

  lemma SettleTakenGood(f: State, u: User)
    requires Inv(f) && Neutral(f) && u in f.members && PartOf(f.d, u).st == Some(P.NpSends) && f.g != G.Idle
    ensures Good(f, SendE(f, u, P.NpTaken, NewMsg(Mt.Taken, Holder(f), 0, 0)), u)
  {
    var f1 := SetPart(f, u, Entered(PartOf(f.d, u), P.NpTaken));
    SettledInv(f, f1, u);
    TruthGood(f1, Send(f1, u, Mt.Taken, Holder(f), 0, 0), u);
    Rebase(f, f1, Send(f1, u, Mt.Taken, Holder(f), 0, 0), u);
  }

  lemma SettledInv(f: State, f1: State, u: User)
    requires Inv(f) && u in f.members && f.g != G.Idle && f1 == SetPart(f, u, Entered(PartOf(f.d, u), P.NpTaken))
    ensures Inv(f1)
  {
    assert PartOk(f, u);
    OnePart(f, f1, u);
  }

  lemma NpSendsGood(f: State, u: User, ev: Msg)
    requires Inv(f) && Neutral(f) && u in f.members && PartOf(f.d, u).st == Some(P.NpSends)
    ensures Good(f, NpSendsC(f, u, ev), u)
  {
    if ev.t == Mt.Release {
      assert PartOk(f, u);
      var f1 := Send(f, u, Mt.Ack, None, ACK_OF_RELEASE, 0);
      SendGood(f, u, Mt.Ack, ACK_OF_RELEASE, 0);
      if f.g == G.Idle { SettleIdleGood(f1, u, f.prev); } else { SettleTakenGood(f1, u); }
      Rebase(f, f1, NpSendsC(f, u, ev), u);
    }
  }

  lemma ReleaseGood(f: State, f1: State, u: User)
    requires Inv(f) && Good(f, f1, u) && Neutral(f1) && f1.fx == f.fx && f1.queue == f.queue
    ensures Good(f, ArbRel(Send(f1, u, Mt.Ack, None, ACK_OF_RELEASE, 0), u), u)
  {
    SendGood(f1, u, Mt.Ack, ACK_OF_RELEASE, 0);
    ArbRelGood(Send(f1, u, Mt.Ack, None, ACK_OF_RELEASE, 0), u);
  }

  lemma RtpGood(f: State, u: User)
    requires Inv(f) && Neutral(f)
    ensures Good(f, ArbRtp(f, u), u)
  {
    assert PartOk(f, u);
    OnePart(f, ArbRtp(f, u), u);
  }

  lemma RegrantGood(f: State, u: User, t2Left: nat)
    requires Inv(f) && Neutral(f) && u in f.members && PartOf(f.d, u).st == Some(P.Permitted)
    ensures Good(f, ArbReqPermitted(f, u, t2Left), u)
  {
    var ev := NewMsg(Mt.Granted, None, f.sprio, if f.firstRtp then t2Left else f.t2Secs);
    if f.g == G.Taken && f.speaker == Some(u) {
      TellOut(f, f.d, u, ev);
      TellGranted(f.d, u, ev);
      TruthGood(f, f.(d := Tell(f.d, u, ev)), u);
    }
  }

  lemma PermittedGood(f: State, u: User, ev: Msg, t2Left: nat)
    requires Inv(f) && Neutral(f) && u in f.members && PartOf(f.d, u).st == Some(P.Permitted)
    ensures Good(f, PermittedC(f, u, ev, t2Left), u)
  {
    match ev.t
    case Release =>
      var p := PartOf(f.d, u).(released := true);
      RecordGood(f, u, p);
      ReleaseGood(f, SetPart(f, u, p), u);
    case Request => RegrantGood(f, u, t2Left);
    case Rtp => RtpGood(f, u);
    case _ =>
  }

  lemma PrevokeGood(f: State, u: User, ev: Msg)
    requires Inv(f) && Neutral(f)
    ensures Good(f, PrevokeC(f, u, ev), u)
  {
    match ev.t
    case Release => ReleaseGood(f, f, u);
    case Rtp => RtpGood(f, u);
    case _ =>
  }

  lemma NpTakenGood(f: State, u: User, ev: Msg)
    requires Inv(f) && Neutral(f) && u in f.members && PartOf(f.d, u).st == Some(P.NpTaken)
    ensures Good(f, NpTakenC(f, u, ev), u)
  {
    match ev.t
    case Request =>
      assert PartOk(f, u);
      TakenReqGood(f, u, ev.n);
    case Release => TakenReleaseGood(f, u, ev);
    case _ => TakenOtherGood(f, u, ev);
  }

  lemma TakenOtherGood(f: State, u: User, ev: Msg)
    requires Inv(f) && Neutral(f) && u in f.members && PartOf(f.d, u).st == Some(P.NpTaken) && ev.t !in {Mt.Request, Mt.Release}
    ensures Good(f, NpTakenC(f, u, ev), u)
  {
    match ev.t
    case Ack => TakenAckGood(f, u, ev);
    case QposReq => SendGood(f, u, Mt.Qinfo, Pos(f.queue, u), QPrio(f.queue, u));
    case Rtp => Revoke3Good(f, u);
    case _ =>
  }

  lemma TakenAckGood(f: State, u: User, ev: Msg)
    requires Inv(f) && Neutral(f) && u in f.members && PartOf(f.d, u).st == Some(P.NpTaken) && ev.t == Mt.Ack
    ensures Good(f, NpTakenC(f, u, ev), u)
  {
    if ev.n == ACK_OF_TAKEN { RecordGood(f, u, PartOf(f.d, u).(c21 := 0)); }
  }

  lemma NpIdleGood(f: State, u: User, ev: Msg)
    requires Inv(f) && Neutral(f) && u in f.members && PartOf(f.d, u).st == Some(P.NpIdle)
    ensures Good(f, NpIdleC(f, u, ev), u)
  {
    match ev.t
    case Request => ArbReqIdleGood(f, u, ev.n);
    case Release => IdleReleaseGood(f, u, ev);
    case Rtp => Revoke3Good(f, u);
    case _ =>
  }

  lemma PartCGood(f: State, u: User, ev: Msg, t2Left: nat)
    requires Inv(f) && Neutral(f) && u in f.members
    ensures Good(f, PartC(f, u, ev, t2Left), u)
  {
    assert PartOk(f, u);
    match f.d.parts[u].st.value
    case NpIdle => NpIdleGood(f, u, ev);
    case NpTaken => NpTakenGood(f, u, ev);
    case Permitted => PermittedGood(f, u, ev, t2Left);
    case Prevoke => PrevokeGood(f, u, ev);
    case NpSends => NpSendsGood(f, u, ev);
  }

  lemma ServerRxGood(f: State, u: User, m: Msg, half: bool, t2Left: nat)
    requires Inv(f) && Neutral(f)
    ensures Good(f, ServerRx(f, u, m, half, t2Left), u)
  {
    SendGood(f, u, Mt.Deny, DENY_OTHER, 0);
    SendGood(f, u, Mt.Deny, DENY_RECV_ONLY, 0);
    SendGood(f, u, Mt.Deny, DENY_NOT_PUBROOM, 0);
    SendGood(f, u, Mt.Deny, DENY_NO_PERMISSION, 0);
    if u in f.members { PartCGood(f, u, m, t2Left); }
  }

  lemma ReadyGood(f: State, u: User)
    requires Inv(f) && Neutral(f)
    ensures Good(f, Ready(f, u), u)
  {
    TruthGood(f, Ready(f, u), u);
  }

  /** Permission and publish-room flags of any user, member or not. */
  lemma FlagGood(f: State, u: User, p: Part)
    requires Inv(f) && Neutral(f) && p.st == PartOf(f.d, u).st && p.gTaken == PartOf(f.d, u).gTaken
    ensures Good(f, SetPart(f, u, p), u) && Neutral(SetPart(f, u, p))
  {
    assert PartOk(f, u);
    OnePart(f, SetPart(f, u, p), u);
  }

  lemma DequeueGood(f: State, u: User)
    requires Inv(f) && Neutral(f)
    ensures Good(f, f.(queue := Dequeue(f.queue, u)), u)
  {
    DequeueOk(f.queue, u, f.qmax);
    assert PartOk(f, u);
    OnePart(f, f.(queue := Dequeue(f.queue, u)), u);
  }

  lemma PermDownGood(f: State, u: User)
    requires Inv(f) && Neutral(f)
    ensures Good(f, PermDown(f, u), u)
  {
    var f1 := SetPart(f, u, PartOf(f.d, u).(perm := false));
    FlagGood(f, u, PartOf(f.d, u).(perm := false));
    if f.g == G.Taken && f.speaker == Some(u) {
      PrevokeEnterGood(f1, u, REVOKE_NO_PERMISSION, u);
    } else if InQ(f.queue, u) {
      DequeueGood(f1, u);
      DenyGood(f1.(queue := Dequeue(f.queue, u)), u, DENY_NO_PERMISSION);
    }
  }

  lemma AwayGood(f: State, u: User)
    requires Inv(f) && Neutral(f)
    ensures Good(f, Away(f, u), u)
  {
    if f.g == G.Taken && f.speaker == Some(u) {
      ArbRelGood(f, u);
    } else if f.g == G.Prevoke && f.revoking == Some(u) {
    } else {
      DequeueGood(f, u);
    }
  }

  lemma PubAwayGood(f: State, u: User)
    requires Inv(f) && Neutral(f)
    ensures Good(f, PubAway(f, u), u)
  {
    FlagGood(f, u, PartOf(f.d, u).(pubRoom := false));
    AwayGood(SetPart(f, u, PartOf(f.d, u).(pubRoom := false)), u);
  }

  lemma LeaveGood(f: State, u: User)
    requires Inv(f) && Neutral(f)
    ensures Good(f, Leave(f, u), u)
  {
    PubAwayGood(f, u);
    var f1 := PubAway(f, u);
    var r := Leave(f, u);
    forall x ensures PartOk(r, x) { assert PartOk(f1, x); }
    SameHolder(f1, r);
  }

  /** Adding a fresh member that believes what the group says. */
  lemma AddMember(f: State, r: State, u: User)
    requires Inv(f) && u !in f.members
    requires r == f.(members := f.members + {u}, d := r.d) && r.d.out == f.d.out
    requires exists p :: r.d.parts == f.d.parts[u := p] && p.gTaken == (f.g != G.Idle)
                         && p.st == Some(if f.g == G.Idle then P.NpIdle else P.NpTaken)
    ensures Inv(r)
  {
    forall x ensures PartOk(r, x) { assert PartOk(f, x); }
  }

  lemma JoinedGood(f: State, f1: State, u: User, perm: bool)
    requires Inv(f) && Good(f, f1, u) && u !in f1.members
    ensures Good(f, Joined(f1, u, perm), u)
  {
    var r := Joined(f1, u, perm);
    assert r.d.parts == f1.d.parts[u := r.d.parts[u]];
    AddMember(f1, r, u);
    SameHolder(f1, r);
  }

  lemma JoinGood(f: State, u: User, perm: bool)
    requires Inv(f) && Neutral(f) && u !in f.members
    ensures Good(f, Join(f, u, perm), u)
  {
    if f.g == G.Prevoke && f.revoking == Some(u) {
      var f1 := f.(prev := f.revoking);
      ExpireGood(f, f1, u);
      IdleEnterMembers(f1);
      JoinedGood(f, IdleEnter(f1), u, perm);
    } else {
      JoinedGood(f, f, u, perm);
    }
  }

  lemma IdleEnterMembers(f: State)
    ensures IdleEnter(f).members == f.members
  {
  }

  lemma ExpireGood(f: State, f1: State, v: User)
    requires Inv(f) && Neutral(f) && f.g != G.Idle && f1 == f.(prev := Holder(f))
    ensures Good(f, IdleEnter(f1), v)
  {
    forall x ensures PartOk(f1, x) { assert PartOk(f, x); }
    IdleEnterGood(f1, v);
  }

  lemma T2Good(f: State, v: User)
    requires Inv(f) && Neutral(f) && f.g == G.Taken
    ensures Good(f, FireT2(f), v)
  {
    var u := f.speaker.value;
    var p := PartOf(f.d, u).(retry := true);
    FlagGood(f, u, p);
    PrevokeEnterGood(SetPart(f, u, p), u, REVOKE_TOO_LONG, v);
  }

  lemma T7Good(f: State, v: User)
    requires Inv(f) && Neutral(f) && f.g == G.Idle
    ensures Good(f, FireT7(f), v)
  {
    var f1 := f.(c7 := f.c7 + 1);
    var ev := NewMsg(Mt.Idle, f.prev, 0, 0);
    forall u ensures Shape(f1, u) { assert PartOk(f, u); }
    MembersHaveParts(f1);
    FanHeard(f1, ev, {});
    FanOut(f1, ev, {});
    var r := FireT7(f);
    forall u ensures PartOk(r, u) {
      assert PartOk(f, u);
      if u in f.members { HeardIdle(f.d.parts[u]); }
    }
  }

  lemma GrantAgain(f: State, r: State)
    requires Inv(f) && f.g == G.Taken && SameGroup(f, r) && r.queue == f.queue
    requires r.d.parts == if PartOf(f.d, f.speaker.value).st in {Some(P.NpIdle), Some(P.NpTaken)}
                          then f.d.parts[f.speaker.value := Entered(PartOf(f.d, f.speaker.value), P.Permitted)] else f.d.parts
    ensures Inv(r)
  {
    assert PartOk(f, f.speaker.value);
    OnePart(f, r, f.speaker.value);
  }

  lemma T20Good(f: State, v: User)
    requires Inv(f) && Neutral(f) && f.g == G.Taken
    ensures Good(f, FireT20(f), v)
  {
    var sp := f.speaker.value;
    var f1 := f.(c20 := f.c20 + 1);
    var ev := NewMsg(Mt.Granted, None, f.sprio, f.t2Secs);
    assert PartOk(f, sp);
    OnePart(f, f1, sp);
    if f.c20 < C20 {
      TellGranted(f1.d, sp, ev);
      TellOut(f1, f1.d, sp, ev);
      GrantAgain(f1, f1.(d := Tell(f1.d, sp, ev)));
    }
  }

  lemma T8Good(f: State, u: User, v: User)
    requires Inv(f) && Neutral(f)
    ensures Good(f, FireT8(f, u), v)
  {
    var p := PartOf(f.d, u);
    FlagGood(f, u, p.(c8 := p.c8 + 1));
    var f1 := SetPart(f, u, p.(c8 := p.c8 + 1));
    RevokeAgain(f, f1, u, v, if p.st == Some(P.Prevoke) then p.rcause else REVOKE_NO_PERMISSION);
  }

  lemma RevokeAgain(f: State, f1: State, u: User, v: User, n: nat)
    requires Good(f, f1, u) && Neutral(f1) && f1.queue == f.queue && f1.fx == f.fx
    ensures Good(f, Send(f1, u, Mt.Revoke, None, n, 0), v)
  {
    SendGood(f1, u, Mt.Revoke, n, 0);
  }

  lemma T21Good(f: State, u: User, v: User)
    requires Inv(f) && Neutral(f) && u in f.d.parts && f.d.parts[u].st == Some(P.NpTaken)
    ensures Good(f, FireT21(f, u), v)
  {
    assert PartOk(f, u);
    var p := f.d.parts[u].(c21 := f.d.parts[u].c21 + 1);
    FlagGood(f, u, p);
    var f1 := SetPart(f, u, p);
    TruthGood(f1, Send(f1, u, Mt.Taken, Holder(f), 0, 0), u);
  }

  lemma FireGood(f: State, t: Timer)
    requires Inv(f) && Neutral(f) && Armed(f, t)
    ensures Good(f, Fire(f, t), 0)
  {
    match t
    case T1 => ExpireGood(f, f.(prev := if f.g == G.Taken then f.speaker else f.revoking), 0);
    case T2 => T2Good(f, 0);
    case T3 => ExpireGood(f, f.(prev := f.revoking), 0);
    case T7 => T7Good(f, 0);
    case T20 => T20Good(f, 0);
    case T8(u) => T8Good(f, u, 0);
    case T9(u) => FlagGood(f, u, PartOf(f.d, u).(retry := false));
    case T21(u) => T21Good(f, u, 0);
  }

  function UserOf(e: Event): User {
    match e
    case Tick(_) => 0
    case _ => e.u
  }

  lemma StepGood(f0: State, e: Event)
    requires Inv(f0) && Enabled(f0, e)
    ensures Good(f0.(fx := [], d := f0.d.(out := [])), Apply(f0, e), UserOf(e))
  {
    var f := f0.(fx := [], d := f0.d.(out := []));
    forall x ensures PartOk(f, x) { assert PartOk(f0, x); }
    match e
    case OnRx(u, m, half, t2Left) => ServerRxGood(f, u, m, half, t2Left);
    case OnRtp(u) => if u in f.members { PartCGood(f, u, NewMsg(Mt.Rtp, None, 0, 0), 0); }
    case OnReady(u) => ReadyGood(f, u);
    case OnPermDown(u) => PermDownGood(f, u);
    case OnPermUp(u) => FlagGood(f, u, PartOf(f.d, u).(perm := true));
    case OnPubSelect(u) => FlagGood(f, u, PartOf(f.d, u).(pubRoom := true));
    case OnPubAway(u) => PubAwayGood(f, u);
    case OnLeave(u) => LeaveGood(f, u);
    case OnJoin(u, perm) => JoinGood(f, u, perm);
    case Tick(t) => FireGood(f, t);
  }
}
