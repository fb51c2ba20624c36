/** What holds in addition as long as nobody sends media while waiting in the queue,
    and the proof that this is exactly the condition. */
module FloorStrong {
  import opened Wrappers
  import opened FloorSpec
  import opened FloorSafety
  import opened FloorSteps
  import FloorRuns

  ghost predicate Entitled(f: State, u: User, st: P) {
    u in f.members && PartOf(f.d, u).st == Some(st) && PartOf(f.d, u).perm && PartOf(f.d, u).pubRoom
  }

  ghost predicate WaitersOk(f: State) { forall w :: w in f.queue ==> Entitled(f, w.u, P.NpTaken) }

  ghost predicate SpeakerOk(f: State) { f.g == G.Taken && f.speaker.Some? ==> Entitled(f, f.speaker.value, P.Permitted) }

  ghost predicate RevokedOk(f: State) {
    f.g == G.Prevoke && f.revoking.Some? && f.revoking.value in f.members
    ==> PartOf(f.d, f.revoking.value).st == Some(P.Prevoke)
  }

  ghost predicate Fair(f: State) { WaitersOk(f) && SpeakerOk(f) && RevokedOk(f) }

  /** Every waiter is an entitled member, the speaker is permitted, and whoever is
      being revoked and still there knows it. */
  ghost predicate Strong(f: State) { Inv(f) && Fair(f) }

  lemma HolderNotQueued(f: State, w: Waiter)
    requires Strong(f) && w in f.queue
    ensures Holder(f) != Some(w.u)
  {
  }

  /** Media from a user that waits in the queue. */
  predicate QueuedRtp(f: State, e: Event) {
    && (e.OnRtp? || (e.OnRx? && e.m.t == Mt.Rtp))
    && InQ(f.queue, e.u)
  }

  /** One record changed: enough that this user keeps its entitlements. */
  lemma OneUser(f: State, r: State, u: User)
    requires Fair(f) && SameGroup(f, r) && forall w :: w in r.queue ==> w in f.queue || w.u == u
    requires forall x :: x != u ==> PartOf(r.d, x) == PartOf(f.d, x)
    requires InQ(r.queue, u) ==> Entitled(r, u, P.NpTaken)
    requires r.g == G.Taken && r.speaker == Some(u) ==> Entitled(r, u, P.Permitted)
    requires r.g == G.Prevoke && r.revoking == Some(u) && u in r.members ==> PartOf(r.d, u).st == Some(P.Prevoke)
    ensures Fair(r)
  {
    forall w | w in r.queue ensures Entitled(r, w.u, P.NpTaken) {
      if w.u != u { assert w in f.queue; }
    }
  }

  lemma SameRecords(f: State, r: State)
    requires Fair(f) && SameGroup(f, r) && r.d.parts == f.d.parts && forall w :: w in r.queue ==> w in f.queue
    ensures Fair(r)
  {
    forall w | w in r.queue ensures Entitled(r, w.u, P.NpTaken) { assert Entitled(f, w.u, P.NpTaken); }
  }

  lemma IdleIsFair(f: State)
    requires f.g == G.Idle && f.queue == []
    ensures Fair(f)
  {
  }

  lemma IdleEnterFair(f: State)
    requires Inv(f) && Neutral(f) && f.g != G.Idle && WaitersOk(f)
    ensures Fair(IdleEnter(f))
  {
    InvSenders(f);
    IdleEnterOk(f);
    var r := IdleEnter(f);
    if f.queue != [] {
      var sp := f.queue[0].u;
      RankedPositions(f.queue);
      assert f.queue[0] in f.queue;
      assert Entitled(r, sp, P.Permitted);
      forall w | w in r.queue ensures Entitled(r, w.u, P.NpTaken) {
        assert w in f.queue;
        assert w.u != sp;
      }
    }
  }

  lemma PrevokeEnterFair(f: State, u: User, cause: nat)
    requires f.g == G.Taken && f.speaker == Some(u) && WaitersOk(f)
    requires u in f.members && PartOf(f.d, u).st == Some(P.Permitted)
    ensures Fair(PrevokeEnter(f, u, cause))
    ensures PrevokeEnter(f, u, cause).queue == f.queue
  {
    var r := PrevokeEnter(f, u, cause);
    assert React(PartOf(f.d, u), NewMsg(Mt.Revoke, None, cause, 0)).write
           == Some(Entered(PartOf(f.d, u).(rcause := cause), P.Prevoke));
    forall w | w in r.queue ensures Entitled(r, w.u, P.NpTaken) { assert Entitled(f, w.u, P.NpTaken); }
  }

  lemma ArbPreemptFair(f: State, u: User, p: nat)
    requires Strong(f) && Neutral(f) && Entitled(f, u, P.NpTaken) && !InQ(f.queue, u) && !PreQ(f.queue)
    ensures Fair(ArbPreempt(f, u, p))
  {
    if f.g == G.Taken {
      var w := Waiter(u, p, true);
      var f1 := f.(queue := [w] + f.queue);
      forall x | x in f1.queue ensures Entitled(f1, x.u, P.NpTaken) {
        if x != w { assert x in f.queue; assert Entitled(f, x.u, P.NpTaken); }
      }
      var sp := f.speaker.value;
      PrevokeEnterFair(f1, sp, REVOKE_PREEMPTED);
      var f2 := PrevokeEnter(f1, sp, REVOKE_PREEMPTED);
      SameRecords(f2, f2.(d := Say(f2.d, u, Mt.Qinfo, None, 1, p)));
    }
  }

  lemma EnqueueFair(f: State, u: User, w: Waiter)
    requires Fair(f) && Entitled(f, u, P.NpTaken) && w.u == u
    ensures Fair(f.(queue := InsertQ(f.queue, w)))
  {
    InsertMembers(f.queue, w);
    var r := f.(queue := InsertQ(f.queue, w));
    forall x | x in r.queue ensures Entitled(r, x.u, P.NpTaken) {
      if x != w { assert Entitled(f, x.u, P.NpTaken); }
    }
  }

  lemma TakenReqFair(f: State, u: User, p: nat)
    requires Strong(f) && Neutral(f) && Entitled(f, u, P.NpTaken)
    ensures Fair(TakenReq(f, u, p))
  {
    var r := TakenReq(f, u, p);
    if !PartOf(f.d, u).retry && !InQ(f.queue, u) && p > HolderPrio(f) && !PreQ(f.queue) {
      ArbPreemptFair(f, u, p);
    } else if !PartOf(f.d, u).retry && !InQ(f.queue, u) && p <= HolderPrio(f) && |f.queue| < f.qmax {
      EnqueueFair(f, u, Waiter(u, p, false));
      SameRecords(f.(queue := InsertQ(f.queue, Waiter(u, p, false))), r);
    } else {
      SameRecords(f, r);
    }
  }

  lemma GrantIdleFair(f: State, f1: State, u: User)
    requires Inv(f) && f.g == G.Idle && Entitled(f, u, P.NpIdle)
    requires f1 == f.(g := G.Taken, speaker := Some(u), sprio := f1.sprio, succ := false, rtpSeen := false,
                      firstRtp := false, c20 := 0)
    ensures Fair(EnterTaken(f1))
  {
    forall x ensures Shape(f1, x) { assert PartOk(f, x); }
    EnterTakenParts(f1);
  }

  lemma ArbReqIdleFair(f: State, u: User, p: nat)
    requires Strong(f) && Entitled(f, u, P.NpIdle)
    ensures Fair(ArbReqIdle(f, u, p))
  {
    assert PartOk(f, u);
    if Alone(f) || PartOf(f.d, u).retry {
      var n := if Alone(f) then DENY_ONLY_ONE else DENY_RETRY_AFTER;
      SameRecords(f, f.(d := Say(f.d, u, Mt.Deny, None, n, 0)));
    } else {
      GrantIdleFair(f, f.(g := G.Taken, speaker := Some(u), sprio := p, succ := false, rtpSeen := false,
                          firstRtp := false, c20 := 0), u);
    }
  }

  /** A member that neither waits nor holds the floor may change freely. */
  lemma BystanderFair(f: State, r: State, u: User)
    requires Fair(f) && SameGroup(f, r) && forall w :: w in r.queue ==> w in f.queue
    requires forall x :: x != u ==> PartOf(r.d, x) == PartOf(f.d, x)
    requires !InQ(r.queue, u) && Holder(f) != Some(u)
    ensures Fair(r)
  {
    OneUser(f, r, u);
  }

  lemma ArbRelFair(f: State, u: User)
    requires Inv(f) && Neutral(f) && Fair(f)
    ensures Fair(ArbRel(f, u))
  {
    if Holder(f) == Some(u) {
      var f1 := f.(prev := Some(u));
      forall x ensures PartOk(f1, x) { assert PartOk(f, x); }
      SameRecords(f, f1);
      IdleEnterFair(f1);
    }
  }

  lemma NpIdleFair(f: State, u: User, ev: Msg)
    requires Strong(f) && u in f.members && PartOf(f.d, u).st == Some(P.NpIdle)
    requires ev.t == Mt.Request ==> Entitled(f, u, P.NpIdle)
    ensures Fair(NpIdleC(f, u, ev))
  {
    assert PartOk(f, u);
    if ev.t == Mt.Request {
      ArbReqIdleFair(f, u, ev.n);
    } else {
      DequeueMembers(f.queue, u);
      IdleIsFair(NpIdleC(f, u, ev));
    }
  }

  lemma NpTakenReleaseFair(f: State, u: User, ev: Msg)
    requires Strong(f) && u in f.members && PartOf(f.d, u).st == Some(P.NpTaken) && ev.t == Mt.Release
    ensures Fair(NpTakenC(f, u, ev))
  {
    DequeueMembers(f.queue, u);
    BystanderFair(f, NpTakenC(f, u, ev), u);
  }

  lemma Revoke3Fair(f: State, u: User)
    requires Strong(f) && u in f.members && PartOf(f.d, u).st == Some(P.NpTaken) && !InQ(f.queue, u)
    ensures Fair(Revoke3(f, u))
  {
    BystanderFair(f, Revoke3(f, u), u);
  }

  lemma NpTakenFair(f: State, u: User, ev: Msg)
    requires Strong(f) && Neutral(f) && u in f.members && PartOf(f.d, u).st == Some(P.NpTaken)
    requires ev.t == Mt.Request ==> Entitled(f, u, P.NpTaken)
    requires ev.t == Mt.Rtp ==> !InQ(f.queue, u)
    ensures Fair(NpTakenC(f, u, ev))
  {
    match ev.t
    case Request => TakenReqFair(f, u, ev.n);
    case Release => NpTakenReleaseFair(f, u, ev);
    case Ack => FlagUpFair(f, SetPart(f, u, PartOf(f.d, u).(c21 := 0)), u, PartOf(f.d, u).(c21 := 0));
    case QposReq => SameRecords(f, Send(f, u, Mt.Qinfo, None, Pos(f.queue, u), QPrio(f.queue, u)));
    case Rtp => Revoke3Fair(f, u);
    case _ =>
  }

  lemma PermittedFair(f: State, u: User, ev: Msg, t2Left: nat)
    requires Strong(f) && Neutral(f) && u in f.members && PartOf(f.d, u).st == Some(P.Permitted)
    ensures Fair(PermittedC(f, u, ev, t2Left))
  {
    match ev.t
    case Release => PermittedReleaseFair(f, u);
    case Request =>
      var ev := NewMsg(Mt.Granted, None, f.sprio, if f.firstRtp then t2Left else f.t2Secs);
      TellGranted(f.d, u, ev);
      SameRecords(f, f.(d := Tell(f.d, u, ev)));
    case Rtp => SameRecords(f, ArbRtp(f, u));
    case _ =>
  }

  lemma PermittedReleaseFair(f: State, u: User)
    requires Strong(f) && Neutral(f) && u in f.members && PartOf(f.d, u).st == Some(P.Permitted)
    ensures Fair(ArbRel(Send(SetPart(f, u, PartOf(f.d, u).(released := true)), u, Mt.Ack, None, ACK_OF_RELEASE, 0), u))
  {
    var p := PartOf(f.d, u).(released := true);
    var f1 := SetPart(f, u, p);
    var f2 := Send(f1, u, Mt.Ack, None, ACK_OF_RELEASE, 0);
    RecordGood(f, u, p);
    SendGood(f1, u, Mt.Ack, ACK_OF_RELEASE, 0);
    assert PartOk(f, u);
    OneUser(f, f1, u);
    SameRecords(f1, f2);
    ArbRelFair(f2, u);
  }

  lemma PrevokeFair(f: State, u: User, ev: Msg)
    requires Strong(f) && Neutral(f)
    ensures Fair(PrevokeC(f, u, ev))
  {
    match ev.t
    case Release =>
      var f1 := Send(f, u, Mt.Ack, None, ACK_OF_RELEASE, 0);
      SendGood(f, u, Mt.Ack, ACK_OF_RELEASE, 0);
      SameRecords(f, f1);
      ArbRelFair(f1, u);
    case Rtp => SameRecords(f, ArbRtp(f, u));
    case _ =>
  }

  lemma NpSendsFair(f: State, u: User, ev: Msg)
    requires Strong(f) && u in f.members && PartOf(f.d, u).st == Some(P.NpSends)
    ensures Fair(NpSendsC(f, u, ev))
  {
    if ev.t == Mt.Release { BystanderFair(f, NpSendsC(f, u, ev), u); }
  }

  lemma PartCFair(f: State, u: User, ev: Msg, t2Left: nat)
    requires Strong(f) && Neutral(f) && u in f.members
    requires ev.t == Mt.Request ==> PartOf(f.d, u).perm && PartOf(f.d, u).pubRoom
    requires ev.t == Mt.Rtp ==> !InQ(f.queue, u)
    ensures Fair(PartC(f, u, ev, t2Left))
  {
    assert PartOk(f, u);
    match f.d.parts[u].st.value
    case NpIdle => NpIdleFair(f, u, ev);
    case NpTaken => NpTakenFair(f, u, ev);
    case Permitted => PermittedFair(f, u, ev, t2Left);
    case Prevoke => PrevokeFair(f, u, ev);
    case NpSends => NpSendsFair(f, u, ev);
  }

  lemma ServerRxFair(f: State, u: User, m: Msg, half: bool, t2Left: nat)
    requires Strong(f) && Neutral(f) && (m.t == Mt.Rtp ==> !InQ(f.queue, u))
    ensures Fair(ServerRx(f, u, m, half, t2Left))
  {
    var p := PartOf(f.d, u);
    if u !in f.members || (m.t == Mt.Request && !(half && p.pubRoom && p.perm)) {
      SameRecords(f, ServerRx(f, u, m, half, t2Left));
    } else if !(m.t == Mt.Ack && p.st != Some(P.NpTaken)) {
      PartCFair(f, u, m, t2Left);
    }
  }

  /** Taking a flag from the holder leaves the waiters alone. */
  lemma HolderFlagKeepsWaiters(f: State, u: User, p: Part)
    requires Strong(f) && Holder(f) == Some(u)
    ensures WaitersOk(SetPart(f, u, p)) && !InQ(f.queue, u)
  {
    forall w | w in f.queue ensures Entitled(SetPart(f, u, p), w.u, P.NpTaken) && w.u != u {
      HolderNotQueued(f, w);
      assert Entitled(f, w.u, P.NpTaken);
    }
  }

  lemma PermDownSpeakerFair(f: State, u: User)
    requires Strong(f) && Neutral(f) && f.g == G.Taken && f.speaker == Some(u)
    ensures Fair(PermDown(f, u))
  {
    var p := PartOf(f.d, u).(perm := false);
    FlagGood(f, u, p);
    HolderFlagKeepsWaiters(f, u, p);
    PrevokeEnterFair(SetPart(f, u, p), u, REVOKE_NO_PERMISSION);
  }

  lemma PermDownFair(f: State, u: User)
    requires Strong(f) && Neutral(f)
    ensures Fair(PermDown(f, u))
  {
    if f.g == G.Taken && f.speaker == Some(u) { PermDownSpeakerFair(f, u); } else { PermDownOtherFair(f, u); }
  }

  lemma PermDownOtherFair(f: State, u: User)
    requires Strong(f) && Neutral(f) && !(f.g == G.Taken && f.speaker == Some(u))
    ensures Fair(PermDown(f, u))
  {
    var f1 := SetPart(f, u, PartOf(f.d, u).(perm := false));
    if InQ(f.queue, u) {
      var f2 := f1.(queue := Dequeue(f.queue, u));
      DequeueMembers(f.queue, u);
      OneUser(f, f2, u);
      ToldFair(f2, u, NewMsg(Mt.Deny, None, DENY_NO_PERMISSION, 0));
    } else {
      OneUser(f, f1, u);
    }
  }

  lemma ToldFair(f: State, u: User, ev: Msg)
    requires Fair(f) && ev.t == Mt.Deny
    ensures Fair(PartA(f, u, ev))
  {
    SameRecords(f, PartA(f, u, ev));
  }

  ghost predicate GoneFair(r: State, u: User) {
    Strong(r) && !InQ(r.queue, u) && !(r.g == G.Taken && r.speaker == Some(u))
  }

  lemma SpeakerAwayFair(f: State, u: User)
    requires Strong(f) && Neutral(f) && f.g == G.Taken && f.speaker == Some(u)
    ensures GoneFair(PubAway(f, u), u)
  {
    var p := PartOf(f.d, u).(pubRoom := false);
    var f1 := SetPart(f, u, p);
    FlagGood(f, u, p);
    HolderFlagKeepsWaiters(f, u, p);
    var f2 := f1.(prev := Some(u));
    forall x ensures PartOk(f2, x) { assert PartOk(f1, x); }
    assert WaitersOk(f2) by {
      forall w | w in f2.queue ensures Entitled(f2, w.u, P.NpTaken) { assert Entitled(f1, w.u, P.NpTaken); }
    }
    IdleEnterFair(f2);
    InvSenders(f2);
    IdleEnterOk(f2);
    if f.queue != [] { assert f.queue[0] in f.queue; }
  }

  lemma OtherAwayFair(f: State, u: User)
    requires Strong(f) && Neutral(f) && !(f.g == G.Taken && f.speaker == Some(u))
    ensures GoneFair(PubAway(f, u), u)
  {
    var p := PartOf(f.d, u).(pubRoom := false);
    var f1 := SetPart(f, u, p);
    PubAwayGood(f, u);
    if f.g == G.Prevoke && f.revoking == Some(u) {
      HolderFlagKeepsWaiters(f, u, p);
      OneUser(f, f1, u);
    } else {
      DequeueMembers(f.queue, u);
      OneUser(f, f1.(queue := Dequeue(f.queue, u)), u);
    }
  }

  lemma AwayFair(f: State, u: User)
    requires Strong(f) && Neutral(f)
    ensures GoneFair(PubAway(f, u), u)
  {
    if f.g == G.Taken && f.speaker == Some(u) { SpeakerAwayFair(f, u); } else { OtherAwayFair(f, u); }
  }

  lemma LeaveFair(f: State, u: User)
    requires Strong(f) && Neutral(f)
    ensures Fair(Leave(f, u))
  {
    AwayFair(f, u);
    var f1 := PubAway(f, u);
    var r := Leave(f, u);
    forall w | w in r.queue ensures Entitled(r, w.u, P.NpTaken) { assert Entitled(f1, w.u, P.NpTaken); }
  }

  lemma JoinFair(f: State, u: User, perm: bool)
    requires Strong(f) && Neutral(f) && u !in f.members
    ensures Fair(Join(f, u, perm))
  {
    if f.g == G.Prevoke && f.revoking == Some(u) {
      var f0 := f.(prev := f.revoking);
      forall x ensures PartOk(f0, x) { assert PartOk(f, x); }
      SameRecords(f, f0);
      IdleEnterFair(f0);
      IdleEnterMembers(f0);
      InvSenders(f0);
      IdleEnterOk(f0);
      NewcomerFair(IdleEnter(f0), u, perm);
    } else {
      NewcomerFair(f, u, perm);
    }
  }

  lemma NewcomerFair(f: State, u: User, perm: bool)
    requires Strong(f) && u !in f.members && !(f.g == G.Prevoke && f.revoking == Some(u))
    ensures Fair(Joined(f, u, perm))
  {
    var r := Joined(f, u, perm);
    forall w | w in r.queue ensures Entitled(r, w.u, P.NpTaken) { assert Entitled(f, w.u, P.NpTaken); }
  }

  lemma T2Fair(f: State)
    requires Strong(f) && Neutral(f) && f.g == G.Taken
    ensures Fair(FireT2(f))
  {
    var u := f.speaker.value;
    var p := PartOf(f.d, u).(retry := true);
    FlagGood(f, u, p);
    OneUser(f, SetPart(f, u, p), u);
    PrevokeEnterFair(SetPart(f, u, p), u, REVOKE_TOO_LONG);
  }

  lemma T20Fair(f: State)
    requires Strong(f) && f.g == G.Taken
    ensures Fair(FireT20(f))
  {
    var sp := f.speaker.value;
    var ev := NewMsg(Mt.Granted, None, f.sprio, f.t2Secs);
    TellGranted(f.d, sp, ev);
    SameRecords(f, f.(c20 := f.c20 + 1));
    SameRecords(f, f.(c20 := f.c20 + 1, d := Tell(f.d, sp, ev)));
  }

  /** Counting a repetition changes no entitlement. */
  lemma CounterFair(f: State, r: State, u: User)
    requires Fair(f) && SameGroup(f, r) && r.queue == f.queue && u in f.d.parts
    requires exists p :: r.d.parts == f.d.parts[u := p] && p.st == f.d.parts[u].st && p.perm == f.d.parts[u].perm
                         && p.pubRoom == f.d.parts[u].pubRoom
    ensures Fair(r)
  {
    if InQ(f.queue, u) { assert Entitled(f, u, P.NpTaken); }
    OneUser(f, r, u);
  }

  lemma PartTimerFair(f: State, t: Timer)
    requires Fair(f) && Armed(f, t) && (t.T8? || t.T9? || t.T21?)
    ensures Fair(Fire(f, t))
  {
    var p := f.d.parts[t.u];
    match t
    case T8(u) =>
      assert FireT8(f, u).d.parts == f.d.parts[u := p.(c8 := p.c8 + 1)];
      CounterFair(f, FireT8(f, u), u);
    case T9(u) =>
      assert FireT9(f, u).d.parts == f.d.parts[u := p.(retry := false)];
      CounterFair(f, FireT9(f, u), u);
    case T21(u) =>
      assert FireT21(f, u).d.parts == f.d.parts[u := p.(c21 := p.c21 + 1)];
      CounterFair(f, FireT21(f, u), u);
  }

  lemma FireFair(f: State, t: Timer)
    requires Strong(f) && Neutral(f) && Armed(f, t)
    ensures Fair(Fire(f, t))
  {
    match t
    case T1 => ExpireFair(f, f.(prev := if f.g == G.Taken then f.speaker else f.revoking));
    case T2 => T2Fair(f);
    case T3 => ExpireFair(f, f.(prev := f.revoking));
    case T7 => IdleIsFair(FireT7(f));
    case T20 => T20Fair(f);
    case _ => PartTimerFair(f, t);
  }

  lemma ExpireFair(f: State, f1: State)
    requires Strong(f) && Neutral(f) && f.g != G.Idle && f1 == f.(prev := f1.prev)
    ensures Fair(IdleEnter(f1))
  {
    forall x ensures PartOk(f1, x) { assert PartOk(f, x); }
    SameRecords(f, f1);
    IdleEnterFair(f1);
  }

  lemma FlagUpFair(f: State, r: State, u: User, p: Part)
    requires Fair(f) && r == SetPart(f, u, p)
    requires p.st == PartOf(f.d, u).st && (PartOf(f.d, u).perm ==> p.perm) && (PartOf(f.d, u).pubRoom ==> p.pubRoom)
    ensures Fair(r)
  {
    OneUser(f, r, u);
  }

  /** One event, from a state whose messages and effects are cleared. */
  lemma FairStep(f: State, e: Event)
    requires Strong(f) && f.fx == [] && f.d.out == [] && Enabled(f, e) && !QueuedRtp(f, e)
    ensures Fair(Apply(f, e))
  {
    assert f.(fx := [], d := f.d.(out := [])) == f;
    match e
    case OnRx(u, m, half, t2Left) => ServerRxFair(f, u, m, half, t2Left);
    case OnRtp(u) => if u in f.members { PartCFair(f, u, NewMsg(Mt.Rtp, None, 0, 0), 0); }
    case OnReady(u) => SameRecords(f, Ready(f, u));
    case OnPermDown(u) => PermDownFair(f, u);
    case OnPermUp(u) => FlagUpFair(f, PermUp(f, u), u, PartOf(f.d, u).(perm := true));
    case OnPubSelect(u) => FlagUpFair(f, PubSelect(f, u), u, PartOf(f.d, u).(pubRoom := true));
    case OnPubAway(u) => AwayFair(f, u);
    case OnLeave(u) => LeaveFair(f, u);
    case OnJoin(u, perm) => JoinFair(f, u, perm);
    case Tick(t) => FireFair(f, t);
  }

  lemma StrongKept(f0: State, e: Event)
    requires Strong(f0) && Enabled(f0, e) && !QueuedRtp(f0, e)
    ensures Strong(Apply(f0, e))
  {
    StepGood(f0, e);
    ClearedStep(f0, e);
  }

  lemma ClearedStep(f0: State, e: Event)
    requires Strong(f0) && Enabled(f0, e) && !QueuedRtp(f0, e)
    ensures Fair(Apply(f0, e))
  {
    var f := f0.(fx := [], d := f0.d.(out := []));
    forall x ensures PartOk(f, x) { assert PartOk(f0, x); }
    SameRecords(f0, f);
    FairStep(f, e);
    assert Apply(f0, e) == Apply(f, e);
  }

  lemma StrongLost(f0: State, e: Event)
    requires Strong(f0) && QueuedRtp(f0, e)
    ensures !Strong(Apply(f0, e))
  {
    var w :| w in f0.queue && w.u == e.u;
    assert Entitled(f0, e.u, P.NpTaken);
    var f := f0.(fx := [], d := f0.d.(out := []));
    WaiterSends(f, e.u, if e.OnRtp? then NewMsg(Mt.Rtp, None, 0, 0) else e.m, if e.OnRtp? then 0 else e.t2Left);
    assert w in Revoke3(f, e.u).queue && !Entitled(Revoke3(f, e.u), e.u, P.NpTaken);
  }

  lemma WaiterSends(f: State, u: User, m: Msg, t2Left: nat)
    requires PartOf(f.d, u).st == Some(P.NpTaken) && m.t == Mt.Rtp
    ensures PartC(f, u, m, t2Left) == Revoke3(f, u)
  {
  }

  /** Strong in every state of the run. */
  ghost predicate AlwaysStrong(f: State, es: seq<Event>)
    decreases es
  {
    Strong(f) && (es != [] ==> AlwaysStrong(Apply(f, es[0]), es[1..]))
  }

  ghost predicate NoQueuedRtp(f: State, es: seq<Event>)
    decreases es
  {
    es != [] ==> !QueuedRtp(f, es[0]) && NoQueuedRtp(Apply(f, es[0]), es[1..])
  }

  /** The stronger invariants hold throughout a run exactly when no user sends
      media while waiting in the queue. */
  lemma {:induction false} StrongExactly(f: State, es: seq<Event>)
    requires Strong(f) && IsRun(f, es)
    ensures AlwaysStrong(f, es) <==> NoQueuedRtp(f, es)
    decreases es
  {
    if es != [] {
      if QueuedRtp(f, es[0]) {
        StrongLost(f, es[0]);
      } else {
        StrongKept(f, es[0]);
        StrongExactly(Apply(f, es[0]), es[1..]);
      }
    }
  }

  lemma StrongFromStart(qmax: nat, t2Secs: nat, es: seq<Event>)
    requires IsRun(Init(qmax, t2Secs), es)
    ensures AlwaysStrong(Init(qmax, t2Secs), es) <==> NoQueuedRtp(Init(qmax, t2Secs), es)
  {
    StrongExactly(Init(qmax, t2Secs), es);
  }

  lemma BindIsEntitled(f: State, e: Event, u: User)
    requires Strong(f) && Enabled(f, e) && !QueuedRtp(f, e) && Bind(u) in Apply(f, e).fx
    ensures Entitled(Apply(f, e), u, P.Permitted) && Holder(Apply(f, e)) == Some(u)
  {
    StepGood(f, e);
    StrongKept(f, e);
  }

  lemma {:induction false} StrongAtEnd(f: State, es: seq<Event>)
    requires AlwaysStrong(f, es)
    ensures Strong(Run(f, es))
    decreases es
  {
    if es != [] { StrongAtEnd(Apply(f, es[0]), es[1..]); }
  }

  lemma {:induction false} QueuedRtpSplit(f: State, es: seq<Event>, e: Event)
    ensures NoQueuedRtp(f, es + [e]) <==> NoQueuedRtp(f, es) && !QueuedRtp(Run(f, es), e)
    decreases es
  {
    if es == [] {
      assert es + [e] == [e];
    } else {
      assert (es + [e])[1..] == es[1..] + [e];
      QueuedRtpSplit(Apply(f, es[0]), es[1..], e);
    }
  }

  /** MAIN: in every run from a new floor in which no queued user sends media, every media binding is for
      the holder, a permitted member that publishes here. */
  lemma BindsAreEntitled(qmax: nat, t2Secs: nat, es: seq<Event>, e: Event, u: User)
    requires IsRun(Init(qmax, t2Secs), es + [e]) && NoQueuedRtp(Init(qmax, t2Secs), es + [e])
    requires Bind(u) in Run(Init(qmax, t2Secs), es + [e]).fx
    ensures var r := Run(Init(qmax, t2Secs), es + [e]); Entitled(r, u, P.Permitted) && Holder(r) == Some(u)
  {
    var f0 := Init(qmax, t2Secs);
    RunSnoc(f0, es, e);
    QueuedRtpSplit(f0, es, e);
    StrongFromStart(qmax, t2Secs, es);
    StrongAtEnd(f0, es);
    BindIsEntitled(Run(f0, es), e, u);
  }

  // ---------------------------------------------------------------- the excluded case does happen

  /** Two users join and choose to publish here. */
  function BothReady(a: User, b: User): seq<Event> {
    [OnJoin(a, true)] + [OnJoin(b, true)] + [OnPubSelect(a)] + [OnPubSelect(b)]
  }

  function Asks(u: User, prio: nat): Event { OnRx(u, NewMsg(Mt.Request, None, prio, 0), true, 0) }

  /** An idle floor of two, of whom the first so many publish. */
  ghost predicate IdlePair(f: State, a: User, b: User, pubA: bool, pubB: bool) {
    && f.g == G.Idle && f.queue == [] && f.members == {a, b}
    && f.d.parts.Keys == {a, b}
    && f.d.parts[a].st == Some(P.NpIdle) && f.d.parts[a].perm && !f.d.parts[a].retry && f.d.parts[a].pubRoom == pubA
    && f.d.parts[b].st == Some(P.NpIdle) && f.d.parts[b].perm && !f.d.parts[b].retry && f.d.parts[b].pubRoom == pubB
  }

  lemma BothJoined(qmax: nat, t2: nat, a: User, b: User) returns (f: State)
    requires a != b
    ensures f == Apply(Apply(Init(qmax, t2), OnJoin(a, true)), OnJoin(b, true))
    ensures IdlePair(f, a, b, false, false) && f.qmax == qmax
    ensures b !in Apply(Init(qmax, t2), OnJoin(a, true)).members
  {
    f := Apply(Apply(Init(qmax, t2), OnJoin(a, true)), OnJoin(b, true));
  }

  lemma BothPublish(f: State, a: User, b: User)
    requires a != b && IdlePair(f, a, b, false, false)
    ensures IdlePair(Apply(Apply(f, OnPubSelect(a)), OnPubSelect(b)), a, b, true, true)
    ensures Apply(Apply(f, OnPubSelect(a)), OnPubSelect(b)).qmax == f.qmax
  {
    var f1 := Apply(f, OnPubSelect(a));
    assert IdlePair(f1, a, b, true, false);
  }

  lemma TwoUsersReady(qmax: nat, t2: nat, a: User, b: User) returns (f: State)
    requires a != b
    ensures IsRun(Init(qmax, t2), BothReady(a, b)) && f == Run(Init(qmax, t2), BothReady(a, b))
    ensures IdlePair(f, a, b, true, true) && f.qmax == qmax
  {
    var f0 := Init(qmax, t2);
    var f2 := BothJoined(qmax, t2, a, b);
    BothPublish(f2, a, b);
    f := Apply(Apply(f2, OnPubSelect(a)), OnPubSelect(b));
    RunSnoc(f0, [], OnJoin(a, true));
    assert [] + [OnJoin(a, true)] == [OnJoin(a, true)];
    RunSnoc(f0, [OnJoin(a, true)], OnJoin(b, true));
    RunSnoc(f0, [OnJoin(a, true)] + [OnJoin(b, true)], OnPubSelect(a));
    RunSnoc(f0, [OnJoin(a, true)] + [OnJoin(b, true)] + [OnPubSelect(a)], OnPubSelect(b));
  }

  lemma FirstAsks(f: State, a: User, b: User, prio: nat)
    requires a != b && Inv(f) && IdlePair(f, a, b, true, true)
    ensures var r := Apply(f, Asks(a, prio));
            r.g == G.Taken && r.sprio == prio && r.queue == [] && r.qmax == f.qmax && r.members == f.members
            && r.speaker == Some(a) && PartOf(r.d, a).st == Some(P.Permitted)
            && Entitled(r, b, P.NpTaken) && !PartOf(r.d, b).retry
  {
    var f0 := f.(fx := [], d := f.d.(out := []));
    assert |f.members| == 2;
    var f1 := f0.(g := G.Taken, speaker := Some(a), sprio := prio, succ := false, rtpSeen := false, firstRtp := false, c20 := 0);
    forall x ensures Shape(f1, x) { assert PartOk(f, x); }
    AskedIsTaken(f, f1, a, prio);
    PairAfterGrant(f1, a, b);
  }

  lemma PairAfterGrant(f: State, a: User, b: User)
    requires a != b && f.speaker == Some(a) && f.members == {a, b} && f.d.parts.Keys == {a, b} && forall x :: Shape(f, x)
    requires f.d.parts[a].st == Some(P.NpIdle) && f.d.parts[b].st == Some(P.NpIdle)
    requires f.d.parts[b].perm && f.d.parts[b].pubRoom && !f.d.parts[b].retry
    ensures var r := EnterTaken(f);
            && r == f.(idleBcast := false, fx := f.fx + [Bind(a)], d := r.d)
            && PartOf(r.d, a).st == Some(P.Permitted) && Entitled(r, b, P.NpTaken) && !PartOf(r.d, b).retry
  {
    EnterTakenParts(f);
    assert AfterTaken(f, a, b) == Entered(f.d.parts[b], P.NpTaken);
  }

  lemma AskedIsTaken(f: State, f1: State, a: User, prio: nat)
    requires a in f.members && f.g == G.Idle && |f.members| == 2 && Entitled(f, a, P.NpIdle) && !PartOf(f.d, a).retry
    requires f1 == f.(fx := [], d := f.d.(out := [])).(g := G.Taken, speaker := Some(a), sprio := prio, succ := false,
                                                       rtpSeen := false, firstRtp := false, c20 := 0)
    ensures Apply(f, Asks(a, prio)) == EnterTaken(f1)
  {
  }

  lemma SecondWaits(f: State, b: User, prio: nat)
    requires f.g == G.Taken && prio <= f.sprio && f.queue == [] && f.qmax > 0 && b in f.members
    requires Entitled(f, b, P.NpTaken) && !PartOf(f.d, b).retry
    ensures var r := Apply(f, Asks(b, prio));
            r.queue == [Waiter(b, prio, false)] && InQ(r.queue, b) && r.g == f.g && r.speaker == f.speaker
            && r.members == f.members && r.d.parts == f.d.parts
  {
    var w := Waiter(b, prio, false);
    assert Apply(f, Asks(b, prio)).queue == [w];
    assert w in [w];
  }

  lemma SendsWaiting(f: State, b: User)
    requires b in f.members && PartOf(f.d, b).st == Some(P.NpTaken)
    ensures var r := Apply(f, OnRtp(b));
            r.queue == f.queue && r.g == f.g && r.speaker == f.speaker && r.members == f.members
            && PartOf(r.d, b).st == Some(P.NpSends) && forall x :: x != b ==> PartOf(r.d, x) == PartOf(f.d, x)
  {
  }

  function Frees(u: User): Event { OnRx(u, NewMsg(Mt.Release, None, 0, 0), true, 0) }

  /** The release of a speaker, up to the choice of the next one. */
  function Freed(f: State, a: User): State {
    var f0 := f.(fx := [], d := f.d.(out := []));
    Send(SetPart(f0, a, PartOf(f.d, a).(released := true)), a, Mt.Ack, None, ACK_OF_RELEASE, 0).(prev := Some(a))
  }

  lemma FreesEnters(f: State, a: User)
    requires f.g == G.Taken && f.speaker == Some(a) && a in f.members && PartOf(f.d, a).st == Some(P.Permitted)
    ensures Apply(f, Frees(a)) == IdleEnter(Freed(f, a))
  {
  }

  lemma FreedOk(f: State, a: User)
    requires Inv(f) && a in f.members && PartOf(f.d, a).st == Some(P.Permitted)
    ensures Inv(Freed(f, a)) && Neutral(Freed(f, a))
  {
    var r := Freed(f, a);
    assert PartOk(f, a);
    OnePart(f, r, a);
  }

  /** The floor goes to the head of the queue even if that user is sending without permission, and it stays so. */
  lemma SenderSucceeds(f: State, a: User, b: User)
    requires Inv(f) && f.g == G.Taken && f.speaker == Some(a) && a in f.members && PartOf(f.d, a).st == Some(P.Permitted)
    requires f.queue != [] && f.queue[0].u == b && b in f.members && PartOf(f.d, b).st == Some(P.NpSends)
    ensures var r := Apply(f, Frees(a));
            r.g == G.Taken && r.speaker == Some(b) && r.fx == [Bind(b)] && PartOf(r.d, b).st == Some(P.NpSends)
  {
    assert PartOk(f, b);
    FreesEnters(f, a);
    FreedOk(f, a);
    var f1 := Freed(f, a);
    InvSenders(f1);
    IdleEnterOk(f1);
    assert AfterIdle(f1, b) == f.d.parts[b];
  }

  function Breaking(a: User, b: User, hi: nat, lo: nat): seq<Event> {
    BothReady(a, b) + [Asks(a, hi)] + [Asks(b, lo)] + [OnRtp(b)]
  }

  /** The first four events and both requests: a speaks, b waits. */
  lemma OneWaits(qmax: nat, t2: nat, a: User, b: User, hi: nat, lo: nat) returns (f: State)
    requires qmax > 0 && a != b && lo <= hi
    ensures var es := BothReady(a, b) + [Asks(a, hi)] + [Asks(b, lo)];
            IsRun(Init(qmax, t2), es) && f == Run(Init(qmax, t2), es)
    ensures f.g == G.Taken && f.speaker == Some(a) && f.members == {a, b} && f.queue == [Waiter(b, lo, false)] && InQ(f.queue, b)
    ensures PartOf(f.d, a).st == Some(P.Permitted) && PartOf(f.d, b).st == Some(P.NpTaken)
  {
    var (f0, es) := (Init(qmax, t2), BothReady(a, b));
    var f4 := TwoUsersReady(qmax, t2, a, b);
    FloorRuns.InitInv(qmax, t2);
    FloorRuns.RunInv(f0, es);
    RunSnoc(f0, es, Asks(a, hi));
    RunSnoc(f0, es + [Asks(a, hi)], Asks(b, lo));
    FirstAsks(f4, a, b, hi);
    SecondWaits(Apply(f4, Asks(a, hi)), b, lo);
    f := Apply(Apply(f4, Asks(a, hi)), Asks(b, lo));
  }

  /** A waiting user that sends media breaks the stronger invariants: for any two users and any
      floor with a queue, this run does it.  When the speaker then releases the floor, the waiting
      user gets it, media included, while it is still being told to stop sending. */
  lemma QueuedRtpBreaks(qmax: nat, t2: nat, a: User, b: User, hi: nat, lo: nat)
    requires qmax > 0 && a != b && lo <= hi
    ensures IsRun(Init(qmax, t2), Breaking(a, b, hi, lo)) && !AlwaysStrong(Init(qmax, t2), Breaking(a, b, hi, lo))
    ensures IsRun(Init(qmax, t2), Breaking(a, b, hi, lo) + [Frees(a)])
    ensures var r := Run(Init(qmax, t2), Breaking(a, b, hi, lo) + [Frees(a)]);
            Holder(r) == Some(b) && r.fx == [Bind(b)] && PartOf(r.d, b).st == Some(P.NpSends)
  {
    var (f0, es) := (Init(qmax, t2), BothReady(a, b) + [Asks(a, hi)] + [Asks(b, lo)]);
    var f := OneWaits(qmax, t2, a, b, hi, lo);
    RunSnoc(f0, es, OnRtp(b));
    QueuedRtpSplit(f0, es, OnRtp(b));
    StrongFromStart(qmax, t2, Breaking(a, b, hi, lo));
    RunSnoc(f0, Breaking(a, b, hi, lo), Frees(a));
    SendsWaiting(f, b);
    FloorRuns.InitInv(qmax, t2);
    FloorRuns.RunInv(f0, Breaking(a, b, hi, lo));
    SenderSucceeds(Apply(f, OnRtp(b)), a, b);
  }
}
