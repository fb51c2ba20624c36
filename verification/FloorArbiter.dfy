/** The floor arbiter as it runs: an object whose methods update its fields step by step.
    Each method is proved to compute the step function of `FloorSpec` with its name. */
module FloorArbiter {
  import opened Wrappers
  import opened FloorSpec
  import S = FloorSpec
  import opened FloorSafety
  import opened FloorSteps
  import FloorTimers

  class Floor {
    var g: G
    var speaker: Option<User>
    var sprio: nat
    var revoking: Option<User>
    var rprio: nat
    var rcauseG: nat
    var queue: seq<Waiter>
    var succ: bool
    var rtpSeen: bool
    var firstRtp: bool
    var c20: nat
    var c7: nat
    var idleBcast: bool
    var prev: Option<User>
    var members: set<User>
    const qmax: nat
    const t2Secs: nat
    var fx: seq<Fx>
    var d: Desk  // participant records, sequence number and messages of the step in progress

    function Now(): State
      reads this
    {
      State(g, speaker, sprio, revoking, rprio, rcauseG, queue, succ, rtpSeen, firstRtp, c20, c7, idleBcast, prev,
            members, qmax, t2Secs, fx, d)
    }

    ghost predicate Valid()
      reads this
    {
      Inv(Now())
    }

    constructor (qmax: nat, t2Secs: nat)
      ensures Now() == Init(qmax, t2Secs) && Valid()
    {
      g, speaker, sprio, revoking, rprio, rcauseG := G.Idle, None, 0, None, 0, 0;
      queue, succ, rtpSeen, firstRtp, c20, c7 := [], false, false, false, 0, 0;
      idleBcast, prev, members := false, None, {};
      this.qmax, this.t2Secs := qmax, t2Secs;
      fx, d := [], Desk(map[], 0, []);
    }

    method SetRecord(u: User, p: Part)
      modifies this`d
      ensures d == Write(old(d), u, p)
    {
      d := d.(parts := d.parts[u := p]);
    }

    function HolderNow(): Option<User>
      reads this
    {
      match g
      case Taken => speaker
      case Prevoke => revoking
      case Idle => None
    }

    method Dequeue(u: User)
      modifies this`queue
      ensures queue == S.Dequeue(old(queue), u)
    {
      var kept := [];
      var i := 0;
      while i < |queue|
        invariant i <= |queue| && queue == old(queue)
        invariant kept + S.Dequeue(queue[i..], u) == S.Dequeue(queue, u)
      {
        assert queue[i..][1..] == queue[i + 1..];
        if queue[i].u != u { kept := kept + [queue[i]]; }
        i := i + 1;
      }
      queue := kept;
    }

    method InsertQ(w: Waiter)
      modifies this`queue
      ensures queue == S.InsertQ(old(queue), w)
    {
      var i := 0;
      while i < |queue| && !Before(w, queue[i])
        invariant i <= |queue|
        invariant S.InsertQ(queue, w) == queue[..i] + S.InsertQ(queue[i..], w)
      {
        assert queue[i..][1..] == queue[i + 1..];
        assert queue[..i + 1] == queue[..i] + [queue[i]];
        i := i + 1;
      }
      queue := queue[..i] + [w] + queue[i..];
    }

    method Send(u: User, t: Mt, a: Option<User>, n: nat, x: nat)
      modifies this`d
      ensures d == Say(old(d), u, t, a, n, x)
    {
      var seqd := t == Mt.Taken || t == Mt.Idle;
      var bump := seqd && x == 0;
      if bump {
        d := d.(seqNo := (d.seqNo + 1) % 65536);
      }
      var q := if bump then d.seqNo else if seqd then x else 0;
      d := d.(out := d.out + [Out(u, Msg(t, a, n, if seqd then 0 else x, q))]);
    }

    method EnterR(u: User, to: P)
      modifies this`d
      ensures d == Write(old(d), u, Entered(PartOf(old(d), u), to))
    {
      var p := PartOf(d, u);
      match to {
        case NpIdle => p := p.(gTaken := false, c21 := 0);
        case NpTaken => p := p.(gTaken := true, c21 := 1);
        case Permitted => p := p.(released := false, c21 := 0);
        case _ => p := p.(c8 := 1, c21 := 0);
      }
      SetRecord(u, p.(st := Some(to)));
    }

    method SendE(u: User, to: P, m: Msg)
      modifies this`d
      ensures d == Say(Write(old(d), u, Entered(PartOf(old(d), u), to)), u, m.t, m.a, m.n, m.d)
    {
      EnterR(u, to);
      Send(u, m.t, m.a, m.n, m.d);
    }

    method HearGranted(u: User, ev: Msg)
      requires ev.t == Mt.Granted
      modifies this`d
      ensures d == Tell(old(d), u, ev)
    {
      var st := PartOf(d, u).st;
      if st == Some(P.NpIdle) || st == Some(P.NpTaken) {
        SendE(u, P.Permitted, NewMsg(Mt.Granted, None, ev.n, ev.d));
      } else if st == Some(P.Permitted) {
        Send(u, Mt.Granted, None, ev.n, ev.d);
      }
    }

    method HearTaken(u: User, ev: Msg)
      requires ev.t == Mt.Taken
      modifies this`d
      ensures d == Tell(old(d), u, ev)
    {
      var p := PartOf(d, u);
      match p.st
      case Some(Releasing) =>
      case Some(NpTaken) =>
        SetRecord(u, p.(c21 := 1));
        Send(u, Mt.Taken, ev.a, 0, ev.q);
      case Some(NpSends) => SetRecord(u, p.(gTaken := true));
      case None => SetRecord(u, p.(gTaken := true));
      case _ => SendE(u, P.NpTaken, NewMsg(Mt.Taken, ev.a, 0, ev.q));
    }

    method HearIdle(u: User, ev: Msg)
      requires ev.t == Mt.Idle
      modifies this`d
      ensures d == Tell(old(d), u, ev)
    {
      var p := PartOf(d, u);
      match p.st
      case Some(Releasing) =>
      case Some(NpIdle) => Send(u, Mt.Idle, ev.a, 0, ev.q);
      case Some(Permitted) => EnterR(u, P.NpIdle);
      case Some(NpSends) => SetRecord(u, p.(gTaken := false));
      case None => SetRecord(u, p.(gTaken := false));
      case _ => SendE(u, P.NpIdle, NewMsg(Mt.Idle, ev.a, 0, ev.q));
    }

    method HearRevoke(u: User, ev: Msg)
      requires ev.t == Mt.Revoke
      modifies this`d
      ensures d == Tell(old(d), u, ev)
    {
      var p := PartOf(d, u);
      if p.st == Some(P.Permitted) {
        SetRecord(u, p.(rcause := ev.n));
        SendE(u, P.Prevoke, NewMsg(Mt.Revoke, None, ev.n, 0));
        assert d.parts == old(d).parts[u := Entered(p.(rcause := ev.n), P.Prevoke)];
      }
    }

    /** What participant u does with an arbitration event. */
    method PartA(u: User, ev: Msg)
      modifies this`d
      ensures d == Tell(old(d), u, ev)
      ensures Now() == S.PartA(old(Now()), u, ev)
    {
      match ev.t
      case Qinfo => Send(u, Mt.Qinfo, None, ev.n, ev.d);
      case Deny => Send(u, Mt.Deny, None, ev.n, 0);
      case Granted => HearGranted(u, ev);
      case Taken => HearTaken(u, ev);
      case Idle => HearIdle(u, ev);
      case Revoke => HearRevoke(u, ev);
      case _ =>
    }

    method Fan(ev: Msg, skip: set<User>)
      modifies this`d
      ensures Now() == S.Fan(old(Now()), ev, skip)
    {
      var rest := members - skip;
      var m := ev;
      if ev.t == Mt.Taken || ev.t == Mt.Idle {
        d := d.(seqNo := (d.seqNo + 1) % 65536);
        m := m.(q := d.seqNo);
      }
      ghost var start := d;
      while rest != {}
        invariant TellAll(d, Ascending(rest), m) == TellAll(start, Ascending(members - skip), m)
        decreases rest
      {
        var u := Least(rest);
        assert Ascending(rest) == [u] + Ascending(rest - {u});
        assert Ascending(rest)[1..] == Ascending(rest - {u});
        PartA(u, m);
        rest := rest - {u};
      }
    }

    method EnterTaken()
      modifies this
      ensures Now() == S.EnterTaken(old(Now()))
    {
      idleBcast := false;
      var sp := speaker.GetOr(0);
      PartA(sp, NewMsg(Mt.Granted, None, sprio, t2Secs));
      Fan(NewMsg(Mt.Taken, Some(sp), 0, 0), {sp});
      fx := fx + [Bind(sp)];
    }

    method SetIdle()
      modifies this
      ensures Now() == old(Now()).(g := G.Idle, speaker := None, revoking := None, firstRtp := false, idleBcast := true, c7 := 1)
    {
      g, speaker, revoking, firstRtp, idleBcast, c7 := G.Idle, None, None, false, true, 1;
    }

    method GoIdle()
      requires queue == []
      modifies this
      ensures Now() == S.IdleEnter(old(Now()))
    {
      SetIdle();
      Fan(NewMsg(Mt.Idle, prev, 0, 0), {});
      fx := fx + [Fx.Release(prev)];
    }

    method SetSpeaker(u: User, p: nat)
      modifies this
      ensures Now() == old(Now()).(g := G.Taken, speaker := Some(u), sprio := p)
    {
      g, speaker, sprio := G.Taken, Some(u), p;
    }

    method ResetGrant(succession: bool)
      modifies this
      ensures Now() == old(Now()).(succ := succession, rtpSeen := false, firstRtp := false, c20 := if succession then 1 else 0)
    {
      succ, rtpSeen, firstRtp, c20 := succession, false, false, if succession then 1 else 0;
    }

    method Succeed()
      requires queue != []
      modifies this
      ensures Now() == S.IdleEnter(old(Now()))
    {
      var w := queue[0];
      queue := queue[1..];
      revoking := None;
      SetSpeaker(w.u, w.p);
      ResetGrant(true);
      EnterTaken();
    }

    method IdleEnter()
      modifies this
      ensures Now() == S.IdleEnter(old(Now()))
    {
      if queue == [] { GoIdle(); } else { Succeed(); }
    }

    method SetPrevoke(u: User, cause: nat)
      modifies this
      ensures Now() == old(Now()).(g := G.Prevoke, revoking := Some(u), rprio := old(sprio), rcauseG := cause, speaker := None)
    {
      g := G.Prevoke;
      revoking := Some(u);
      rprio := sprio;
      rcauseG := cause;
      speaker := None;
    }

    method PrevokeEnter(u: User, cause: nat)
      modifies this
      ensures Now() == S.PrevokeEnter(old(Now()), u, cause)
    {
      SetPrevoke(u, cause);
      PartA(u, NewMsg(Mt.Revoke, None, cause, 0));
    }

    method Grant(u: User, p: nat)
      modifies this
      ensures Now() == S.EnterTaken(old(Now()).(g := G.Taken, speaker := Some(u), sprio := p, succ := false,
                                                rtpSeen := false, firstRtp := false, c20 := 0))
    {
      SetSpeaker(u, p);
      ResetGrant(false);
      EnterTaken();
    }

    method ArbReqIdle(u: User, p: nat)
      modifies this
      ensures Now() == S.ArbReqIdle(old(Now()), u, p)
    {
      if g != G.Idle { return; }
      if |members| <= 1 {
        PartA(u, NewMsg(Mt.Deny, None, DENY_ONLY_ONE, 0));
        return;
      }
      if PartOf(d, u).retry {
        PartA(u, NewMsg(Mt.Deny, None, DENY_RETRY_AFTER, 0));
        return;
      }
      Grant(u, p);
    }

    method ArbReqPermitted(u: User, t2Left: nat)
      modifies this
      ensures Now() == S.ArbReqPermitted(old(Now()), u, t2Left)
    {
      if g == G.Taken && speaker == Some(u) {
        PartA(u, NewMsg(Mt.Granted, None, sprio, if firstRtp then t2Left else t2Secs));
      }
    }

    method ArbPreempt(u: User, p: nat)
      modifies this
      ensures Now() == S.ArbPreempt(old(Now()), u, p)
    {
      if g == G.Taken {
        queue := [Waiter(u, p, true)] + queue;
        var sp := speaker.GetOr(0);
        PrevokeEnter(sp, REVOKE_PREEMPTED);
        PartA(u, NewMsg(Mt.Qinfo, None, 1, p));
      }
    }

    method ArbRel(u: User)
      modifies this
      ensures Now() == S.ArbRel(old(Now()), u)
    {
      if g == G.Taken && speaker == Some(u) {
        prev := Some(u);
        IdleEnter();
      } else if g == G.Prevoke && revoking == Some(u) {
        prev := Some(u);
        IdleEnter();
      }
    }

    method ArbRtp(u: User)
      modifies this
      ensures Now() == S.ArbRtp(old(Now()), u)
    {
      if g == G.Taken && speaker == Some(u) {
        rtpSeen := true;
        firstRtp := true;
      }
    }

    method Revoke3(u: User)
      modifies this
      ensures Now() == S.Revoke3(old(Now()), u)
    {
      SetRecord(u, PartOf(d, u).(rcause := REVOKE_NO_PERMISSION));
      SendE(u, P.NpSends, NewMsg(Mt.Revoke, None, REVOKE_NO_PERMISSION, 0));
    }

    method TakenReq(u: User, p: nat)
      modifies this
      ensures Now() == S.TakenReq(old(Now()), u, p)
    {
      var holderPrio := if g == G.Taken then sprio else rprio;
      if PartOf(d, u).retry {
        Send(u, Mt.Deny, None, DENY_RETRY_AFTER, 0);
      } else if InQ(queue, u) {
        Send(u, Mt.Qinfo, None, Pos(queue, u), QPrio(queue, u));
      } else if p > holderPrio && !PreQ(queue) {
        ArbPreempt(u, p);
      } else if p > holderPrio {
        // a preempting waiter is in the queue already: dropped
      } else if |queue| >= qmax {
        Send(u, Mt.Deny, None, DENY_QUEUE_FULL, 0);
      } else {
        InsertQ(Waiter(u, p, false));
        Send(u, Mt.Qinfo, None, Pos(queue, u), p);
      }
    }

    method NpIdleRelease(u: User)
      modifies this
      ensures Now() == S.NpIdleC(old(Now()), u, NewMsg(Mt.Release, None, 0, 0))
    {
      Send(u, Mt.Ack, None, ACK_OF_RELEASE, 0);
      Dequeue(u);
      Send(u, Mt.Idle, prev, 0, 0);
    }

    method NpIdleC(u: User, ev: Msg)
      modifies this
      ensures Now() == S.NpIdleC(old(Now()), u, ev)
    {
      match ev.t
      case Request => ArbReqIdle(u, ev.n);
      case Release => NpIdleRelease(u);
      case Rtp => if PartOf(d, u).released { Revoke3(u); }
      case _ =>
    }

    method NpTakenRelease(u: User)
      modifies this`d, this`queue
      ensures Now() == S.NpTakenC(old(Now()), u, NewMsg(Mt.Release, None, 0, 0))
    {
      Send(u, Mt.Ack, None, ACK_OF_RELEASE, 0);
      SetRecord(u, PartOf(d, u).(c21 := 1));
      Dequeue(u);
      Send(u, Mt.Taken, HolderNow(), 0, 0);
    }

    method NpTakenC(u: User, ev: Msg)
      modifies this
      ensures Now() == S.NpTakenC(old(Now()), u, ev)
    {
      match ev.t
      case Request => TakenReq(u, ev.n);
      case Release => NpTakenRelease(u);
      case Ack => if ev.n == ACK_OF_TAKEN { SetRecord(u, PartOf(d, u).(c21 := 0)); }
      case QposReq => Send(u, Mt.Qinfo, None, Pos(queue, u), QPrio(queue, u));
      case Rtp => Revoke3(u);
      case _ =>
    }

    method PermittedC(u: User, ev: Msg, t2Left: nat)
      modifies this
      ensures Now() == S.PermittedC(old(Now()), u, ev, t2Left)
    {
      match ev.t
      case Release =>
        SetRecord(u, PartOf(d, u).(released := true));
        Send(u, Mt.Ack, None, ACK_OF_RELEASE, 0);
        ArbRel(u);
      case Request => ArbReqPermitted(u, t2Left);
      case Rtp => ArbRtp(u);
      case _ =>
    }

    method PrevokeC(u: User, ev: Msg)
      modifies this
      ensures Now() == S.PrevokeC(old(Now()), u, ev)
    {
      match ev.t
      case Release =>
        Send(u, Mt.Ack, None, ACK_OF_RELEASE, 0);
        ArbRel(u);
      case Rtp => ArbRtp(u);
      case _ =>
    }

    method NpSendsC(u: User, ev: Msg)
      modifies this
      ensures Now() == S.NpSendsC(old(Now()), u, ev)
    {
      if ev.t == Mt.Release {
        var taken := PartOf(d, u).gTaken;
        Send(u, Mt.Ack, None, ACK_OF_RELEASE, 0);
        if taken {
          SendE(u, P.NpTaken, NewMsg(Mt.Taken, HolderNow(), 0, 0));
        } else {
          SendE(u, P.NpIdle, NewMsg(Mt.Idle, prev, 0, 0));
        }
      }
    }

    method PartC(u: User, ev: Msg, t2Left: nat)
      modifies this
      ensures Now() == S.PartC(old(Now()), u, ev, t2Left)
    {
      match PartOf(d, u).st
      case Some(NpIdle) => NpIdleC(u, ev);
      case Some(NpTaken) => NpTakenC(u, ev);
      case Some(Permitted) => PermittedC(u, ev, t2Left);
      case Some(Prevoke) => PrevokeC(u, ev);
      case _ => NpSendsC(u, ev);
    }

    method ServerRx(u: User, m: Msg, half: bool, t2Left: nat)
      modifies this
      ensures Now() == S.ServerRx(old(Now()), u, m, half, t2Left)
    {
      var p := PartOf(d, u);
      if m.t == Mt.Ack && p.st != Some(P.NpTaken) { return; }
      if u !in members && m.t == Mt.Request {
        Send(u, Mt.Deny, None, DENY_OTHER, 0);
        return;
      }
      if u !in members { return; }
      if m.t == Mt.Request && !half {
        Send(u, Mt.Deny, None, DENY_RECV_ONLY, 0);
        return;
      }
      if m.t == Mt.Request && !p.pubRoom {
        Send(u, Mt.Deny, None, DENY_NOT_PUBROOM, 0);
        return;
      }
      if m.t == Mt.Request && !p.perm {
        Send(u, Mt.Deny, None, DENY_NO_PERMISSION, 0);
        return;
      }
      PartC(u, m, t2Left);
    }

    method Rtp(u: User)
      modifies this
      ensures Now() == S.RtpIn(old(Now()), u)
    {
      if u in members { PartC(u, NewMsg(Mt.Rtp, None, 0, 0), 0); }
    }

    method Ready(u: User)
      modifies this
      ensures Now() == S.Ready(old(Now()), u)
    {
      var h := HolderNow();
      if h == Some(u) {
      } else if h.Some? {
        Send(u, Mt.Taken, h, 0, 0);
      } else {
        Send(u, Mt.Idle, prev, 0, 0);
      }
    }

    method PermDown(u: User)
      modifies this
      ensures Now() == S.PermDown(old(Now()), u)
    {
      SetRecord(u, PartOf(d, u).(perm := false));
      if g == G.Taken && speaker == Some(u) {
        PrevokeEnter(u, REVOKE_NO_PERMISSION);
      } else if InQ(queue, u) {
        Dequeue(u);
        PartA(u, NewMsg(Mt.Deny, None, DENY_NO_PERMISSION, 0));
      }
    }

    method Away(u: User)
      requires Ranked(queue)
      modifies this
      ensures Now() == S.Away(old(Now()), u)
    {
      if g == G.Taken && speaker == Some(u) {
        prev := Some(u);
        IdleEnter();
      } else if g == G.Prevoke && revoking == Some(u) {
      } else if InQ(queue, u) {
        Dequeue(u);
      } else {
        DequeueRanked(queue, u);
      }
    }

    method Leave(u: User)
      requires Ranked(queue)
      modifies this
      ensures Now() == S.Leave(old(Now()), u)
    {
      SetRecord(u, PartOf(d, u).(pubRoom := false));
      Away(u);
      members := members - {u};
      SetRecord(u, PartOf(d, u).(retry := false, st := Some(P.Releasing)));
    }

    method PubAway(u: User)
      requires Ranked(queue)
      modifies this
      ensures Now() == S.PubAway(old(Now()), u)
    {
      SetRecord(u, PartOf(d, u).(pubRoom := false));
      Away(u);
    }

    method AddMember(u: User, perm: bool)
      modifies this`members, this`d
      ensures Now() == Joined(old(Now()), u, perm)
    {
      members := members + {u};
      var taken := HolderNow().Some?;
      SetRecord(u, PartOf(d, u).(st := Some(if taken then P.NpTaken else P.NpIdle), gTaken := taken,
                                 pubRoom := false, perm := perm, retry := false, released := false, rcause := 0));
    }

    method Join(u: User, perm: bool)
      modifies this
      ensures Now() == S.Join(old(Now()), u, perm)
    {
      ghost var f := Now();
      if g == G.Prevoke && revoking == Some(u) {
        prev := revoking;
        IdleEnter();
      }
      ghost var f1 := Now();
      assert f1 == if f.g == G.Prevoke && f.revoking == Some(u) then S.IdleEnter(f.(prev := f.revoking)) else f;
      AddMember(u, perm);
      assert S.Join(f, u, perm) == Joined(f1, u, perm);
    }

    method FireT1()
      modifies this
      ensures Now() == S.FireT1(old(Now()))
    {
      if g == G.Taken { prev := speaker; } else { prev := revoking; }
      IdleEnter();
    }

    method FireT2()
      modifies this
      ensures Now() == S.FireT2(old(Now()))
    {
      var u := speaker.GetOr(0);
      SetRecord(u, PartOf(d, u).(retry := true));
      PrevokeEnter(u, REVOKE_TOO_LONG);
    }

    method FireT3()
      modifies this
      ensures Now() == S.FireT3(old(Now()))
    {
      prev := revoking;
      IdleEnter();
    }

    method FireT7()
      modifies this`c7, this`d
      ensures Now() == S.FireT7(old(Now()))
    {
      c7 := c7 + 1;
      Fan(NewMsg(Mt.Idle, prev, 0, 0), {});
    }

    method FireT20()
      modifies this`c20, this`d
      ensures Now() == S.FireT20(old(Now()))
    {
      if c20 < C20 {
        c20 := c20 + 1;
        PartA(speaker.GetOr(0), NewMsg(Mt.Granted, None, sprio, t2Secs));
      } else {
        c20 := c20 + 1;
      }
    }

    method FireT8(u: User)
      modifies this`d
      ensures Now() == S.FireT8(old(Now()), u)
    {
      var p := PartOf(d, u);
      SetRecord(u, p.(c8 := p.c8 + 1));
      if p.st == Some(P.Prevoke) {
        Send(u, Mt.Revoke, None, p.rcause, 0);
      } else {
        Send(u, Mt.Revoke, None, REVOKE_NO_PERMISSION, 0);
      }
    }

    method FireT21(u: User)
      modifies this`d
      ensures Now() == S.FireT21(old(Now()), u)
    {
      var p := PartOf(d, u);
      SetRecord(u, p.(c21 := p.c21 + 1));
      if p.c21 < C21 { Send(u, Mt.Taken, HolderNow(), 0, 0); }
    }

    method Fire(t: Timer)
      modifies this
      ensures Now() == S.Fire(old(Now()), t)
    {
      match t
      case T1 => FireT1();
      case T2 => FireT2();
      case T3 => FireT3();
      case T7 => FireT7();
      case T20 => FireT20();
      case T8(u) => FireT8(u);
      case T21(u) => FireT21(u);
      case T9(u) => SetRecord(u, PartOf(d, u).(retry := false));
    }

    /** One event: the step function, the invariant, truthful messages and the effects. */
    method Step(e: Event)
      requires Valid() && Enabled(Now(), e)
      modifies this
      ensures Now() == Apply(old(Now()), e)
      ensures Valid() && OutOk(Now())
    {
      StepGood(Now(), e);
      fx := [];
      d := d.(out := []);
      match e
      case OnRx(u, m, half, t2Left) => ServerRx(u, m, half, t2Left);
      case OnRtp(u) => Rtp(u);
      case OnReady(u) => Ready(u);
      case OnPermDown(u) => PermDown(u);
      case OnPermUp(u) => SetRecord(u, PartOf(d, u).(perm := true));
      case OnPubSelect(u) => SetRecord(u, PartOf(d, u).(pubRoom := true));
      case OnPubAway(u) => PubAway(u);
      case OnLeave(u) => Leave(u);
      case OnJoin(u, perm) => Join(u, perm);
      case Tick(t) => Fire(t);
    }

    /** Fires armed timers, in any order, until none is left: the floor comes to rest. */
    method RunDown()
      requires Valid()
      modifies this
      ensures Valid() && (forall t :: !Armed(Now(), t))
      ensures g == G.Idle && queue == [] && HolderNow() == None
    {
      var armed := ArmedSet(Now());
      ArmedSetLists(Now());
      while armed != {}
        invariant Valid() && forall t :: t in armed <==> Armed(Now(), t)
        decreases FloorTimers.Turns(Now()), FloorTimers.Phase(Now()), FloorTimers.Repeats(Now())
      {
        var t :| t in armed;
        FloorTimers.TimerDescends(Now(), t);
        Step(Tick(t));
        armed := ArmedSet(Now());
        ArmedSetLists(Now());
      }
      FloorTimers.QuietIsIdle(Now());
    }
  }
}
