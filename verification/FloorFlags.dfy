/** Membership and the flags that entitle a user to ask, as functions of the events alone. */
module FloorFlags {
  import opened Wrappers
  import opened FloorSpec
  import FloorRuns
  import FloorLaws

  // ---------------------------------------------------------------- the history

  /** Who has joined and not left since. */
  function Present(es: seq<Event>): set<User> {
    if es == [] then {} else
    var (m, e) := (Present(es[..|es| - 1]), es[|es| - 1]);
    if e.OnJoin? then m + {e.u} else if e.OnLeave? then m - {e.u} else m
  }

  /** Whether u may talk: the last word of its joining and of changes of permission. */
  function MayTalk(es: seq<Event>, u: User): bool {
    if es == [] then false else
    var (b, e) := (MayTalk(es[..|es| - 1], u), es[|es| - 1]);
    if e.OnJoin? && e.u == u then e.perm else if e.OnPermUp? && e.u == u then true else if e.OnPermDown? && e.u == u then false else b
  }

  /** Whether u publishes in this room: it selected it and has not gone, left or joined anew since. */
  function Publishes(es: seq<Event>, u: User): bool {
    if es == [] then false else
    var (b, e) := (Publishes(es[..|es| - 1], u), es[|es| - 1]);
    if e.OnPubSelect? && e.u == u then true else if (e.OnPubAway? || e.OnLeave? || e.OnJoin?) && e.u == u then false else b
  }

  /** Whether u is barred from asking: it spoke for too long, and neither the bar ran out nor did it leave or join since. */
  function Barred(f: State, es: seq<Event>, u: User): bool {
    if es == [] then PartOf(f.d, u).retry else
    var (b, e) := (Barred(f, es[..|es| - 1], u), es[|es| - 1]);
    if e == Tick(T2) && Run(f, es[..|es| - 1]).speaker == Some(u) then true
    else if e == Tick(T9(u)) || ((e.OnLeave? || e.OnJoin?) && e.u == u) then false else b
  }

  // ---------------------------------------------------------------- what keeps the flags

  datatype Flags = Flags(perm: bool, pubRoom: bool, retry: bool)

  function FlagsOf(d: Desk, u: User): Flags {
    FlagsIn(PartOf(d, u))
  }

  ghost predicate Keeps(d: Desk, c: Desk) { forall u :: FlagsOf(d, u) == FlagsOf(c, u) }

  function FlagsIn(p: Part): Flags { Flags(p.perm, p.pubRoom, p.retry) }

  /** A record with the same flags. */
  lemma WriteKeeps(d: Desk, u: User, p: Part)
    requires FlagsIn(p) == FlagsIn(PartOf(d, u))
    ensures Keeps(d, Write(d, u, p))
  {
  }

  lemma SayKeeps(d: Desk, u: User, t: Mt, a: Option<User>, n: nat, x: nat)
    ensures Keeps(d, Say(d, u, t, a, n, x)) && Say(d, u, t, a, n, x).parts == d.parts
  {
  }

  lemma ReactKeeps(p: Part, ev: Msg)
    ensures React(p, ev).write.Some? ==> FlagsIn(React(p, ev).write.value) == FlagsIn(p)
  {
  }

  lemma TellKeeps(d: Desk, u: User, ev: Msg)
    ensures Keeps(d, Tell(d, u, ev))
  {
    var r := React(PartOf(d, u), ev);
    ReactKeeps(PartOf(d, u), ev);
    var d1 := if r.write.Some? then Write(d, u, r.write.value) else d;
    if r.write.Some? { WriteKeeps(d, u, r.write.value); }
    if r.say.Some? { SayKeeps(d1, u, r.say.value.t, r.say.value.a, r.say.value.n, r.say.value.d); }
    assert Tell(d, u, ev) == if r.say.Some? then Say(d1, u, r.say.value.t, r.say.value.a, r.say.value.n, r.say.value.d) else d1;
    KeepsThen(d, d1, Tell(d, u, ev));
  }

  lemma KeepsThen(d: Desk, d1: Desk, d2: Desk)
    requires Keeps(d, d1) && Keeps(d1, d2)
    ensures Keeps(d, d2)
  {
    forall u ensures FlagsOf(d, u) == FlagsOf(d2, u) { assert FlagsOf(d, u) == FlagsOf(d1, u); }
  }

  lemma {:induction false} TellAllKeeps(d: Desk, us: seq<User>, ev: Msg)
    ensures Keeps(d, TellAll(d, us, ev))
    decreases us
  {
    if us != [] {
      TellKeeps(d, us[0], ev);
      TellAllKeeps(Tell(d, us[0], ev), us[1..], ev);
    }
  }

  lemma FanKeeps(f: State, ev: Msg, skip: set<User>)
    ensures Keeps(f.d, Fan(f, ev, skip).d)
  {
    var s := (f.d.seqNo + 1) % 65536;
    var us := Ascending(f.members - skip);
    assert Keeps(f.d, f.d.(seqNo := s));
    TellAllKeeps(f.d.(seqNo := s), us, ev.(q := s));
    TellAllKeeps(f.d, us, ev);
  }

  lemma EnterTakenKeeps(f: State)
    ensures Keeps(f.d, EnterTaken(f).d) && EnterTaken(f).members == f.members
  {
    var sp := f.speaker.GetOr(0);
    var ev := NewMsg(Mt.Granted, None, f.sprio, f.t2Secs);
    TellKeeps(f.d, sp, ev);
    FanKeeps(PartA(f.(idleBcast := false), sp, ev), NewMsg(Mt.Taken, Some(sp), 0, 0), {sp});
  }

  lemma IdleEnterKeeps(f: State)
    ensures Keeps(f.d, IdleEnter(f).d) && IdleEnter(f).members == f.members
  {
    if f.queue == [] {
      var f1 := f.(g := G.Idle, speaker := None, revoking := None, firstRtp := false, idleBcast := true, c7 := 1);
      FanKeeps(f1, NewMsg(Mt.Idle, f.prev, 0, 0), {});
    } else {
      var w := f.queue[0];
      EnterTakenKeeps(f.(queue := f.queue[1..], g := G.Taken, speaker := Some(w.u), sprio := w.p, revoking := None,
                         succ := true, rtpSeen := false, firstRtp := false, c20 := 1));
    }
  }

  ghost predicate Quiet(f: State, r: State) { Keeps(f.d, r.d) && r.members == f.members }

  lemma QuietThen(f: State, g: State, r: State)
    requires Quiet(f, g) && Quiet(g, r)
    ensures Quiet(f, r)
  {
  }

  lemma SendQuiet(f: State, u: User, t: Mt, a: Option<User>, n: nat, x: nat)
    ensures Quiet(f, Send(f, u, t, a, n, x))
  {
    SayKeeps(f.d, u, t, a, n, x);
  }

  lemma SetQuiet(f: State, u: User, p: Part)
    requires FlagsIn(p) == FlagsIn(PartOf(f.d, u))
    ensures Quiet(f, SetPart(f, u, p))
  {
    WriteKeeps(f.d, u, p);
  }

  lemma SendEQuiet(f: State, u: User, to: P, m: Msg)
    ensures Quiet(f, SendE(f, u, to, m))
  {
    var f1 := SetPart(f, u, Entered(PartOf(f.d, u), to));
    SetQuiet(f, u, Entered(PartOf(f.d, u), to));
    SendQuiet(f1, u, m.t, m.a, m.n, m.d);
    QuietThen(f, f1, SendE(f, u, to, m));
  }

  lemma PartAQuiet(f: State, u: User, ev: Msg)
    ensures Quiet(f, PartA(f, u, ev))
  {
    TellKeeps(f.d, u, ev);
  }

  lemma TakenReqQuiet(f: State, u: User, p: nat)
    ensures Quiet(f, TakenReq(f, u, p))
  {
    var r := TakenReq(f, u, p);
    if PartOf(f.d, u).retry {
      SendQuiet(f, u, Mt.Deny, None, DENY_RETRY_AFTER, 0);
    } else if InQ(f.queue, u) {
      SendQuiet(f, u, Mt.Qinfo, None, Pos(f.queue, u), QPrio(f.queue, u));
    } else if p > HolderPrio(f) && !PreQ(f.queue) {
      ArbPreemptQuiet(f, u, p);
    } else if p > HolderPrio(f) {
    } else if |f.queue| >= f.qmax {
      SendQuiet(f, u, Mt.Deny, None, DENY_QUEUE_FULL, 0);
    } else {
      var f1 := f.(queue := InsertQ(f.queue, Waiter(u, p, false)));
      SendQuiet(f1, u, Mt.Qinfo, None, Pos(f1.queue, u), p);
    }
  }

  lemma ArbPreemptQuiet(f: State, u: User, p: nat)
    ensures Quiet(f, ArbPreempt(f, u, p))
  {
    if f.g == G.Taken {
      var f1 := f.(queue := [Waiter(u, p, true)] + f.queue);
      var f2 := PrevokeEnter(f1, f.speaker.GetOr(0), REVOKE_PREEMPTED);
      PrevokeEnterQuiet(f1, f.speaker.GetOr(0), REVOKE_PREEMPTED);
      PartAQuiet(f2, u, NewMsg(Mt.Qinfo, None, 1, p));
      QuietThen(f1, f2, PartA(f2, u, NewMsg(Mt.Qinfo, None, 1, p)));
    }
  }

  lemma PrevokeEnterQuiet(f: State, u: User, cause: nat)
    ensures Quiet(f, PrevokeEnter(f, u, cause))
  {
    TellKeeps(f.d, u, NewMsg(Mt.Revoke, None, cause, 0));
  }

  lemma ArbRelQuiet(f: State, u: User)
    ensures Quiet(f, ArbRel(f, u))
  {
    IdleEnterKeeps(f.(prev := Some(u)));
  }

  lemma NpIdleQuiet(f: State, u: User, m: Msg)
    ensures Quiet(f, NpIdleC(f, u, m))
  {
    match m.t
    case Request =>
      EnterTakenKeeps(f.(g := G.Taken, speaker := Some(u), sprio := m.n, succ := false, rtpSeen := false, firstRtp := false, c20 := 0));
      PartAQuiet(f, u, NewMsg(Mt.Deny, None, DENY_ONLY_ONE, 0));
      PartAQuiet(f, u, NewMsg(Mt.Deny, None, DENY_RETRY_AFTER, 0));
    case Release =>
      var f1 := Send(f, u, Mt.Ack, None, ACK_OF_RELEASE, 0);
      var f2 := f1.(queue := Dequeue(f.queue, u));
      SendQuiet(f, u, Mt.Ack, None, ACK_OF_RELEASE, 0);
      SendQuiet(f2, u, Mt.Idle, f.prev, 0, 0);
      QuietThen(f, f2, NpIdleC(f, u, m));
    case Rtp => Revoke3Quiet(f, u);
    case _ =>
  }

  lemma NpTakenQuiet(f: State, u: User, m: Msg)
    ensures Quiet(f, NpTakenC(f, u, m))
  {
    match m.t
    case Request => TakenReqQuiet(f, u, m.n);
    case Release => TakenReleaseQuiet(f, u, m);
    case Ack => SetQuiet(f, u, PartOf(f.d, u).(c21 := 0));
    case QposReq => SendQuiet(f, u, Mt.Qinfo, None, Pos(f.queue, u), QPrio(f.queue, u));
    case Rtp => Revoke3Quiet(f, u);
    case _ =>
  }

  lemma TakenReleaseQuiet(f: State, u: User, m: Msg)
    requires m.t == Mt.Release
    ensures Quiet(f, NpTakenC(f, u, m))
  {
    var f1 := Send(f, u, Mt.Ack, None, ACK_OF_RELEASE, 0);
    var f2 := SetPart(f1, u, PartOf(f.d, u).(c21 := 1));
    var f3 := f2.(queue := Dequeue(f.queue, u));
    SendQuiet(f, u, Mt.Ack, None, ACK_OF_RELEASE, 0);
    SetQuiet(f1, u, PartOf(f1.d, u).(c21 := 1));
    QuietThen(f, f1, f3);
    SendQuiet(f3, u, Mt.Taken, Holder(f), 0, 0);
    QuietThen(f, f3, NpTakenC(f, u, m));
  }

  lemma Revoke3Quiet(f: State, u: User)
    ensures Quiet(f, Revoke3(f, u))
  {
    var f1 := SetPart(f, u, PartOf(f.d, u).(rcause := REVOKE_NO_PERMISSION));
    SetQuiet(f, u, PartOf(f.d, u).(rcause := REVOKE_NO_PERMISSION));
    SendEQuiet(f1, u, P.NpSends, NewMsg(Mt.Revoke, None, REVOKE_NO_PERMISSION, 0));
    QuietThen(f, f1, Revoke3(f, u));
  }

  lemma PermittedQuiet(f: State, u: User, m: Msg, t2Left: nat)
    ensures Quiet(f, PermittedC(f, u, m, t2Left))
  {
    match m.t
    case Release =>
      var f1 := SetPart(f, u, PartOf(f.d, u).(released := true));
      var f2 := Send(f1, u, Mt.Ack, None, ACK_OF_RELEASE, 0);
      SetQuiet(f, u, PartOf(f.d, u).(released := true));
      SendQuiet(f1, u, Mt.Ack, None, ACK_OF_RELEASE, 0);
      QuietThen(f, f1, f2);
      ArbRelQuiet(f2, u);
      QuietThen(f, f2, ArbRel(f2, u));
    case Request => PartAQuiet(f, u, NewMsg(Mt.Granted, None, f.sprio, if f.firstRtp then t2Left else f.t2Secs));
    case _ =>
  }

  lemma PrevokeQuiet(f: State, u: User, m: Msg)
    ensures Quiet(f, PrevokeC(f, u, m))
  {
    var f1 := Send(f, u, Mt.Ack, None, ACK_OF_RELEASE, 0);
    SendQuiet(f, u, Mt.Ack, None, ACK_OF_RELEASE, 0);
    ArbRelQuiet(f1, u);
    QuietThen(f, f1, ArbRel(f1, u));
  }

  lemma NpSendsQuiet(f: State, u: User, m: Msg)
    ensures Quiet(f, NpSendsC(f, u, m))
  {
    var f1 := Send(f, u, Mt.Ack, None, ACK_OF_RELEASE, 0);
    SendQuiet(f, u, Mt.Ack, None, ACK_OF_RELEASE, 0);
    SendEQuiet(f1, u, P.NpTaken, NewMsg(Mt.Taken, Holder(f), 0, 0));
    SendEQuiet(f1, u, P.NpIdle, NewMsg(Mt.Idle, f.prev, 0, 0));
    if m.t == Mt.Release { QuietThen(f, f1, NpSendsC(f, u, m)); }
  }

  lemma PartCQuiet(f: State, u: User, m: Msg, t2Left: nat)
    ensures Quiet(f, PartC(f, u, m, t2Left))
  {
    match PartOf(f.d, u).st
    case Some(NpIdle) => NpIdleQuiet(f, u, m);
    case Some(NpTaken) => NpTakenQuiet(f, u, m);
    case Some(Permitted) => PermittedQuiet(f, u, m, t2Left);
    case Some(Prevoke) => PrevokeQuiet(f, u, m);
    case _ => NpSendsQuiet(f, u, m);
  }

  // ---------------------------------------------------------------- every event

  /** The flags of everybody and the members after event e. */
  ghost predicate FlagStep(f: State, r: State, e: Event) {
    && r.members == (if e.OnJoin? then f.members + {e.u} else if e.OnLeave? then f.members - {e.u} else f.members)
    && forall u :: FlagsOf(r.d, u) == FlagAfter(f, FlagsOf(f.d, u), e, u)
  }

  function FlagAfter(f: State, b: Flags, e: Event, u: User): Flags {
    match e
    case OnJoin(v, perm) => if v == u then Flags(perm, false, false) else b
    case OnLeave(v) => if v == u then b.(pubRoom := false, retry := false) else b
    case OnPubAway(v) => if v == u then b.(pubRoom := false) else b
    case OnPubSelect(v) => if v == u then b.(pubRoom := true) else b
    case OnPermUp(v) => if v == u then b.(perm := true) else b
    case OnPermDown(v) => if v == u then b.(perm := false) else b
    case Tick(t) => if t == T2 && f.speaker == Some(u) then b.(retry := true) else if t == T9(u) then b.(retry := false) else b
    case _ => b
  }

  lemma AwayQuiet(f: State, u: User)
    ensures Quiet(f, Away(f, u))
  {
    IdleEnterKeeps(f.(prev := Some(u)));
  }

  lemma LeaveStep(f: State, u: User)
    ensures FlagStep(f, PubAway(f, u), OnPubAway(u)) && FlagStep(f, Leave(f, u), OnLeave(u))
  {
    var f1 := SetPart(f, u, PartOf(f.d, u).(pubRoom := false));
    AwayQuiet(f1, u);
    var r := PubAway(f, u);
    forall x ensures FlagsOf(r.d, x) == FlagAfter(f, FlagsOf(f.d, x), OnPubAway(u), x) { assert FlagsOf(r.d, x) == FlagsOf(f1.d, x); }
    var l := Leave(f, u);
    forall x ensures FlagsOf(l.d, x) == FlagAfter(f, FlagsOf(f.d, x), OnLeave(u), x) {
      assert FlagsOf(r.d, x) == FlagAfter(f, FlagsOf(f.d, x), OnPubAway(u), x);
    }
  }

  lemma JoinedStep(f: State, u: User, perm: bool)
    ensures FlagStep(f, Joined(f, u, perm), OnJoin(u, perm))
  {
  }

  /** A step from a state with the same flags and members. */
  lemma StepFrom(f: State, f1: State, r: State, e: Event)
    requires Quiet(f, f1) && FlagStep(f1, r, e) && f1.speaker == f.speaker
    ensures FlagStep(f, r, e)
  {
    forall x ensures FlagsOf(r.d, x) == FlagAfter(f, FlagsOf(f.d, x), e, x) {
      assert FlagsOf(r.d, x) == FlagAfter(f1, FlagsOf(f1.d, x), e, x);
      assert FlagsOf(f.d, x) == FlagsOf(f1.d, x);
    }
  }

  lemma JoinStep(f: State, u: User, perm: bool)
    ensures FlagStep(f, Join(f, u, perm), OnJoin(u, perm))
  {
    if f.g == G.Prevoke && f.revoking == Some(u) {
      var f1 := IdleEnter(f.(prev := f.revoking));
      IdleEnterKeeps(f.(prev := f.revoking));
      JoinedStep(f1, u, perm);
      JoinAgain(f, f1, Joined(f1, u, perm), OnJoin(u, perm));
    } else {
      JoinedStep(f, u, perm);
    }
  }

  lemma JoinAgain(f: State, f1: State, r: State, e: Event)
    requires Quiet(f, f1) && FlagStep(f1, r, e) && e.OnJoin?
    ensures FlagStep(f, r, e)
  {
    forall x ensures FlagsOf(r.d, x) == FlagAfter(f, FlagsOf(f.d, x), e, x) {
      assert FlagsOf(r.d, x) == FlagAfter(f1, FlagsOf(f1.d, x), e, x);
      assert FlagsOf(f.d, x) == FlagsOf(f1.d, x);
    }
  }

  lemma PermDownStep(f: State, u: User)
    ensures FlagStep(f, PermDown(f, u), OnPermDown(u))
  {
    var f1 := SetPart(f, u, PartOf(f.d, u).(perm := false));
    var r := PermDown(f, u);
    PrevokeEnterQuiet(f1, u, REVOKE_NO_PERMISSION);
    TellKeeps(f1.d, u, NewMsg(Mt.Deny, None, DENY_NO_PERMISSION, 0));
    assert Quiet(f1, r);
    forall x ensures FlagsOf(r.d, x) == FlagAfter(f, FlagsOf(f.d, x), OnPermDown(u), x) { assert FlagsOf(r.d, x) == FlagsOf(f1.d, x); }
  }

  lemma T2Step(f: State)
    requires f.speaker.Some?
    ensures FlagStep(f, FireT2(f), Tick(T2))
  {
    var u := f.speaker.value;
    var f1 := SetPart(f, u, PartOf(f.d, u).(retry := true));
    PrevokeEnterQuiet(f1, u, REVOKE_TOO_LONG);
    var r := FireT2(f);
    forall x ensures FlagsOf(r.d, x) == FlagAfter(f, FlagsOf(f.d, x), Tick(T2), x) { assert FlagsOf(r.d, x) == FlagsOf(f1.d, x); }
  }

  lemma SetSendQuiet(f: State, u: User, p: Part, t: Mt, a: Option<User>, n: nat)
    requires FlagsIn(p) == FlagsIn(PartOf(f.d, u))
    ensures Quiet(f, Send(SetPart(f, u, p), u, t, a, n, 0))
  {
    SetQuiet(f, u, p);
    SendQuiet(SetPart(f, u, p), u, t, a, n, 0);
    QuietThen(f, SetPart(f, u, p), Send(SetPart(f, u, p), u, t, a, n, 0));
  }

  lemma T8Sends(f: State, u: User, p: Part, n: nat)
    requires p == PartOf(f.d, u).(c8 := PartOf(f.d, u).c8 + 1)
    requires n == if p.st == Some(P.Prevoke) then p.rcause else REVOKE_NO_PERMISSION
    ensures FireT8(f, u) == Send(SetPart(f, u, p), u, Mt.Revoke, None, n, 0)
  {
  }

  lemma T8Quiet(f: State, u: User)
    ensures Quiet(f, FireT8(f, u))
  {
    var p := PartOf(f.d, u);
    var n := if p.st == Some(P.Prevoke) then p.rcause else REVOKE_NO_PERMISSION;
    T8Sends(f, u, p.(c8 := p.c8 + 1), n);
    SetSendQuiet(f, u, p.(c8 := p.c8 + 1), Mt.Revoke, None, n);
  }

  lemma T9Step(f: State, u: User)
    ensures FlagStep(f, FireT9(f, u), Tick(T9(u)))
  {
  }

  lemma T21Quiet(f: State, u: User)
    ensures Quiet(f, FireT21(f, u))
  {
    var p := PartOf(f.d, u);
    SetQuiet(f, u, p.(c21 := p.c21 + 1));
    SetSendQuiet(f, u, p.(c21 := p.c21 + 1), Mt.Taken, Holder(f), 0);
  }

  lemma GroupTickQuiet(f: State, t: Timer)
    requires t in {T1, T3, T7, T20}
    ensures Quiet(f, Fire(f, t))
  {
    match t
    case T1 => IdleEnterKeeps(f.(prev := if f.g == G.Taken then f.speaker else f.revoking));
    case T3 => IdleEnterKeeps(f.(prev := f.revoking));
    case T7 => FanKeeps(f.(c7 := f.c7 + 1), NewMsg(Mt.Idle, f.prev, 0, 0), {});
    case T20 => PartAQuiet(f.(c20 := f.c20 + 1), f.speaker.GetOr(0), NewMsg(Mt.Granted, None, f.sprio, f.t2Secs));
  }

  lemma QuietStep(f: State, r: State, t: Timer)
    requires Quiet(f, r) && t != T2 && !t.T9?
    ensures FlagStep(f, r, Tick(t))
  {
    forall x ensures FlagsOf(r.d, x) == FlagAfter(f, FlagsOf(f.d, x), Tick(t), x) { assert FlagsOf(r.d, x) == FlagsOf(f.d, x); }
  }

  lemma TickStep(f: State, t: Timer)
    requires t == T2 ==> f.speaker.Some?
    ensures FlagStep(f, Fire(f, t), Tick(t))
  {
    if t == T2 {
      T2Step(f);
    } else if t.T9? {
      T9Step(f, t.u);
    } else {
      if t.T8? { T8Quiet(f, t.u); } else if t.T21? { T21Quiet(f, t.u); } else { GroupTickQuiet(f, t); }
      QuietStep(f, Fire(f, t), t);
    }
  }

  lemma FlagStepOk(f: State, e: Event)
    requires e == Tick(T2) ==> f.speaker.Some?
    ensures FlagStep(f, Apply(f, e), e)
  {
    var c := f.(fx := [], d := f.d.(out := []));
    assert Keeps(f.d, c.d);
    CleanStep(c, e);
    FloorLaws.SameStart(f, c, e);
    StepFrom(f, c, Apply(f, e), e);
  }

  lemma RxQuiet(f: State, u: User, m: Msg, half: bool, t2Left: nat)
    ensures Quiet(f, ServerRx(f, u, m, half, t2Left))
  {
    PartCQuiet(f, u, m, t2Left);
    SendQuiet(f, u, Mt.Deny, None, DENY_OTHER, 0);
    SendQuiet(f, u, Mt.Deny, None, DENY_RECV_ONLY, 0);
    SendQuiet(f, u, Mt.Deny, None, DENY_NOT_PUBROOM, 0);
    SendQuiet(f, u, Mt.Deny, None, DENY_NO_PERMISSION, 0);
  }

  lemma ReadyQuiet(f: State, u: User)
    ensures Quiet(f, Ready(f, u))
  {
    SendQuiet(f, u, Mt.Taken, Holder(f), 0, 0);
    SendQuiet(f, u, Mt.Idle, f.prev, 0, 0);
  }

  lemma UpStep(f: State, u: User)
    ensures FlagStep(f, PermUp(f, u), OnPermUp(u)) && FlagStep(f, PubSelect(f, u), OnPubSelect(u))
  {
  }

  lemma CleanStep(c: State, e: Event)
    requires c.fx == [] && c.d.out == [] && (e == Tick(T2) ==> c.speaker.Some?)
    ensures FlagStep(c, Apply(c, e), e)
  {
    assert c == c.(fx := [], d := c.d.(out := []));
    match e
    case OnRx(u, m, half, t2Left) => RxQuiet(c, u, m, half, t2Left);
    case OnRtp(u) => PartCQuiet(c, u, NewMsg(Mt.Rtp, None, 0, 0), 0);
    case OnReady(u) => ReadyQuiet(c, u);
    case OnPermDown(u) => PermDownStep(c, u);
    case OnPermUp(u) => UpStep(c, u);
    case OnPubSelect(u) => UpStep(c, u);
    case OnPubAway(u) => LeaveStep(c, u);
    case OnLeave(u) => LeaveStep(c, u);
    case OnJoin(u, perm) => JoinStep(c, u, perm);
    case Tick(t) => TickStep(c, t);
  }

  // ---------------------------------------------------------------- runs

  /** MAIN: on every run the members are those who joined and have not left since, and everybody's right to ask is
      what the events say: permission, publishing here, and the bar after speaking too long. */
  lemma {:induction false} FlagsAreHistory(qmax: nat, t2Secs: nat, es: seq<Event>)
    requires IsRun(Init(qmax, t2Secs), es)
    ensures var (f0, f) := (Init(qmax, t2Secs), Run(Init(qmax, t2Secs), es));
            && f.members == Present(es)
            && forall u :: FlagsOf(f.d, u) == Flags(MayTalk(es, u), Publishes(es, u), Barred(f0, es, u))
    decreases |es|
  {
    var f0 := Init(qmax, t2Secs);
    if es != [] {
      var (before, e) := (es[..|es| - 1], es[|es| - 1]);
      assert es == before + [e];
      RunSnoc(f0, before, e);
      FlagsAreHistory(qmax, t2Secs, before);
      var f := Run(f0, before);
      FloorRuns.InitInv(qmax, t2Secs);
      FloorRuns.RunInv(f0, before);
      FlagStepOk(f, e);
      HistoryStep(f0, before, e, Apply(f, e));
    }
  }

  lemma HistoryStep(f0: State, es: seq<Event>, e: Event, r: State)
    requires FlagStep(Run(f0, es), r, e) && Run(f0, es).members == Present(es)
    requires forall u :: FlagsOf(Run(f0, es).d, u) == Flags(MayTalk(es, u), Publishes(es, u), Barred(f0, es, u))
    ensures r.members == Present(es + [e])
    ensures forall u :: FlagsOf(r.d, u) == Flags(MayTalk(es + [e], u), Publishes(es + [e], u), Barred(f0, es + [e], u))
  {
    assert (es + [e])[..|es|] == es && (es + [e])[|es|] == e;
    forall u ensures FlagsOf(r.d, u) == Flags(MayTalk(es + [e], u), Publishes(es + [e], u), Barred(f0, es + [e], u)) {
      assert FlagsOf(r.d, u) == FlagAfter(Run(f0, es), FlagsOf(Run(f0, es).d, u), e, u);
    }
  }
}
