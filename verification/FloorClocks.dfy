/** When the timers of the group run: how long a speaker may talk, when its grant is repeated, and when an idle floor
    is announced again. */
module FloorClocks {
  import opened Wrappers
  import opened FloorSpec
  import opened FloorSafety
  import opened FloorLaws
  import FloorRuns

  /** What the group's timers look at besides the state of the floor. */
  datatype Clocks = Clocks(firstRtp: bool, rtpSeen: bool, succ: bool, c20: nat, idleBcast: bool, c7: nat)

  function ClocksOf(f: State): Clocks { Clocks(f.firstRtp, f.rtpSeen, f.succ, f.c20, f.idleBcast, f.c7) }

  /** Media of the speaker arrives. */
  predicate Speaks(f: State, e: Event) {
    && f.g == G.Taken && (e.OnRtp? || (e.OnRx? && e.m.t == Mt.Rtp))
    && f.speaker == Some(e.u) && Stage(f, e.u) in {Some(P.Permitted), Some(P.Prevoke)}
  }

  function ClocksAfter(f: State, e: Event): Clocks {
    var c := ClocksOf(f);
    if GivesUp(f, e) then
      if f.queue == [] then c.(firstRtp := false, idleBcast := true, c7 := 1)
      else Clocks(false, false, true, 1, false, c.c7)
    else if TakesIdle(f, e) then Clocks(false, false, false, 0, false, c.c7)
    else if Speaks(f, e) then c.(firstRtp := true, rtpSeen := true)
    else if e == Tick(T7) then c.(c7 := c.c7 + 1)
    else if e == Tick(T20) then c.(c20 := c.c20 + 1)
    else c
  }

  // ---------------------------------------------------------------- step by step

  lemma IdleEnterClocks(f: State)
    ensures ClocksOf(IdleEnter(f)) == if f.queue == [] then ClocksOf(f).(firstRtp := false, idleBcast := true, c7 := 1)
                                      else Clocks(false, false, true, 1, false, f.c7)
  {
  }

  lemma TakenReqClocks(f: State, u: User, p: nat)
    ensures ClocksOf(TakenReq(f, u, p)) == ClocksOf(f)
  {
  }

  lemma NpTakenClocks(f: State, u: User, m: Msg)
    ensures ClocksOf(NpTakenC(f, u, m)) == ClocksOf(f)
  {
    if m.t == Mt.Request { TakenReqClocks(f, u, m.n); }
  }

  lemma NpSendsClocks(f: State, u: User, m: Msg)
    ensures ClocksOf(NpSendsC(f, u, m)) == ClocksOf(f)
  {
  }

  lemma ReleaseClocks(f: State, u: User, m: Msg, t2Left: nat)
    requires m.t == Mt.Release && Holder(f) == Some(u)
    ensures ClocksOf(PermittedC(f, u, m, t2Left)) == ClocksOf(IdleEnter(f)) == ClocksOf(PrevokeC(f, u, m))
  {
    var f1 := Send(SetPart(f, u, PartOf(f.d, u).(released := true)), u, Mt.Ack, None, ACK_OF_RELEASE, 0).(prev := Some(u));
    var f2 := Send(f, u, Mt.Ack, None, ACK_OF_RELEASE, 0).(prev := Some(u));
    IdleEnterClocks(f1);
    IdleEnterClocks(f2);
    IdleEnterClocks(f);
  }

  lemma IdleAskClocks(f: State, u: User, p: nat)
    requires f.g == G.Idle
    ensures ClocksOf(ArbReqIdle(f, u, p)) ==
              if |f.members| > 1 && !PartOf(f.d, u).retry then Clocks(false, false, false, 0, false, f.c7) else ClocksOf(f)
  {
  }

  lemma NpIdleClocks(f: State, u: User, m: Msg)
    requires m.t != Mt.Request
    ensures ClocksOf(NpIdleC(f, u, m)) == ClocksOf(f)
  {
  }

  lemma HolderClocks(f: State, u: User, m: Msg, half: bool, t2Left: nat)
    requires Inv(f) && u in f.members && Stage(f, u) in {Some(P.Permitted), Some(P.Prevoke)}
    ensures ClocksOf(PartC(f, u, m, t2Left)) == ClocksAfter(f, OnRx(u, m, half, t2Left))
  {
    assert PartOk(f, u);
    if m.t == Mt.Release {
      ReleaseClocks(f, u, m, t2Left);
      IdleEnterClocks(f);
    } else {
      assert PartC(f, u, m, t2Left) == if Stage(f, u) == Some(P.Permitted) then PermittedC(f, u, m, t2Left) else PrevokeC(f, u, m);
      SpeakClocks(f, u, m, t2Left);
    }
  }

  lemma SpeakClocks(f: State, u: User, m: Msg, t2Left: nat)
    requires m.t != Mt.Release
    ensures var c := if m.t == Mt.Rtp && f.g == G.Taken && f.speaker == Some(u) then ClocksOf(f).(firstRtp := true, rtpSeen := true)
                     else ClocksOf(f);
            ClocksOf(PermittedC(f, u, m, t2Left)) == c && ClocksOf(PrevokeC(f, u, m)) == c
  {
  }

  lemma PartCClocks(f: State, u: User, m: Msg, half: bool, t2Left: nat)
    requires Inv(f) && u in f.members && (m.t == Mt.Request ==> Asks(f, OnRx(u, m, half, t2Left)))
    ensures ClocksOf(PartC(f, u, m, t2Left)) == ClocksAfter(f, OnRx(u, m, half, t2Left))
  {
    assert PartOk(f, u);
    match f.d.parts[u].st.value
    case NpIdle => if m.t == Mt.Request { IdleAskClocks(f, u, m.n); } else { NpIdleClocks(f, u, m); }
    case NpTaken => NpTakenClocks(f, u, m);
    case Permitted => HolderClocks(f, u, m, half, t2Left);
    case Prevoke => HolderClocks(f, u, m, half, t2Left);
    case NpSends => NpSendsClocks(f, u, m);
  }

  lemma RxClocks(f: State, u: User, m: Msg, half: bool, t2Left: nat)
    requires Inv(f)
    ensures ClocksOf(ServerRx(f, u, m, half, t2Left)) == ClocksAfter(f, OnRx(u, m, half, t2Left))
  {
    var e := OnRx(u, m, half, t2Left);
    if u in f.members && (m.t == Mt.Request ==> Asks(f, e)) {
      PartCClocks(f, u, m, half, t2Left);
      if m.t == Mt.Ack { AckClocks(f, e); }
    } else {
      OutsiderClocks(f, e);
      assert ClocksOf(ServerRx(f, u, m, half, t2Left)) == ClocksOf(f);
    }
  }

  /** An acknowledgement moves no clock. */
  lemma AckClocks(f: State, e: Event)
    requires e.OnRx? && e.m.t == Mt.Ack
    ensures ClocksAfter(f, e) == ClocksOf(f)
  {
  }

  lemma OutsiderClocks(f: State, e: Event)
    requires Inv(f) && e.OnRx? && (e.u !in f.members || (e.m.t == Mt.Request && !Asks(f, e)))
    ensures ClocksAfter(f, e) == ClocksOf(f)
  {
    assert PartOk(f, e.u);
  }

  lemma RtpClocks(f: State, u: User)
    requires Inv(f)
    ensures ClocksOf(RtpIn(f, u)) == ClocksAfter(f, OnRtp(u))
  {
    var m := NewMsg(Mt.Rtp, None, 0, 0);
    MediaClocks(f, u, m);
    if u in f.members { PartCClocks(f, u, m, true, 0); } else { OutsiderClocks(f, OnRx(u, m, true, 0)); }
  }

  lemma MediaClocks(f: State, u: User, m: Msg)
    requires m.t == Mt.Rtp
    ensures ClocksAfter(f, OnRtp(u)) == ClocksAfter(f, OnRx(u, m, true, 0))
  {
  }

  lemma AwayClocks(f: State, u: User)
    ensures ClocksOf(PubAway(f, u)) == ClocksAfter(f, OnPubAway(u)) == ClocksAfter(f, OnLeave(u)) == ClocksOf(Leave(f, u))
  {
    var f1 := SetPart(f, u, PartOf(f.d, u).(pubRoom := false));
    if f.g == G.Taken && f.speaker == Some(u) { IdleEnterClocks(f1.(prev := Some(u))); }
  }

  lemma JoinClocks(f: State, u: User, perm: bool)
    ensures ClocksOf(Join(f, u, perm)) == ClocksAfter(f, OnJoin(u, perm))
  {
    IdleEnterClocks(f.(prev := f.revoking));
  }

  lemma PermDownClocks(f: State, u: User)
    ensures ClocksOf(PermDown(f, u)) == ClocksOf(f)
  {
  }

  lemma TickClocks(f: State, t: Timer)
    requires Armed(f, t)
    ensures ClocksOf(Fire(f, t)) == ClocksAfter(f, Tick(t))
  {
    match t
    case T1 => IdleEnterClocks(f.(prev := if f.g == G.Taken then f.speaker else f.revoking));
    case T2 => assert Fire(f, t) == FireT2(f);
    case T3 => IdleEnterClocks(f.(prev := f.revoking));
    case _ => ReminderClocks(f, t);
  }

  lemma ReminderClocks(f: State, t: Timer)
    requires t !in {T1, T2, T3}
    ensures ClocksOf(Fire(f, t)) == ClocksAfter(f, Tick(t))
  {
    match t
    case T7 => assert Fire(f, t) == FireT7(f);
    case T20 => assert Fire(f, t) == FireT20(f);
    case _ => PartTimerClocks(f, t);
  }

  lemma PartTimerClocks(f: State, t: Timer)
    requires t.T8? || t.T9? || t.T21?
    ensures ClocksOf(Fire(f, t)) == ClocksOf(f) == ClocksAfter(f, Tick(t))
  {
  }

  lemma StepClocks(f: State, e: Event)
    requires Inv(f) && Fresh(f) && Enabled(f, e)
    ensures ClocksOf(Apply(f, e)) == ClocksAfter(f, e)
  {
    assert f == f.(fx := [], d := f.d.(out := []));
    match e
    case OnRx(u, m, half, t2Left) => RxClocks(f, u, m, half, t2Left);
    case OnRtp(u) => RtpClocks(f, u);
    case OnReady(u) => assert Apply(f, e) == Ready(f, u);
    case OnPermDown(u) => PermDownClocks(f, u);
    case OnPermUp(u) => assert Apply(f, e) == PermUp(f, u);
    case OnPubSelect(u) => assert Apply(f, e) == PubSelect(f, u);
    case OnPubAway(u) => AwayClocks(f, u);
    case OnLeave(u) => AwayClocks(f, u);
    case OnJoin(u, perm) => JoinClocks(f, u, perm);
    case Tick(t) => TickClocks(f, t);
  }

  lemma CleanClocks(f: State, e: Event)
    requires Inv(f) && Enabled(f, e)
    ensures ClocksOf(Apply(f, e)) == ClocksAfter(f, e)
  {
    var c := f.(fx := [], d := f.d.(out := []));
    forall x ensures PartOk(c, x) { assert PartOk(f, x); }
    StepClocks(c, e);
    SameStart(f, c, e);
    AfterClean(f, c, e);
  }

  lemma AfterClean(f: State, c: State, e: Event)
    requires c == f.(fx := [], d := f.d.(out := []))
    ensures ClocksAfter(f, e) == ClocksAfter(c, e)
  {
    SameAsking(f, c, e);
    SameGiving(f, c, e);
    assert ClocksOf(f) == ClocksOf(c);
  }

  lemma SameAsking(f: State, c: State, e: Event)
    requires c == f.(fx := [], d := f.d.(out := []))
    ensures (TakesIdle(f, e) <==> TakesIdle(c, e)) && (Speaks(f, e) <==> Speaks(c, e))
  {
    if !e.Tick? { assert PartOf(c.d, e.u) == PartOf(f.d, e.u); }
  }

  lemma SameGiving(f: State, c: State, e: Event)
    requires c == f.(fx := [], d := f.d.(out := []))
    ensures GivesUp(f, e) <==> GivesUp(c, e)
  {
    if e.OnRx? { assert PartOf(c.d, e.u) == PartOf(f.d, e.u); }
  }

  // ---------------------------------------------------------------- runs

  /** The speaker has sent media since it got the floor. */
  function HasSpoken(f0: State, es: seq<Event>): bool {
    if es == [] then false else
    var (before, e) := (es[..|es| - 1], es[|es| - 1]);
    var f := Run(f0, before);
    if GivesUp(f, e) || TakesIdle(f, e) then false else Speaks(f, e) || HasSpoken(f0, before)
  }

  /** The floor came from the queue when it was last given, and how often the grant was said since. */
  function Grants(f0: State, es: seq<Event>): Option<nat> {
    if es == [] then None else
    var (before, e) := (es[..|es| - 1], es[|es| - 1]);
    var f := Run(f0, before);
    if GivesUp(f, e) && f.queue != [] then Some(1)
    else if GivesUp(f, e) || TakesIdle(f, e) then None
    else if e == Tick(T20) && Grants(f0, before).Some? then Some(Grants(f0, before).value + 1) else Grants(f0, before)
  }

  /** How often the idle floor was announced. */
  function Announced(f0: State, es: seq<Event>): nat {
    if es == [] then 0 else
    var (before, e) := (es[..|es| - 1], es[|es| - 1]);
    if GivesUp(Run(f0, before), e) then 1 else if e == Tick(T7) then Announced(f0, before) + 1 else Announced(f0, before)
  }

  ghost predicate Tell(f: State, spoken: bool, grants: Option<nat>, announced: nat) {
    && (f.firstRtp <==> spoken) && (f.g == G.Taken ==> (f.rtpSeen <==> spoken))
    && (f.g == G.Taken ==> (f.succ <==> grants.Some?) && (f.succ ==> f.c20 == grants.value))
    && (f.g == G.Idle ==> (f.idleBcast <==> announced > 0) && (f.idleBcast ==> f.c7 == announced))
  }

  /** What the clocks are in terms of the run. */
  ghost predicate ClocksTell(f0: State, es: seq<Event>) {
    Tell(Run(f0, es), HasSpoken(f0, es), Grants(f0, es), Announced(f0, es))
  }

  lemma TellStep(f0: State, es: seq<Event>, e: Event, r: State)
    requires ClocksTell(f0, es) && Run(f0, es + [e]) == r
    requires Moves(Run(f0, es), r, e) && ClocksOf(r) == ClocksAfter(Run(f0, es), e)
    requires Enabled(Run(f0, es), e)
    ensures ClocksTell(f0, es + [e])
  {
    var f := Run(f0, es);
    assert (es + [e])[..|es|] == es && (es + [e])[|es|] == e;
    TellNext(f, r, e, HasSpoken(f0, es), HasSpoken(f0, es + [e]), Grants(f0, es), Grants(f0, es + [e]),
             Announced(f0, es), Announced(f0, es + [e]));
  }

  /** The same without the run: before and after what is told of it. */
  lemma TellNext(f: State, r: State, e: Event, s: bool, s1: bool, g: Option<nat>, g1: Option<nat>, n: nat, n1: nat)
    requires Moves(f, r, e) && ClocksOf(r) == ClocksAfter(f, e) && Enabled(f, e)
    requires Tell(f, s, g, n)
    requires s1 == if GivesUp(f, e) || TakesIdle(f, e) then false else Speaks(f, e) || s
    requires g1 == if GivesUp(f, e) && f.queue != [] then Some(1) else if GivesUp(f, e) || TakesIdle(f, e) then None
                   else if e == Tick(T20) && g.Some? then Some(g.value + 1) else g
    requires n1 == if GivesUp(f, e) then 1 else if e == Tick(T7) then n + 1 else n
    ensures Tell(r, s1, g1, n1)
  {
    if GivesUp(f, e) {
      assert Handed(f, r);
    } else if TakesIdle(f, e) {
      assert Given(f, r, e.u, e.m.n);
    } else if Revokes(f, e) {
      assert Revoked(f, r, Cause(f, e));
    } else {
      assert Stays(f, r);
    }
  }

  lemma {:induction false} ClocksRun(qmax: nat, t2Secs: nat, es: seq<Event>)
    requires IsRun(Init(qmax, t2Secs), es)
    ensures ClocksTell(Init(qmax, t2Secs), es)
    decreases |es|
  {
    var f0 := Init(qmax, t2Secs);
    if es != [] {
      var (before, e) := (es[..|es| - 1], es[|es| - 1]);
      assert es == before + [e];
      RunSnoc(f0, before, e);
      ClocksRun(qmax, t2Secs, before);
      FloorRuns.InitInv(qmax, t2Secs);
      FloorRuns.RunInv(f0, before);
      var f := Run(f0, before);
      CleanMoves(f, e);
      CleanClocks(f, e);
      TellStep(f0, before, e, Apply(f, e));
    }
  }

  /** MAIN: which timers of the group run, read off the events of any run: the clock of a speaker runs exactly from
      its first media on; a grant from the queue is repeated until media comes, and is said three times at most; an
      idle floor, once it was released, is announced ten times. */
  lemma TimersExactly(qmax: nat, t2Secs: nat, es: seq<Event>)
    requires IsRun(Init(qmax, t2Secs), es)
    ensures var (f0, f) := (Init(qmax, t2Secs), Run(Init(qmax, t2Secs), es));
            var grants := Grants(f0, es);
            && (Armed(f, T1) <==> f.g != G.Idle) && (Armed(f, T3) <==> f.g == G.Prevoke)
            && (Armed(f, T2) <==> f.g == G.Taken && HasSpoken(f0, es))
            && (Armed(f, T20) <==> f.g == G.Taken && grants.Some? && grants.value <= 3 && !HasSpoken(f0, es))
            && (Armed(f, T7) <==> f.g == G.Idle && 1 <= Announced(f0, es) < 10)
  {
    ClocksRun(qmax, t2Secs, es);
  }
}
