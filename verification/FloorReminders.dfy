/** Whoever is told that the floor is taken, or that it must stop, is reminded of it until it reacts. */
module FloorReminders {
  import opened Wrappers
  import opened FloorSpec
  import opened FloorSafety
  import opened FloorLaws
  import opened FloorNotices

  // ---------------------------------------------------------------- Taken

  ghost predicate Reminded(d: Desk, u: User) { PartOf(d, u).st == Some(P.NpTaken) && PartOf(d, u).c21 == 1 }

  /** Everybody who was told Taken in this step is to be reminded. */
  ghost predicate AllReminded(d: Desk) { forall o :: o in d.out && o.m.t == Mt.Taken ==> Reminded(d, o.to) }

  ghost predicate NoTaken(d: Desk) { forall o :: o in d.out ==> o.m.t != Mt.Taken }

  lemma ReactReminds(p: Part, ev: Msg)
    requires ev.t == Mt.Taken
    ensures var r := React(p, ev);
            var q := r.write.GetOr(p);
            if r.say.Some? then q.st == Some(P.NpTaken) && q.c21 == 1 else q.st == p.st && q.c21 == p.c21
  {
  }

  lemma TellReminds(d: Desk, u: User, ev: Msg)
    requires ev.t == Mt.Taken && AllReminded(d)
    ensures AllReminded(Tell(d, u, ev))
  {
    var r := Tell(d, u, ev);
    ReactReminds(PartOf(d, u), ev);
    forall o | o in r.out && o.m.t == Mt.Taken ensures Reminded(r, o.to) {
      if o in d.out { assert Reminded(d, o.to); }
    }
  }

  lemma {:induction false} TellAllReminds(d: Desk, us: seq<User>, ev: Msg)
    requires ev.t == Mt.Taken && AllReminded(d)
    ensures AllReminded(TellAll(d, us, ev))
    decreases us
  {
    if us != [] {
      TellReminds(d, us[0], ev);
      TellAllReminds(Tell(d, us[0], ev), us[1..], ev);
    }
  }

  lemma EnterTakenReminds(f: State)
    requires NoTaken(f.d)
    ensures AllReminded(EnterTaken(f).d)
  {
    var sp := f.speaker.GetOr(0);
    var ev := NewMsg(Mt.Granted, None, f.sprio, f.t2Secs);
    var f2 := PartA(f.(idleBcast := false), sp, ev);
    assert NoTaken(f2.d);
    var s := (f2.d.seqNo + 1) % 65536;
    assert AllReminded(f2.d.(seqNo := s));
    TellAllReminds(f2.d.(seqNo := s), Ascending(f2.members - {sp}), NewMsg(Mt.Taken, Some(sp), 0, 0).(q := s));
    assert EnterTaken(f).d == Fan(f2, NewMsg(Mt.Taken, Some(sp), 0, 0), {sp}).d;
  }

  lemma IdleEnterReminds(f: State)
    requires NoTaken(f.d) && f.queue != []
    ensures AllReminded(IdleEnter(f).d)
  {
    var w := f.queue[0];
    EnterTakenReminds(f.(queue := f.queue[1..], g := G.Taken, speaker := Some(w.u), sprio := w.p, revoking := None,
                         succ := true, rtpSeen := false, firstRtp := false, c20 := 1));
  }

  /** Those who were members before and are after the step. */
  ghost predicate StillReminded(f: State, r: State) {
    forall o :: o in r.d.out && o.m.t == Mt.Taken && o.to in f.members && o.to in r.members ==> Reminded(r.d, o.to)
  }

  lemma SpeakerReminds(f: State, u: User, m: Msg, t2Left: nat)
    requires Fresh(f) && Holder(f) == Some(u) && m.t == Mt.Release && f.queue != []
    ensures AllReminded(PermittedC(f, u, m, t2Left).d) && AllReminded(PrevokeC(f, u, m).d)
  {
    var f1 := Send(SetPart(f, u, PartOf(f.d, u).(released := true)), u, Mt.Ack, None, ACK_OF_RELEASE, 0).(prev := Some(u));
    assert PermittedC(f, u, m, t2Left) == IdleEnter(f1);
    IdleEnterReminds(f1);
    var f2 := Send(f, u, Mt.Ack, None, ACK_OF_RELEASE, 0).(prev := Some(u));
    assert PrevokeC(f, u, m) == IdleEnter(f2);
    IdleEnterReminds(f2);
  }

  lemma ReleaseReminds(f: State, e: Event)
    requires Inv(f) && Fresh(f) && GivesUp(f, e) && e.OnRx? && f.queue != []
    ensures AllReminded(ServerRx(f, e.u, e.m, e.half, e.t2Left).d)
  {
    assert PartOk(f, e.u);
    SpeakerReminds(f, e.u, e.m, e.t2Left);
    assert ServerRx(f, e.u, e.m, e.half, e.t2Left)
        == if Stage(f, e.u) == Some(P.Permitted) then PermittedC(f, e.u, e.m, e.t2Left) else PrevokeC(f, e.u, e.m);
  }

  lemma AwayReminds(f: State, u: User)
    requires Fresh(f) && f.g == G.Taken && f.speaker == Some(u) && f.queue != []
    ensures AllReminded(PubAway(f, u).d) && StillReminded(f, Leave(f, u))
  {
    var f1 := SetPart(f, u, PartOf(f.d, u).(pubRoom := false)).(prev := Some(u));
    assert PubAway(f, u) == IdleEnter(f1);
    IdleEnterReminds(f1);
    var r := Leave(f, u);
    forall o | o in r.d.out && o.m.t == Mt.Taken && o.to in r.members ensures Reminded(r.d, o.to) {
      assert o in PubAway(f, u).d.out && o.to != u;
    }
  }

  lemma JoinReminds(f: State, u: User, perm: bool)
    requires Fresh(f) && f.g == G.Prevoke && f.revoking == Some(u) && f.queue != [] && u !in f.members
    ensures StillReminded(f, Join(f, u, perm))
  {
    var f1 := f.(prev := f.revoking);
    IdleEnterReminds(f1);
    var r := Join(f, u, perm);
    forall o | o in r.d.out && o.m.t == Mt.Taken && o.to in f.members ensures Reminded(r.d, o.to) {
      assert o in IdleEnter(f1).d.out && o.to != u;
    }
  }

  lemma HandoverReminds(f: State, e: Event)
    requires Inv(f) && Fresh(f) && GivesUp(f, e) && Enabled(f, e) && f.queue != []
    ensures StillReminded(f, Apply(f, e))
  {
    assert f == f.(fx := [], d := f.d.(out := []));
    match e
    case OnRx(_, _, _, _) => ReleaseReminds(f, e);
    case OnPubAway(u) => AwayReminds(f, u);
    case OnLeave(u) => AwayReminds(f, u);
    case OnJoin(u, perm) => JoinReminds(f, u, perm);
    case Tick(t) => IdleEnterReminds(f.(prev := Holder(f)));
  }

  lemma TakeIdleReminds(f: State, e: Event)
    requires Fresh(f) && TakesIdle(f, e)
    ensures AllReminded(Apply(f, e).d)
  {
    assert f == f.(fx := [], d := f.d.(out := []));
    var f1 := f.(g := G.Taken, speaker := Some(e.u), sprio := e.m.n, succ := false,
                 rtpSeen := false, firstRtp := false, c20 := 0);
    assert Apply(f, e) == EnterTaken(f1);
    EnterTakenReminds(f1);
  }

  // ---------------------------------------------------------------- Revoke

  /** A speaker that knew it speaks is in the state of being revoked, for this cause. */
  ghost predicate Stopped(r: State, u: User, cause: nat) {
    PartOf(r.d, u).st == Some(P.Prevoke) && PartOf(r.d, u).rcause == cause && PartOf(r.d, u).c8 == 1 && Armed(r, T8(u))
  }

  lemma PrevokeStops(f: State, sp: User, cause: nat)
    requires Stage(f, sp) == Some(P.Permitted)
    ensures Stopped(PrevokeEnter(f, sp, cause), sp, cause)
  {
  }

  lemma PreemptStops(f: State, e: Event, sp: User)
    requires Inv(f) && Fresh(f) && Preempts(f, e) && f.speaker == Some(sp) && Stage(f, sp) == Some(P.Permitted)
    ensures Stopped(Apply(f, e), sp, REVOKE_PREEMPTED)
  {
    assert f == f.(fx := [], d := f.d.(out := []));
    NobodyPreempts(f);
    var f1 := f.(queue := [Waiter(e.u, e.m.n, true)] + f.queue);
    var f2 := PrevokeEnter(f1, sp, REVOKE_PREEMPTED);
    assert Apply(f, e) == PartC(f, e.u, e.m, e.t2Left) == TakenReq(f, e.u, e.m.n) == ArbPreempt(f, e.u, e.m.n);
    PrevokeStops(f1, sp, REVOKE_PREEMPTED);
    assert Apply(f, e).d.parts == f2.d.parts;
  }

  lemma RevokeStops(f: State, e: Event, sp: User)
    requires Inv(f) && Fresh(f) && Revokes(f, e) && f.speaker == Some(sp) && Stage(f, sp) == Some(P.Permitted)
    ensures Stopped(Apply(f, e), sp, Cause(f, e))
  {
    assert f == f.(fx := [], d := f.d.(out := []));
    if Preempts(f, e) {
      PreemptStops(f, e, sp);
    } else if LosesRight(f, e) {
      var f1 := SetPart(f, sp, PartOf(f.d, sp).(perm := false));
      assert Apply(f, e) == PrevokeEnter(f1, sp, REVOKE_NO_PERMISSION);
      PrevokeStops(f1, sp, REVOKE_NO_PERMISSION);
    } else {
      var f1 := SetPart(f, sp, PartOf(f.d, sp).(retry := true));
      assert Apply(f, e) == PrevokeEnter(f1, sp, REVOKE_TOO_LONG);
      PrevokeStops(f1, sp, REVOKE_TOO_LONG);
    }
  }

  // ---------------------------------------------------------------- runs

  /** MAIN: on every run, when the floor is given to somebody, every member who is told of it will be reminded until
      it acknowledges; and a speaker that is put out is put in the state of being revoked, with the cause, and will
      be reminded until it stops. */
  lemma NoticesAreRepeated(qmax: nat, t2Secs: nat, es: seq<Event>, e: Event)
    requires IsRun(Init(qmax, t2Secs), es) && Enabled(Run(Init(qmax, t2Secs), es), e)
    ensures var f := Run(Init(qmax, t2Secs), es);
            var r := Apply(f, e);
            && (r.g == G.Taken && r.fx != [] ==>
                  forall o :: o in r.d.out && o.m.t == Mt.Taken && o.to in f.members && o.to in r.members ==> Armed(r, T21(o.to)))
            && (Revokes(f, e) && f.speaker.Some? && Stage(f, f.speaker.value) == Some(P.Permitted) ==>
                  Stopped(r, f.speaker.value, Cause(f, e)))
  {
    var f := Run(Init(qmax, t2Secs), es);
    Reaches(qmax, t2Secs, es);
    CleanInv(f, e);
    var (c, r) := (Clean(f), Apply(f, e));
    CleanMoves(c, e);
    MovesExactly(c, r, e);
    if r.g == G.Taken && r.fx != [] {
      if GivesUp(c, e) { HandoverReminds(c, e); } else { TakeIdleReminds(c, e); }
      RemindedArmed(c, r);
    }
    RevokedClean(f, e);
  }

  lemma RemindedArmed(f: State, r: State)
    requires StillReminded(f, r)
    ensures forall o :: o in r.d.out && o.m.t == Mt.Taken && o.to in f.members && o.to in r.members ==> Armed(r, T21(o.to))
  {
    forall o | o in r.d.out && o.m.t == Mt.Taken && o.to in f.members && o.to in r.members ensures Armed(r, T21(o.to)) {
      assert Reminded(r.d, o.to);
    }
  }

  lemma RevokedClean(f: State, e: Event)
    requires Inv(f)
    ensures Revokes(f, e) && f.speaker.Some? && Stage(f, f.speaker.value) == Some(P.Permitted) ==>
              Stopped(Apply(f, e), f.speaker.value, Cause(f, e))
  {
    CleanInv(f, e);
    var c := Clean(f);
    if Revokes(f, e) && f.speaker.Some? && Stage(f, f.speaker.value) == Some(P.Permitted) {
      assert Revokes(c, e) && Cause(c, e) == Cause(f, e);
      RevokeStops(c, e, f.speaker.value);
    }
  }
}
