/** The push-to-talk floor arbiter as pure step functions over one value.

    Every function here is the specification of the method of the same name in
    class `FloorArbiter.Floor`.  A user is a number: the arbiter only compares
    user names for equality and walks the member set in ascending order.  The
    number 0 stands for the empty name.  The messages and media effects of the
    step in progress are collected in `out` and `fx`. */
module FloorSpec {
  import opened Wrappers

  type User = nat

  const C7: nat := 10
  const C8: nat := 3
  const C20: nat := 3
  const C21: nat := 3
  const ACK_OF_RELEASE: nat := 4
  const ACK_OF_TAKEN: nat := 2
  const NOT_IN_QUEUE: nat := 254

  const DENY_ONLY_ONE: nat := 3
  const DENY_RETRY_AFTER: nat := 4
  const DENY_RECV_ONLY: nat := 5
  const DENY_QUEUE_FULL: nat := 7
  const DENY_NOT_PUBROOM: nat := 101
  const DENY_NO_PERMISSION: nat := 102
  const DENY_OTHER: nat := 255

  const REVOKE_TOO_LONG: nat := 2
  const REVOKE_NO_PERMISSION: nat := 3
  const REVOKE_PREEMPTED: nat := 4

  /** Group state, participant state and message type. */
  datatype G = Idle | Taken | Prevoke
  datatype P = NpIdle | NpTaken | Permitted | Prevoke | NpSends | Releasing
  datatype Mt = Request | Granted | Taken | Deny | Release | Idle | Revoke | QposReq | Qinfo | Ack | Rtp

  datatype Msg = Msg(t: Mt, a: Option<User>, n: nat, d: nat, q: nat)
  datatype Out = Out(to: User, m: Msg)
  datatype Fx = Bind(user: User) | Release(prev: Option<User>)
  datatype Waiter = Waiter(u: User, p: nat, pre: bool)

  datatype Part = Part(st: Option<P>, pubRoom: bool, perm: bool, retry: bool, released: bool,
                       gTaken: bool, c8: nat, c21: nat, rcause: nat)

  const NO_PART := Part(None, false, false, false, false, false, 0, 0, 0)

  /** The part of the state that talking to participants changes: their records,
      the running sequence number and the messages of the step in progress. */
  datatype Desk = Desk(parts: map<User, Part>, seqNo: nat, out: seq<Out>)

  datatype State = State(
    g: G, speaker: Option<User>, sprio: nat, revoking: Option<User>, rprio: nat, rcauseG: nat,
    queue: seq<Waiter>, succ: bool, rtpSeen: bool, firstRtp: bool, c20: nat, c7: nat,
    idleBcast: bool, prev: Option<User>, members: set<User>, qmax: nat, t2Secs: nat,
    fx: seq<Fx>, d: Desk)

  function Init(qmax: nat, t2Secs: nat): State {
    State(G.Idle, None, 0, None, 0, 0, [], false, false, false, 0, 0, false, None, {}, qmax, t2Secs,
          [], Desk(map[], 0, []))
  }

  function NewMsg(t: Mt, a: Option<User>, n: nat, d: nat): Msg { Msg(t, a, n, d, 0) }

  function PartOf(d: Desk, u: User): Part { if u in d.parts then d.parts[u] else NO_PART }

  function Write(d: Desk, u: User, p: Part): Desk { d.(parts := d.parts[u := p]) }

  function SetPart(f: State, u: User, p: Part): State { f.(d := Write(f.d, u, p)) }

  function Holder(f: State): Option<User> {
    match f.g
    case Taken => f.speaker
    case Prevoke => f.revoking
    case Idle => None
  }

  function HolderPrio(f: State): nat { if f.g == G.Taken then f.sprio else f.rprio }

  predicate Alone(f: State) { |f.members| <= 1 }

  predicate InQ(q: seq<Waiter>, u: User) { exists w :: w in q && w.u == u }

  /** One-based position of u, or the code for "not in the queue". */
  function Pos(q: seq<Waiter>, u: User): nat {
    if q == [] then NOT_IN_QUEUE
    else if q[0].u == u then 1
    else if InQ(q[1..], u) then 1 + Pos(q[1..], u) else NOT_IN_QUEUE
  }

  function QPrio(q: seq<Waiter>, u: User): nat {
    if q == [] then 0 else if q[0].u == u then q[0].p else QPrio(q[1..], u)
  }

  function Dequeue(q: seq<Waiter>, u: User): seq<Waiter> {
    if q == [] then [] else if q[0].u == u then Dequeue(q[1..], u) else [q[0]] + Dequeue(q[1..], u)
  }

  predicate PreQ(q: seq<Waiter>) { exists w :: w in q && w.pre }

  /** w goes in front of x. */
  predicate Before(w: Waiter, x: Waiter) { (w.pre && !x.pre) || (w.pre == x.pre && w.p > x.p) }

  function InsertQ(q: seq<Waiter>, w: Waiter): seq<Waiter> {
    if q == [] then [w] else if Before(w, q[0]) then [w] + q else [q[0]] + InsertQ(q[1..], w)
  }

  function Say(d: Desk, u: User, t: Mt, a: Option<User>, n: nat, x: nat): Desk {
    var seqd := t == Mt.Taken || t == Mt.Idle;
    var bump := seqd && x == 0;
    var s := if bump then (d.seqNo + 1) % 65536 else d.seqNo;
    var q := if bump then s else if seqd then x else 0;
    d.(seqNo := s, out := d.out + [Out(u, Msg(t, a, n, if seqd then 0 else x, q))])
  }

  function Send(f: State, u: User, t: Mt, a: Option<User>, n: nat, x: nat): State {
    f.(d := Say(f.d, u, t, a, n, x))
  }

  /** The participant record after entering `to`. */
  function Entered(p: Part, to: P): Part {
    match to
    case NpIdle => p.(gTaken := false, c21 := 0, st := Some(to))
    case NpTaken => p.(gTaken := true, c21 := 1, st := Some(to))
    case Permitted => p.(released := false, c21 := 0, st := Some(to))
    case _ => p.(c8 := 1, c21 := 0, st := Some(to))
  }

  function SendE(f: State, u: User, to: P, m: Msg): State {
    Send(SetPart(f, u, Entered(PartOf(f.d, u), to)), u, m.t, m.a, m.n, m.d)
  }

  /** What a participant does with an arbitration event: the record it writes and
      the message its client gets, if any. */
  datatype Reaction = Reaction(write: Option<Part>, say: Option<Msg>)

  function React(p: Part, ev: Msg): Reaction {
    match (ev.t, p.st)
    case (Qinfo, _) => Reaction(None, Some(NewMsg(Mt.Qinfo, None, ev.n, ev.d)))
    case (Deny, _) => Reaction(None, Some(NewMsg(Mt.Deny, None, ev.n, 0)))
    case (Granted, Some(NpIdle)) => Reaction(Some(Entered(p, P.Permitted)), Some(NewMsg(Mt.Granted, None, ev.n, ev.d)))
    case (Taken, Some(NpIdle)) => Reaction(Some(Entered(p, P.NpTaken)), Some(NewMsg(Mt.Taken, ev.a, 0, ev.q)))
    case (Idle, Some(NpIdle)) => Reaction(None, Some(NewMsg(Mt.Idle, ev.a, 0, ev.q)))
    case (_, Some(NpIdle)) => Reaction(None, None)
    case (Granted, Some(NpTaken)) => Reaction(Some(Entered(p, P.Permitted)), Some(NewMsg(Mt.Granted, None, ev.n, ev.d)))
    case (Taken, Some(NpTaken)) => Reaction(Some(p.(c21 := 1)), Some(NewMsg(Mt.Taken, ev.a, 0, ev.q)))
    case (Idle, Some(NpTaken)) => Reaction(Some(Entered(p, P.NpIdle)), Some(NewMsg(Mt.Idle, ev.a, 0, ev.q)))
    case (_, Some(NpTaken)) => Reaction(None, None)
    case (Granted, Some(Permitted)) => Reaction(None, Some(NewMsg(Mt.Granted, None, ev.n, ev.d)))
    case (Idle, Some(Permitted)) => Reaction(Some(Entered(p, P.NpIdle)), None)
    case (Taken, Some(Permitted)) => Reaction(Some(Entered(p, P.NpTaken)), Some(NewMsg(Mt.Taken, ev.a, 0, ev.q)))
    case (Revoke, Some(Permitted)) =>
      Reaction(Some(Entered(p.(rcause := ev.n), P.Prevoke)), Some(NewMsg(Mt.Revoke, None, ev.n, 0)))
    case (_, Some(Permitted)) => Reaction(None, None)
    case (Idle, Some(Prevoke)) => Reaction(Some(Entered(p, P.NpIdle)), Some(NewMsg(Mt.Idle, ev.a, 0, ev.q)))
    case (Taken, Some(Prevoke)) => Reaction(Some(Entered(p, P.NpTaken)), Some(NewMsg(Mt.Taken, ev.a, 0, ev.q)))
    case (_, Some(Prevoke)) => Reaction(None, None)
    case (_, Some(Releasing)) => Reaction(None, None)
    case (Idle, _) => Reaction(Some(p.(gTaken := false)), None)
    case (Taken, _) => Reaction(Some(p.(gTaken := true)), None)
    case _ => Reaction(None, None)
  }

  function Tell(d: Desk, u: User, ev: Msg): Desk {
    var r := React(PartOf(d, u), ev);
    var d1 := if r.write.Some? then Write(d, u, r.write.value) else d;
    if r.say.Some? then Say(d1, u, r.say.value.t, r.say.value.a, r.say.value.n, r.say.value.d) else d1
  }

  function PartA(f: State, u: User, ev: Msg): State { f.(d := Tell(f.d, u, ev)) }

  function TellAll(d: Desk, us: seq<User>, ev: Msg): Desk
    decreases us
  {
    if us == [] then d else TellAll(Tell(d, us[0], ev), us[1..], ev)
  }

  ghost predicate IsLeast(s: set<nat>, m: nat) { m in s && forall x :: x in s ==> m <= x }

  lemma {:induction false} HasLeast(s: set<nat>)
    requires s != {}
    ensures exists m :: IsLeast(s, m)
    decreases |s|
  {
    var y :| y in s;
    var rest := s - {y};
    if rest == {} {
      assert forall x :: x in s ==> x == y || x in rest;
      assert IsLeast(s, y);
    } else {
      HasLeast(rest);
      var m :| IsLeast(rest, m);
      assert forall x :: x in s ==> x == y || x in rest;
      assert IsLeast(s, if y < m then y else m);
    }
  }

  function Least(s: set<nat>): (m: nat)
    requires s != {}
    ensures m in s && forall x :: x in s ==> m <= x
  {
    HasLeast(s);
    var m :| m in s && forall x :: x in s ==> m <= x;
    m
  }

  /** The members in the order an ordered set is walked. */
  function Ascending(s: set<nat>): seq<nat> {
    if s == {} then [] else [Least(s)] + Ascending(s - {Least(s)})
  }

  /** A fan-out: Taken and Idle are given one fresh sequence number first. */
  function Fan(f: State, ev: Msg, skip: set<User>): State {
    var us := Ascending(f.members - skip);
    if ev.t == Mt.Taken || ev.t == Mt.Idle then
      var s := (f.d.seqNo + 1) % 65536;
      f.(d := TellAll(f.d.(seqNo := s), us, ev.(q := s)))
    else f.(d := TellAll(f.d, us, ev))
  }

  function EnterTaken(f: State): State {
    var sp := f.speaker.GetOr(0);
    var f1 := f.(idleBcast := false);
    var f2 := PartA(f1, sp, NewMsg(Mt.Granted, None, f.sprio, f.t2Secs));
    var f3 := Fan(f2, NewMsg(Mt.Taken, Some(sp), 0, 0), {sp});
    f3.(fx := f3.fx + [Bind(sp)])
  }

  function IdleEnter(f: State): State {
    if f.queue == [] then
      var f1 := f.(g := G.Idle, speaker := None, revoking := None, firstRtp := false, idleBcast := true, c7 := 1);
      var f2 := Fan(f1, NewMsg(Mt.Idle, f.prev, 0, 0), {});
      f2.(fx := f2.fx + [Fx.Release(f.prev)])
    else
      var w := f.queue[0];
      EnterTaken(f.(queue := f.queue[1..], g := G.Taken, speaker := Some(w.u), sprio := w.p, revoking := None,
                    succ := true, rtpSeen := false, firstRtp := false, c20 := 1))
  }

  function PrevokeEnter(f: State, u: User, cause: nat): State {
    PartA(f.(g := G.Prevoke, revoking := Some(u), rprio := f.sprio, rcauseG := cause, speaker := None),
          u, NewMsg(Mt.Revoke, None, cause, 0))
  }

  function ArbReqIdle(f: State, u: User, p: nat): State {
    if f.g != G.Idle then f
    else if Alone(f) then PartA(f, u, NewMsg(Mt.Deny, None, DENY_ONLY_ONE, 0))
    else if PartOf(f.d, u).retry then PartA(f, u, NewMsg(Mt.Deny, None, DENY_RETRY_AFTER, 0))
    else EnterTaken(f.(g := G.Taken, speaker := Some(u), sprio := p, succ := false,
                       rtpSeen := false, firstRtp := false, c20 := 0))
  }

  function ArbReqPermitted(f: State, u: User, t2Left: nat): State {
    if f.g == G.Taken && f.speaker == Some(u)
    then PartA(f, u, NewMsg(Mt.Granted, None, f.sprio, if f.firstRtp then t2Left else f.t2Secs))
    else f
  }

  function ArbPreempt(f: State, u: User, p: nat): State {
    if f.g == G.Taken then
      var f1 := f.(queue := [Waiter(u, p, true)] + f.queue);
      var f2 := PrevokeEnter(f1, f.speaker.GetOr(0), REVOKE_PREEMPTED);
      PartA(f2, u, NewMsg(Mt.Qinfo, None, 1, p))
    else f
  }

  function ArbRel(f: State, u: User): State {
    if Holder(f) == Some(u) then IdleEnter(f.(prev := Some(u))) else f
  }

  function ArbRtp(f: State, u: User): State {
    if f.g == G.Taken && f.speaker == Some(u) then f.(rtpSeen := true, firstRtp := true) else f
  }

  function Revoke3(f: State, u: User): State {
    SendE(SetPart(f, u, PartOf(f.d, u).(rcause := REVOKE_NO_PERMISSION)), u, P.NpSends,
          NewMsg(Mt.Revoke, None, REVOKE_NO_PERMISSION, 0))
  }

  function TakenReq(f: State, u: User, p: nat): State {
    if PartOf(f.d, u).retry then Send(f, u, Mt.Deny, None, DENY_RETRY_AFTER, 0)
    else if InQ(f.queue, u) then Send(f, u, Mt.Qinfo, None, Pos(f.queue, u), QPrio(f.queue, u))
    else if p > HolderPrio(f) && !PreQ(f.queue) then ArbPreempt(f, u, p)
    else if p > HolderPrio(f) then f
    else if |f.queue| >= f.qmax then Send(f, u, Mt.Deny, None, DENY_QUEUE_FULL, 0)
    else
      var f1 := f.(queue := InsertQ(f.queue, Waiter(u, p, false)));
      Send(f1, u, Mt.Qinfo, None, Pos(f1.queue, u), p)
  }

  /** What participant u does with a message from its own client, by stage. */
  function NpIdleC(f: State, u: User, ev: Msg): State {
    match ev.t
    case Request => ArbReqIdle(f, u, ev.n)
    case Release =>
      var f1 := Send(f, u, Mt.Ack, None, ACK_OF_RELEASE, 0);
      Send(f1.(queue := Dequeue(f.queue, u)), u, Mt.Idle, f.prev, 0, 0)
    case Rtp => if PartOf(f.d, u).released then Revoke3(f, u) else f
    case _ => f
  }

  function NpTakenC(f: State, u: User, ev: Msg): State {
    match ev.t
    case Request => TakenReq(f, u, ev.n)
    case Release =>
      var f1 := Send(f, u, Mt.Ack, None, ACK_OF_RELEASE, 0);
      var f2 := SetPart(f1, u, PartOf(f.d, u).(c21 := 1));
      Send(f2.(queue := Dequeue(f.queue, u)), u, Mt.Taken, Holder(f), 0, 0)
    case Ack => if ev.n == ACK_OF_TAKEN then SetPart(f, u, PartOf(f.d, u).(c21 := 0)) else f
    case QposReq => Send(f, u, Mt.Qinfo, None, Pos(f.queue, u), QPrio(f.queue, u))
    case Rtp => Revoke3(f, u)
    case _ => f
  }

  function PermittedC(f: State, u: User, ev: Msg, t2Left: nat): State {
    match ev.t
    case Release =>
      ArbRel(Send(SetPart(f, u, PartOf(f.d, u).(released := true)), u, Mt.Ack, None, ACK_OF_RELEASE, 0), u)
    case Request => ArbReqPermitted(f, u, t2Left)
    case Rtp => ArbRtp(f, u)
    case _ => f
  }

  function PrevokeC(f: State, u: User, ev: Msg): State {
    match ev.t
    case Release => ArbRel(Send(f, u, Mt.Ack, None, ACK_OF_RELEASE, 0), u)
    case Rtp => ArbRtp(f, u)
    case _ => f
  }

  function NpSendsC(f: State, u: User, ev: Msg): State {
    if ev.t == Mt.Release then
      var f1 := Send(f, u, Mt.Ack, None, ACK_OF_RELEASE, 0);
      if PartOf(f.d, u).gTaken then SendE(f1, u, P.NpTaken, NewMsg(Mt.Taken, Holder(f), 0, 0))
      else SendE(f1, u, P.NpIdle, NewMsg(Mt.Idle, f.prev, 0, 0))
    else f
  }

  function PartC(f: State, u: User, ev: Msg, t2Left: nat): State {
    match PartOf(f.d, u).st
    case Some(NpIdle) => NpIdleC(f, u, ev)
    case Some(NpTaken) => NpTakenC(f, u, ev)
    case Some(Permitted) => PermittedC(f, u, ev, t2Left)
    case Some(Prevoke) => PrevokeC(f, u, ev)
    case _ => NpSendsC(f, u, ev)
  }

  function ServerRx(f: State, u: User, m: Msg, half: bool, t2Left: nat): State {
    var p := PartOf(f.d, u);
    if m.t == Mt.Ack && p.st != Some(P.NpTaken) then f
    else if u !in f.members && m.t == Mt.Request then Send(f, u, Mt.Deny, None, DENY_OTHER, 0)
    else if u !in f.members then f
    else if m.t == Mt.Request && !half then Send(f, u, Mt.Deny, None, DENY_RECV_ONLY, 0)
    else if m.t == Mt.Request && !p.pubRoom then Send(f, u, Mt.Deny, None, DENY_NOT_PUBROOM, 0)
    else if m.t == Mt.Request && !p.perm then Send(f, u, Mt.Deny, None, DENY_NO_PERMISSION, 0)
    else PartC(f, u, m, t2Left)
  }

  function RtpIn(f: State, u: User): State {
    if u !in f.members then f else PartC(f, u, NewMsg(Mt.Rtp, None, 0, 0), 0)
  }

  function Ready(f: State, u: User): State {
    var h := Holder(f);
    if h == Some(u) then f
    else if h.Some? then Send(f, u, Mt.Taken, h, 0, 0)
    else Send(f, u, Mt.Idle, f.prev, 0, 0)
  }

  function PermDown(f: State, u: User): State {
    var f1 := SetPart(f, u, PartOf(f.d, u).(perm := false));
    if f.g == G.Taken && f.speaker == Some(u) then PrevokeEnter(f1, u, REVOKE_NO_PERMISSION)
    else if InQ(f.queue, u) then
      PartA(f1.(queue := Dequeue(f.queue, u)), u, NewMsg(Mt.Deny, None, DENY_NO_PERMISSION, 0))
    else f1
  }

  function PermUp(f: State, u: User): State { SetPart(f, u, PartOf(f.d, u).(perm := true)) }

  function Away(f: State, u: User): State {
    if f.g == G.Taken && f.speaker == Some(u) then IdleEnter(f.(prev := Some(u)))
    else if f.g == G.Prevoke && f.revoking == Some(u) then f
    else f.(queue := Dequeue(f.queue, u))
  }

  function PubSelect(f: State, u: User): State { SetPart(f, u, PartOf(f.d, u).(pubRoom := true)) }

  function PubAway(f: State, u: User): State { Away(SetPart(f, u, PartOf(f.d, u).(pubRoom := false)), u) }

  function Leave(f: State, u: User): State {
    var f1 := PubAway(f, u);
    SetPart(f1.(members := f1.members - {u}), u, PartOf(f1.d, u).(retry := false, st := Some(P.Releasing)))
  }

  /** A fresh member, which believes what the group says. */
  function Joined(f: State, u: User, perm: bool): State {
    var taken := Holder(f).Some?;
    SetPart(f.(members := f.members + {u}), u,
            PartOf(f.d, u).(st := Some(if taken then P.NpTaken else P.NpIdle), gTaken := taken, pubRoom := false,
                            perm := perm, retry := false, released := false, rcause := 0))
  }

  /** A revocation of the newcomer itself is settled first. */
  function Join(f: State, u: User, perm: bool): State {
    Joined(if f.g == G.Prevoke && f.revoking == Some(u) then IdleEnter(f.(prev := f.revoking)) else f, u, perm)
  }

  datatype Timer = T1 | T2 | T3 | T7 | T20 | T8(u: User) | T9(u: User) | T21(u: User)

  function FireT1(f: State): State { IdleEnter(f.(prev := if f.g == G.Taken then f.speaker else f.revoking)) }

  function FireT2(f: State): State {
    var u := f.speaker.GetOr(0);
    PrevokeEnter(SetPart(f, u, PartOf(f.d, u).(retry := true)), u, REVOKE_TOO_LONG)
  }

  function FireT3(f: State): State { IdleEnter(f.(prev := f.revoking)) }

  function FireT7(f: State): State { Fan(f.(c7 := f.c7 + 1), NewMsg(Mt.Idle, f.prev, 0, 0), {}) }

  function FireT20(f: State): State {
    var f1 := f.(c20 := f.c20 + 1);
    if f.c20 < C20 then PartA(f1, f.speaker.GetOr(0), NewMsg(Mt.Granted, None, f.sprio, f.t2Secs)) else f1
  }

  function FireT8(f: State, u: User): State {
    var p := PartOf(f.d, u);
    Send(SetPart(f, u, p.(c8 := p.c8 + 1)), u, Mt.Revoke, None,
         if p.st == Some(P.Prevoke) then p.rcause else REVOKE_NO_PERMISSION, 0)
  }

  function FireT21(f: State, u: User): State {
    var p := PartOf(f.d, u);
    var f1 := SetPart(f, u, p.(c21 := p.c21 + 1));
    if p.c21 < C21 then Send(f1, u, Mt.Taken, Holder(f), 0, 0) else f1
  }

  function FireT9(f: State, u: User): State { SetPart(f, u, PartOf(f.d, u).(retry := false)) }

  function Fire(f: State, t: Timer): State {
    match t
    case T1 => FireT1(f)
    case T2 => FireT2(f)
    case T3 => FireT3(f)
    case T7 => FireT7(f)
    case T20 => FireT20(f)
    case T8(u) => FireT8(f, u)
    case T21(u) => FireT21(f, u)
    case T9(u) => FireT9(f, u)
  }

  predicate Armed(f: State, t: Timer) {
    match t
    case T1 => f.g != G.Idle
    case T2 => f.g == G.Taken && f.firstRtp
    case T3 => f.g == G.Prevoke
    case T7 => f.g == G.Idle && f.idleBcast && f.c7 < C7
    case T20 => f.g == G.Taken && f.succ && !f.rtpSeen && f.c20 <= C20
    case T8(u) => u in f.d.parts && f.d.parts[u].st in {Some(P.Prevoke), Some(P.NpSends)} && f.d.parts[u].c8 < C8
    case T9(u) => u in f.d.parts && f.d.parts[u].retry
    case T21(u) => u in f.d.parts && f.d.parts[u].st == Some(P.NpTaken) && 1 <= f.d.parts[u].c21 <= C21
  }

  /** The timers to run: those of the group and those of each participant. */
  function ArmedSet(f: State): set<Timer> {
    (set t | t in {T1, T2, T3, T7, T20} && Armed(f, t))
    + (set u | u in f.d.parts.Keys && Armed(f, T8(u)) :: T8(u))
    + (set u | u in f.d.parts.Keys && Armed(f, T9(u)) :: T9(u))
    + (set u | u in f.d.parts.Keys && Armed(f, T21(u)) :: T21(u))
  }

  lemma ArmedSetLists(f: State)
    ensures forall t :: t in ArmedSet(f) <==> Armed(f, t)
  {
  }

  /** Everything that can happen to a floor. */
  datatype Event =
    | OnRx(u: User, m: Msg, half: bool, t2Left: nat)
    | OnRtp(u: User)
    | OnReady(u: User)
    | OnPermDown(u: User)
    | OnPermUp(u: User)
    | OnPubSelect(u: User)
    | OnPubAway(u: User)
    | OnLeave(u: User)
    | OnJoin(u: User, perm: bool)
    | Tick(t: Timer)

  /** A timer fires only while armed, and only a non-member joins. */
  predicate Enabled(f: State, e: Event) {
    match e
    case Tick(t) => Armed(f, t)
    case OnJoin(u, _) => u !in f.members
    case _ => true
  }

  function Apply(f0: State, e: Event): State {
    var f := f0.(fx := [], d := f0.d.(out := []));
    match e
    case OnRx(u, m, half, t2Left) => ServerRx(f, u, m, half, t2Left)
    case OnRtp(u) => RtpIn(f, u)
    case OnReady(u) => Ready(f, u)
    case OnPermDown(u) => PermDown(f, u)
    case OnPermUp(u) => PermUp(f, u)
    case OnPubSelect(u) => PubSelect(f, u)
    case OnPubAway(u) => PubAway(f, u)
    case OnLeave(u) => Leave(f, u)
    case OnJoin(u, perm) => Join(f, u, perm)
    case Tick(t) => Fire(f, t)
  }

  /** es is a run from f: each event is enabled where it happens. */
  predicate IsRun(f: State, es: seq<Event>)
    decreases es
  {
    es != [] ==> Enabled(f, es[0]) && IsRun(Apply(f, es[0]), es[1..])
  }

  function Run(f: State, es: seq<Event>): State
    decreases es
  {
    if es == [] then f else Run(Apply(f, es[0]), es[1..])
  }

  lemma {:induction false} RunSnoc(f: State, es: seq<Event>, e: Event)
    ensures Run(f, es + [e]) == Apply(Run(f, es), e)
    ensures IsRun(f, es + [e]) <==> IsRun(f, es) && Enabled(Run(f, es), e)
    decreases es
  {
    if es == [] {
      assert es + [e] == [e];
    } else {
      assert (es + [e])[1..] == es[1..] + [e];
      RunSnoc(Apply(f, es[0]), es[1..], e);
    }
  }
}
