/** Invariants of every run of the floor arbiter: who holds the floor, what each
    participant believes, what clients are told, and how the queue is ordered. */
module FloorSafety {
  import opened Wrappers
  import opened FloorSpec

  // ---------------------------------------------------------------- queue

  /** Best first: users differ, nobody outranks an earlier waiter, and only the
      head may be a preempting waiter. */
  ghost predicate Ranked(q: seq<Waiter>) {
    q == [] || ((forall w :: w in q[1..] ==> w.u != q[0].u && !Before(w, q[0]) && !w.pre) && Ranked(q[1..]))
  }

  ghost predicate QueueOk(q: seq<Waiter>, qmax: nat) {
    && Ranked(q)
    && |q| <= qmax + (if q != [] && q[0].pre then 1 else 0)
  }

  /** `Ranked` in terms of positions, and the two size bounds. */
  lemma {:induction false} RankedPositions(q: seq<Waiter>)
    requires Ranked(q)
    ensures forall i, j :: 0 <= i < j < |q| ==> q[i].u != q[j].u && !Before(q[j], q[i]) && !q[j].pre
  {
    if q != [] {
      RankedPositions(q[1..]);
      forall i, j | 0 <= i < j < |q| ensures q[i].u != q[j].u && !Before(q[j], q[i]) && !q[j].pre {
        assert q[j] == q[1..][j - 1];
        if i > 0 { assert q[i] == q[1..][i - 1]; }
      }
    }
  }

  lemma {:induction false} InsertMembers(q: seq<Waiter>, w: Waiter)
    ensures |InsertQ(q, w)| == |q| + 1
    ensures forall x :: x in InsertQ(q, w) <==> x == w || x in q
  {
    if q != [] && !Before(w, q[0]) {
      InsertMembers(q[1..], w);
      assert q == [q[0]] + q[1..];
    }
  }

  lemma {:induction false} InsertRanked(q: seq<Waiter>, w: Waiter)
    requires Ranked(q) && !w.pre && !InQ(q, w.u)
    ensures Ranked(InsertQ(q, w))
    ensures q != [] && q[0].pre ==> InsertQ(q, w)[0] == q[0]
  {
    if q != [] {
      if Before(w, q[0]) {
        forall x | x in q ensures !Before(x, w) && x.u != w.u && !x.pre {
          if x != q[0] { assert x in q[1..]; }
        }
        assert ([w] + q)[1..] == q;
      } else {
        InsertMembers(q[1..], w);
        InsertRanked(q[1..], w) by { assert forall x :: x in q[1..] ==> x in q; }
        assert ([q[0]] + InsertQ(q[1..], w))[1..] == InsertQ(q[1..], w);
        assert q[0] in q;
      }
    }
  }

  lemma {:induction false} DequeueMembers(q: seq<Waiter>, u: User)
    ensures |Dequeue(q, u)| <= |q|
    ensures forall x :: x in Dequeue(q, u) <==> x in q && x.u != u
  {
    if q != [] {
      DequeueMembers(q[1..], u);
      assert q == [q[0]] + q[1..];
    }
  }

  lemma {:induction false} DequeueRanked(q: seq<Waiter>, u: User)
    requires Ranked(q)
    ensures Ranked(Dequeue(q, u))
    ensures !InQ(q, u) ==> Dequeue(q, u) == q
    ensures q != [] && q[0].pre && q[0].u != u ==> Dequeue(q, u) != [] && Dequeue(q, u)[0] == q[0]
    ensures q != [] && q[0].u == u ==> Dequeue(q, u) == q[1..]
  {
    if q != [] {
      DequeueRanked(q[1..], u);
      DequeueMembers(q[1..], u);
      if q[0].u == u {
        assert !InQ(q[1..], u);
      } else {
        assert ([q[0]] + Dequeue(q[1..], u))[1..] == Dequeue(q[1..], u);
        if !InQ(q, u) {
          assert !InQ(q[1..], u) by { assert forall x :: x in q[1..] ==> x in q; }
        }
      }
    }
  }

  lemma DequeueOk(q: seq<Waiter>, u: User, qmax: nat)
    requires QueueOk(q, qmax)
    ensures QueueOk(Dequeue(q, u), qmax) && (PreHead(Dequeue(q, u)) ==> PreHead(q))
  {
    DequeueRanked(q, u);
    DequeueMembers(q, u);
  }

  lemma InsertOk(q: seq<Waiter>, w: Waiter, qmax: nat)
    requires QueueOk(q, qmax) && !w.pre && !InQ(q, w.u) && |q| < qmax
    ensures QueueOk(InsertQ(q, w), qmax)
  {
    InsertRanked(q, w);
    InsertMembers(q, w);
  }

  lemma PreemptOk(q: seq<Waiter>, w: Waiter, qmax: nat)
    requires QueueOk(q, qmax) && w.pre && !PreQ(q) && !InQ(q, w.u)
    ensures QueueOk([w] + q, qmax)
  {
    assert ([w] + q)[1..] == q;
    if q != [] { assert q[0] in q; }
  }

  /** What one event can do to the queue. */
  ghost predicate QueueMove(q: seq<Waiter>, r: seq<Waiter>, u: User) {
    || r == q
    || (exists v :: r == Dequeue(q, v))
    || (q != [] && r == q[1..])
    || (!InQ(q, u) && exists p :: r == InsertQ(q, Waiter(u, p, false)))
    || (!InQ(q, u) && !PreQ(q) && exists p :: r == [Waiter(u, p, true)] + q)
  }

  // ---------------------------------------------------------------- invariant

  /** The head of the queue is a preempting waiter. */
  ghost predicate PreHead(q: seq<Waiter>) { q != [] && q[0].pre }

  /** Nobody waits on an idle floor, and a preempting waiter only until the speaker it put out is gone. */
  ghost predicate GroupOk(f: State) {
    match f.g
    case Idle => f.speaker.None? && f.revoking.None? && f.queue == []
    case Taken => f.speaker.Some? && f.revoking.None? && !PreHead(f.queue)
    case Prevoke => f.speaker.None? && f.revoking.Some?
  }

  /** Members have a live stage; everybody else has none or is releasing. */
  ghost predicate Shape(f: State, u: User) {
    if u in f.members then
      && u in f.d.parts && f.d.parts[u].st.Some? && f.d.parts[u].st.value != P.Releasing
      && (f.d.parts[u].st.value == P.NpTaken ==> f.d.parts[u].gTaken)
      && (f.d.parts[u].st.value == P.NpIdle ==> !f.d.parts[u].gTaken)
    else u in f.d.parts ==> f.d.parts[u].st in {None, Some(P.Releasing)}
  }

  /** Mutual exclusion and agreement with the group, for one participant. */
  ghost predicate PartOk(f: State, u: User) {
    && Shape(f, u)
    && (u in f.members ==>
          var p := f.d.parts[u];
          && (p.st.value in {P.Permitted, P.Prevoke} ==> Holder(f) == Some(u))
          && (p.st.value == P.Permitted ==> f.g == G.Taken)
          && (p.st.value == P.NpIdle ==> f.g == G.Idle)
          && (p.st.value == P.NpTaken ==> f.g != G.Idle)
          && (p.st.value == P.NpSends ==> p.gTaken == (f.g != G.Idle)))
  }

  ghost predicate Inv(f: State) {
    && GroupOk(f)
    && QueueOk(f.queue, f.qmax)
    && forall u :: PartOk(f, u)
  }

  // ---------------------------------------------------------------- fan-out

  /** What hearing a fanned-out Taken or Idle does to a participant record. */
  function Heard(p: Part, t: Mt): Part {
    match p.st
    case Some(Releasing) => p
    case Some(NpSends) => p.(gTaken := (t == Mt.Taken))
    case None => p.(gTaken := (t == Mt.Taken))
    case Some(s) =>
      if t == Mt.Taken then (if s == P.NpTaken then p.(c21 := 1) else Entered(p, P.NpTaken))
      else if s == P.NpIdle then p else Entered(p, P.NpIdle)
  }

  lemma TellHeard(d: Desk, u: User, ev: Msg)
    requires ev.t in {Mt.Taken, Mt.Idle} && u in d.parts
    ensures Tell(d, u, ev).parts == d.parts[u := Heard(d.parts[u], ev.t)]
  {
    assert React(d.parts[u], ev).write.GetOr(d.parts[u]) == Heard(d.parts[u], ev.t);
    assert d.parts[u := d.parts[u]] == d.parts;
  }

  lemma {:induction false} AscendingLists(s: set<nat>)
    ensures forall x :: x in Ascending(s) <==> x in s
    ensures forall i, j :: 0 <= i < j < |Ascending(s)| ==> Ascending(s)[i] < Ascending(s)[j]
  {
    if s != {} {
      var m := Least(s);
      AscendingLists(s - {m});
      forall i, j | 0 <= i < j < |Ascending(s)| ensures Ascending(s)[i] < Ascending(s)[j] {
        assert Ascending(s)[j] == Ascending(s - {m})[j - 1];
        assert Ascending(s)[j] in s - {m};
        if i > 0 { assert Ascending(s)[i] == Ascending(s - {m})[i - 1]; }
      }
      forall x | x in s ensures x in Ascending(s) {
        if x != m { assert x in s - {m}; }
      }
    }
  }

  lemma {:induction false} TellAllHeard(d: Desk, us: seq<User>, ev: Msg)
    requires ev.t in {Mt.Taken, Mt.Idle}
    requires forall i, j :: 0 <= i < j < |us| ==> us[i] != us[j]
    requires forall u :: u in us ==> u in d.parts
    ensures TellAll(d, us, ev).parts.Keys == d.parts.Keys
    ensures forall x :: x in d.parts ==>
              TellAll(d, us, ev).parts[x] == if x in us then Heard(d.parts[x], ev.t) else d.parts[x]
    decreases us
  {
    if us != [] {
      var d1 := Tell(d, us[0], ev);
      TellHeard(d, us[0], ev);
      TellAllHeard(d1, us[1..], ev) by {
        forall u | u in us[1..] ensures u in d1.parts { assert u in us; }
      }
      assert us[0] !in us[1..];
      assert us == [us[0]] + us[1..];
    }
  }

  lemma FanHeard(f: State, ev: Msg, skip: set<User>)
    requires ev.t in {Mt.Taken, Mt.Idle}
    requires f.members <= f.d.parts.Keys
    ensures Fan(f, ev, skip) == f.(d := Fan(f, ev, skip).d)
    ensures Fan(f, ev, skip).d.parts.Keys == f.d.parts.Keys
    ensures forall x :: x in f.d.parts ==>
              Fan(f, ev, skip).d.parts[x] ==
              if x in f.members && x !in skip then Heard(f.d.parts[x], ev.t) else f.d.parts[x]
  {
    var (us, s) := (Ascending(f.members - skip), (f.d.seqNo + 1) % 65536);
    FanTells(f, ev, skip, us, s);
    AscendingLists(f.members - skip);
    TellAllHeard(f.d.(seqNo := s), us, ev.(q := s));
  }

  lemma FanTells(f: State, ev: Msg, skip: set<User>, us: seq<User>, s: nat)
    requires ev.t in {Mt.Taken, Mt.Idle} && us == Ascending(f.members - skip) && s == (f.d.seqNo + 1) % 65536
    ensures Fan(f, ev, skip) == f.(d := TellAll(f.d.(seqNo := s), us, ev.(q := s)))
  {
  }

  // ---------------------------------------------------------------- messages

  /** A Taken names the holder, an Idle is said only when the floor is idle and names the one who had it
      last, and a Granted goes only to the speaker, at its priority. */
  ghost predicate Truthful(f: State, o: Out) {
    && (o.m.t == Mt.Taken ==> Holder(f).Some? && o.m.a == Holder(f))
    && (o.m.t == Mt.Idle ==> f.g == G.Idle && o.m.a == f.prev)
    && (o.m.t == Mt.Granted ==> f.g == G.Taken && Holder(f) == Some(o.to) && o.m.n == f.sprio)
  }

  ghost predicate AllTruthful(f: State, out: seq<Out>) { forall o :: o in out ==> Truthful(f, o) }

  ghost predicate OutOk(f: State) { AllTruthful(f, f.d.out) }

  /** No message so far says anything about the holder. */
  ghost predicate Neutral(f: State) { forall o :: o in f.d.out ==> o.m.t !in {Mt.Taken, Mt.Idle, Mt.Granted} }

  /** An event that may be told to u while the group is as in f. */
  ghost predicate SafeEv(f: State, u: User, ev: Msg) {
    && (ev.t == Mt.Taken ==> Holder(f).Some? && ev.a == Holder(f))
    && (ev.t == Mt.Idle ==> f.g == G.Idle && ev.a == f.prev)
    && (ev.t == Mt.Granted ==> f.g == G.Taken && Holder(f) == Some(u) && ev.n == f.sprio)
  }

  lemma TellOut(f: State, d: Desk, u: User, ev: Msg)
    requires AllTruthful(f, d.out) && SafeEv(f, u, ev)
    ensures AllTruthful(f, Tell(d, u, ev).out)
  {
    var r := React(PartOf(d, u), ev);
    assert r.say.Some? ==> r.say.value.t == ev.t && (ev.t in {Mt.Taken, Mt.Idle} ==> r.say.value.a == ev.a)
                           && (ev.t == Mt.Granted ==> r.say.value.n == ev.n);
  }

  lemma {:induction false} TellAllOut(f: State, d: Desk, us: seq<User>, ev: Msg)
    requires AllTruthful(f, d.out) && ev.t != Mt.Granted && SafeEv(f, 0, ev)
    ensures AllTruthful(f, TellAll(d, us, ev).out)
    decreases us
  {
    if us != [] {
      TellOut(f, d, us[0], ev);
      TellAllOut(f, Tell(d, us[0], ev), us[1..], ev);
    }
  }

  lemma FanOut(f: State, ev: Msg, skip: set<User>)
    requires OutOk(f) && ev.t != Mt.Granted && SafeEv(f, 0, ev)
    ensures AllTruthful(f, Fan(f, ev, skip).d.out)
  {
    var s := (f.d.seqNo + 1) % 65536;
    var us := Ascending(f.members - skip);
    TellAllOut(f, f.d.(seqNo := s), us, ev.(q := s));
    TellAllOut(f, f.d, us, ev);
  }

  /** What truthfulness depends on. */
  lemma SameHolder(f: State, r: State)
    requires OutOk(f) && f.d.out == r.d.out && f.g == r.g && Holder(f) == Holder(r) && f.prev == r.prev && f.sprio == r.sprio
    ensures OutOk(r)
  {
  }

  // ---------------------------------------------------------------- entering Taken and Idle

  /** The record of x after the floor was given to sp. */
  function AfterTaken(f: State, sp: User, x: User): Part
    requires x in f.d.parts
  {
    var p := f.d.parts[x];
    if x == sp then (if p.st in {Some(P.NpIdle), Some(P.NpTaken)} then Entered(p, P.Permitted) else p)
    else if x in f.members then Heard(p, Mt.Taken) else p
  }

  lemma MembersHaveParts(f: State)
    requires forall u :: Shape(f, u)
    ensures f.members <= f.d.parts.Keys
  {
    forall u | u in f.members ensures u in f.d.parts { assert Shape(f, u); }
  }

  /** Members sending without permission believe that the floor is taken. */
  ghost predicate SendersSeeTaken(f: State) {
    forall u :: u in f.members && PartOf(f.d, u).st == Some(P.NpSends) ==> PartOf(f.d, u).gTaken
  }

  lemma TellGranted(d: Desk, sp: User, ev: Msg)
    requires ev.t == Mt.Granted
    ensures Tell(d, sp, ev).parts ==
              if PartOf(d, sp).st in {Some(P.NpIdle), Some(P.NpTaken)}
              then d.parts[sp := Entered(PartOf(d, sp), P.Permitted)] else d.parts
  {
  }

  lemma FanAfterGrant(f: State, d2: Desk, sp: User)
    requires forall u :: Shape(f, u)
    requires d2.parts.Keys == f.d.parts.Keys
    requires forall x :: x in f.d.parts && x != sp ==> d2.parts[x] == f.d.parts[x]
    requires sp in f.d.parts ==> d2.parts[sp] == AfterTaken(f, sp, sp)
    ensures var r := Fan(f.(d := d2), NewMsg(Mt.Taken, Some(sp), 0, 0), {sp});
            && r == f.(d := r.d) && r.d.parts.Keys == f.d.parts.Keys
            && forall x :: x in f.d.parts ==> r.d.parts[x] == AfterTaken(f, sp, x)
  {
    MembersHaveParts(f);
    FanHeard(f.(d := d2), NewMsg(Mt.Taken, Some(sp), 0, 0), {sp});
  }

  lemma EnterTakenParts(f: State)
    requires f.speaker.Some?
    requires forall u :: Shape(f, u)
    ensures EnterTaken(f) == f.(idleBcast := false, fx := f.fx + [Bind(f.speaker.value)], d := EnterTaken(f).d)
    ensures EnterTaken(f).d.parts.Keys == f.d.parts.Keys
    ensures forall x :: x in f.d.parts ==> EnterTaken(f).d.parts[x] == AfterTaken(f, f.speaker.value, x)
  {
    var sp := f.speaker.value;
    var ev := NewMsg(Mt.Granted, None, f.sprio, f.t2Secs);
    var f1 := f.(idleBcast := false);
    var d2 := Tell(f.d, sp, ev);
    assert d2.parts.Keys == f.d.parts.Keys
           && (forall x :: x in f.d.parts && x != sp ==> d2.parts[x] == f.d.parts[x])
           && (sp in f.d.parts ==> d2.parts[sp] == AfterTaken(f1, sp, sp)) by {
      TellGranted(f.d, sp, ev);
      assert Shape(f, sp);
    }
    assert forall u :: Shape(f1, u) by {
      forall u ensures Shape(f1, u) { assert Shape(f, u); }
    }
    FanAfterGrant(f1, d2, sp);
  }

  lemma EnterTakenOut(f: State)
    requires f.g == G.Taken && f.speaker.Some? && Neutral(f)
    ensures AllTruthful(f, EnterTaken(f).d.out)
  {
    var sp := f.speaker.value;
    var f1 := f.(idleBcast := false);
    var ev := NewMsg(Mt.Granted, None, f.sprio, f.t2Secs);
    TellOut(f, f.d, sp, ev);
    var f2 := PartA(f1, sp, ev);
    FanOut(f2, NewMsg(Mt.Taken, Some(sp), 0, 0), {sp});
  }

  lemma HeardTaken(p: Part)
    requires p.st.Some? && p.st.value != P.Releasing && (p.st.value == P.NpTaken ==> p.gTaken)
    ensures Heard(p, Mt.Taken).st in {Some(P.NpTaken), Some(P.NpSends)} && Heard(p, Mt.Taken).gTaken
  {
  }

  lemma HeardIdle(p: Part)
    requires p.st.Some? && p.st.value != P.Releasing && (p.st.value == P.NpIdle ==> !p.gTaken)
    ensures Heard(p, Mt.Idle).st in {Some(P.NpIdle), Some(P.NpSends)} && !Heard(p, Mt.Idle).gTaken
  {
  }

  /** Whatever the participants were doing, giving the floor to `sp` makes all of them agree with the group. */
  lemma AllAgreeOnTaken(f: State, r: State)
    requires r.g == G.Taken && r.speaker.Some? && r.members == f.members
    requires (forall u :: Shape(f, u)) && SendersSeeTaken(f)
    requires r.d.parts.Keys == f.d.parts.Keys
    requires forall x :: x in f.d.parts ==> r.d.parts[x] == AfterTaken(f, r.speaker.value, x)
    ensures forall u :: PartOk(r, u)
  {
    forall u ensures PartOk(r, u) {
      assert Shape(f, u);
      if u in f.members { HeardTaken(f.d.parts[u]); }
    }
  }

  lemma EnterTakenOk(f: State)
    requires f.g == G.Taken && f.speaker.Some? && f.revoking.None? && Neutral(f)
    requires QueueOk(f.queue, f.qmax) && !PreHead(f.queue)
    requires (forall u :: Shape(f, u)) && SendersSeeTaken(f)
    ensures Inv(EnterTaken(f)) && OutOk(EnterTaken(f))
  {
    EnterTakenParts(f);
    EnterTakenOut(f);
    AllAgreeOnTaken(f, EnterTaken(f));
  }

  /** The record of x after the floor went idle or to the head of the queue. */
  function AfterIdle(f: State, x: User): Part
    requires x in f.d.parts
  {
    if f.queue != [] then AfterTaken(f, f.queue[0].u, x)
    else if x in f.members then Heard(f.d.parts[x], Mt.Idle) else f.d.parts[x]
  }

  lemma IdleEnterOk(f: State)
    requires Neutral(f) && f.g != G.Idle && QueueOk(f.queue, f.qmax)
    requires (forall u :: Shape(f, u)) && SendersSeeTaken(f)
    ensures Inv(IdleEnter(f)) && OutOk(IdleEnter(f))
    ensures IdleEnter(f).members == f.members && IdleEnter(f).qmax == f.qmax && IdleEnter(f).prev == f.prev
    ensures f.queue == [] ==> IdleEnter(f).g == G.Idle && IdleEnter(f).fx == f.fx + [Fx.Release(f.prev)]
                              && IdleEnter(f).queue == []
    ensures f.queue != [] ==> IdleEnter(f).g == G.Taken && IdleEnter(f).fx == f.fx + [Bind(f.queue[0].u)]
                              && IdleEnter(f).queue == f.queue[1..] && IdleEnter(f).speaker == Some(f.queue[0].u)
                              && IdleEnter(f).sprio == f.queue[0].p
    ensures IdleEnter(f).d.parts.Keys == f.d.parts.Keys
    ensures forall x :: x in f.d.parts ==> IdleEnter(f).d.parts[x] == AfterIdle(f, x)
  {
    MembersHaveParts(f);
    if f.queue == [] {
      var f1 := f.(g := G.Idle, speaker := None, revoking := None, firstRtp := false, idleBcast := true, c7 := 1);
      var ev := NewMsg(Mt.Idle, f.prev, 0, 0);
      FanHeard(f1, ev, {});
      FanOut(f1, ev, {});
      var r := IdleEnter(f);
      forall u ensures PartOk(r, u) {
        assert Shape(f, u);
        if u in f.members { HeardIdle(f.d.parts[u]); }
      }
    } else {
      var w := f.queue[0];
      var f1 := f.(queue := f.queue[1..], g := G.Taken, speaker := Some(w.u), sprio := w.p, revoking := None,
                   succ := true, rtpSeen := false, firstRtp := false, c20 := 1);
      forall u ensures Shape(f1, u) { assert Shape(f, u); }
      EnterTakenParts(f1);
      EnterTakenOk(f1);
    }
  }
}
