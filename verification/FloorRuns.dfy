/** Theorems about whole runs of the floor arbiter. */
module FloorRuns {
  import opened Wrappers
  import opened FloorSpec
  import opened FloorSafety
  import opened FloorSteps

  lemma InitInv(qmax: nat, t2Secs: nat)
    ensures Inv(Init(qmax, t2Secs))
  {
  }

  lemma {:induction false} RunInv(f: State, es: seq<Event>)
    requires Inv(f) && IsRun(f, es)
    ensures Inv(Run(f, es))
    decreases es
  {
    if es != [] {
      StepGood(f, es[0]);
      RunInv(Apply(f, es[0]), es[1..]);
    }
  }

  /** What mutual exclusion and agreement mean for one user. */
  ghost predicate Agrees(f: State, u: User) {
    var p := PartOf(f.d, u);
    && (p.st in {Some(P.Permitted), Some(P.Prevoke)} ==> u in f.members && Holder(f) == Some(u))
    && (u in f.members && p.st == Some(P.NpIdle) ==> f.g == G.Idle)
    && (u in f.members && p.st == Some(P.NpTaken) ==> f.g != G.Idle)
    && (u in f.members && p.st in {Some(P.NpIdle), Some(P.NpTaken), Some(P.NpSends)} ==> p.gTaken == (f.g != G.Idle))
  }

  /** Mutual exclusion on every run: whoever is permitted or being revoked is the
      holder, so there is at most one, and everybody else agrees with the group. */
  lemma MutualExclusion(qmax: nat, t2Secs: nat, es: seq<Event>)
    requires IsRun(Init(qmax, t2Secs), es)
    ensures var f := Run(Init(qmax, t2Secs), es);
            && (f.g == G.Idle <==> Holder(f) == None) && (f.g == G.Idle ==> f.queue == [])
            && (f.g == G.Taken <==> f.speaker.Some?) && (f.g == G.Prevoke <==> f.revoking.Some?)
            && forall u :: Agrees(f, u)
  {
    InitInv(qmax, t2Secs);
    RunInv(Init(qmax, t2Secs), es);
    var f := Run(Init(qmax, t2Secs), es);
    forall u ensures Agrees(f, u) { assert PartOk(f, u); }
  }

  /** Clients are told the truth: after any run, the messages of the next step name
      the holder as it is after that step. */
  lemma NoticesAreTruthful(qmax: nat, t2Secs: nat, es: seq<Event>, e: Event, o: Out)
    requires IsRun(Init(qmax, t2Secs), es) && Enabled(Run(Init(qmax, t2Secs), es), e)
    requires o in Apply(Run(Init(qmax, t2Secs), es), e).d.out
    ensures Truthful(Apply(Run(Init(qmax, t2Secs), es), e), o)
  {
    InitInv(qmax, t2Secs);
    RunInv(Init(qmax, t2Secs), es);
    StepGood(Run(Init(qmax, t2Secs), es), e);
  }

  // ---------------------------------------------------------------- first come, first served

  /** Users of arr that are still waiting in q, in the order of arr. */
  function Kept(arr: seq<User>, q: seq<Waiter>): seq<User> {
    if arr == [] then [] else (if InQ(q, arr[0]) then [arr[0]] else []) + Kept(arr[1..], q)
  }

  /** The waiting users in order of arrival, after a step of user u left queue q. */
  function Track(arr: seq<User>, q: seq<Waiter>, u: User): seq<User> {
    var k := Kept(arr, q);
    if InQ(q, u) && u !in k then k + [u] else k
  }

  function Arrivals(f: State, es: seq<Event>, arr: seq<User>): seq<User>
    decreases es
  {
    if es == [] then arr
    else Arrivals(Apply(f, es[0]), es[1..], Track(arr, Apply(f, es[0]).queue, UserOf(es[0])))
  }

  ghost predicate Precedes(arr: seq<User>, a: User, b: User) {
    exists i, j :: 0 <= i < j < |arr| && arr[i] == a && arr[j] == b
  }

  /** x stands before y for a good reason: better rank, or same rank and earlier. */
  ghost predicate Deserves(arr: seq<User>, x: Waiter, y: Waiter) { Before(x, y) || Precedes(arr, x.u, y.u) }

  ghost predicate FirstCome(q: seq<Waiter>, arr: seq<User>) {
    && Distinct(arr)
    && (forall u :: u in arr <==> InQ(q, u))
    && (forall x, y :: Ahead(q, x, y) ==> Deserves(arr, x, y))
  }

  /** x stands somewhere before y in q. */
  ghost predicate Ahead(q: seq<Waiter>, x: Waiter, y: Waiter) {
    q != [] && ((q[0] == x && y in q[1..]) || Ahead(q[1..], x, y))
  }

  lemma {:induction false} AheadPositions(q: seq<Waiter>, i: nat, j: nat)
    requires i < j < |q|
    ensures Ahead(q, q[i], q[j])
  {
    if i == 0 {
      assert q[j] == q[1..][j - 1];
    } else {
      AheadPositions(q[1..], i - 1, j - 1);
    }
  }

  lemma {:induction false} AheadMembers(q: seq<Waiter>, x: Waiter, y: Waiter)
    requires Ahead(q, x, y)
    ensures x in q && y in q
  {
    if !(q[0] == x && y in q[1..]) { AheadMembers(q[1..], x, y); }
  }

  function First(u: User, q: seq<Waiter>): seq<User> { if InQ(q, u) then [u] else [] }

  lemma KeptFirst(x: seq<User>, q: seq<Waiter>)
    requires x != []
    ensures Kept(x, q) == First(x[0], q) + Kept(x[1..], q)
  {
  }

  lemma Regrouped(x: seq<User>, y: seq<User>, z: seq<User>)
    ensures x + (y + z) == (x + y) + z
  {
  }

  lemma {:induction false} KeptSplits(x: seq<User>, y: seq<User>, q: seq<Waiter>)
    ensures Kept(x + y, q) == Kept(x, q) + Kept(y, q)
  {
    if x == [] {
      assert x + y == y;
    } else {
      KeptSplits(x[1..], y, q);
      KeptFirst(x, q);
      KeptFirst(x + y, q);
      assert (x + y)[1..] == x[1..] + y;
      Regrouped(First(x[0], q), Kept(x[1..], q), Kept(y, q));
    }
  }

  lemma {:induction false} KeptMembers(arr: seq<User>, q: seq<Waiter>)
    ensures forall u :: u in Kept(arr, q) <==> u in arr && InQ(q, u)
    ensures Distinct(arr) ==> Distinct(Kept(arr, q))
  {
    if arr != [] {
      KeptMembers(arr[1..], q);
      assert arr == [arr[0]] + arr[1..];
      if Distinct(arr) {
        assert forall i, j :: 0 <= i < j < |arr[1..]| ==> arr[1..][i] == arr[i + 1] && arr[1..][j] == arr[j + 1];
        assert arr[0] !in arr[1..];
      }
    }
  }

  lemma Across(x: seq<User>, y: seq<User>, a: User, b: User)
    requires a in x && b in y
    ensures Precedes(x + y, a, b)
  {
    var i :| 0 <= i < |x| && x[i] == a;
    var j :| 0 <= j < |y| && y[j] == b;
    assert (x + y)[i] == a && (x + y)[|x| + j] == b;
  }

  lemma KeptOrder(arr: seq<User>, q: seq<Waiter>, a: User, b: User)
    requires Precedes(arr, a, b) && InQ(q, a) && InQ(q, b)
    ensures Precedes(Kept(arr, q), a, b)
  {
    var i, j :| 0 <= i < j < |arr| && arr[i] == a && arr[j] == b;
    var x, y := arr[..i + 1], arr[i + 1..];
    assert arr == x + y && a == x[i] && a in x && b == y[j - i - 1] && b in y;
    KeptSplits(x, y, q);
    KeptMembers(x, q);
    KeptMembers(y, q);
    Across(Kept(x, q), Kept(y, q), a, b);
  }

  lemma TrackMembers(arr: seq<User>, q: seq<Waiter>, u: User)
    requires Distinct(arr) && forall w :: w in q ==> w.u == u || w.u in arr
    ensures Distinct(Track(arr, q, u))
    ensures forall x :: x in Track(arr, q, u) <==> InQ(q, x)
  {
    KeptMembers(arr, q);
    forall x | InQ(q, x) ensures x in Track(arr, q, u) {}
  }

  lemma TrackOrder(arr: seq<User>, q: seq<Waiter>, u: User, a: User, b: User)
    requires Precedes(arr, a, b) && InQ(q, a) && InQ(q, b)
    ensures Precedes(Track(arr, q, u), a, b)
  {
    KeptOrder(arr, q, a, b);
    var k := Kept(arr, q);
    var i, j :| 0 <= i < j < |k| && k[i] == a && k[j] == b;
    assert Track(arr, q, u)[i] == a && Track(arr, q, u)[j] == b;
  }

  lemma TrackLast(arr: seq<User>, q: seq<Waiter>, u: User, a: User)
    requires a in arr && InQ(q, a) && InQ(q, u) && u !in arr
    ensures Precedes(Track(arr, q, u), a, u)
  {
    KeptMembers(arr, q);
    var k := Kept(arr, q);
    var i :| 0 <= i < |k| && k[i] == a;
    assert Track(arr, q, u)[i] == a && Track(arr, q, u)[|k|] == u;
  }

  lemma {:induction false} DequeueAhead(q: seq<Waiter>, v: User, x: Waiter, y: Waiter)
    requires Ahead(Dequeue(q, v), x, y)
    ensures Ahead(q, x, y)
  {
    DequeueMembers(q[1..], v);
    var r := Dequeue(q, v);
    if q[0].u == v || Ahead(r[1..], x, y) {
      assert q[0].u != v ==> r[1..] == Dequeue(q[1..], v);
      DequeueAhead(q[1..], v, x, y);
    } else {
      assert r[1..] == Dequeue(q[1..], v);
    }
  }

  /** Removing waiters keeps the order. */
  lemma SubFirstCome(q: seq<Waiter>, r: seq<Waiter>, arr: seq<User>, u: User)
    requires FirstCome(q, arr) && forall w :: w in r ==> w in q
    requires forall x, y :: Ahead(r, x, y) ==> Ahead(q, x, y)
    ensures FirstCome(r, Track(arr, r, u))
  {
    TrackMembers(arr, r, u) by { assert forall w :: w in r ==> InQ(q, w.u); }
    forall x, y | Ahead(r, x, y) ensures Deserves(Track(arr, r, u), x, y) {
      AheadMembers(r, x, y);
      assert Deserves(arr, x, y);
      if !Before(x, y) { TrackOrder(arr, r, u, x.u, y.u); }
    }
  }

  /** Where an inserted ordinary waiter stands relative to the others. */
  lemma {:induction false} InsertAhead(q: seq<Waiter>, w: Waiter, x: Waiter, y: Waiter)
    requires Ranked(q) && !w.pre && Ahead(InsertQ(q, w), x, y)
    ensures Ahead(q, x, y) || (y == w && x in q) || (x == w && Before(w, y))
  {
    var r := InsertQ(q, w);
    if q == [] {
    } else if Before(w, q[0]) {
      assert r[1..] == q;
      if x == w && y in q && y != q[0] { assert y in q[1..]; }
    } else {
      assert r[1..] == InsertQ(q[1..], w);
      InsertMembers(q[1..], w);
      if Ahead(r[1..], x, y) { InsertAhead(q[1..], w, x, y); }
    }
  }

  lemma InsertFirstCome(q: seq<Waiter>, w: Waiter, arr: seq<User>)
    requires FirstCome(q, arr) && Ranked(q) && !w.pre && !InQ(q, w.u)
    ensures FirstCome(InsertQ(q, w), Track(arr, InsertQ(q, w), w.u))
  {
    var r := InsertQ(q, w);
    InsertMembers(q, w);
    assert forall x :: x in q ==> InQ(q, x.u);
    TrackMembers(arr, r, w.u);
    forall x, y | Ahead(r, x, y) ensures Deserves(Track(arr, r, w.u), x, y) {
      AheadMembers(r, x, y);
      InsertAhead(q, w, x, y);
      if Ahead(q, x, y) {
        assert Deserves(arr, x, y);
        if !Before(x, y) { TrackOrder(arr, r, w.u, x.u, y.u); }
      } else if y == w && x in q {
        TrackLast(arr, r, w.u, x.u);
      }
    }
  }

  lemma PreemptFirstCome(q: seq<Waiter>, w: Waiter, arr: seq<User>)
    requires FirstCome(q, arr) && w.pre && !PreQ(q) && !InQ(q, w.u)
    ensures FirstCome([w] + q, Track(arr, [w] + q, w.u))
  {
    var r := [w] + q;
    assert r[1..] == q;
    assert forall x :: x in q ==> InQ(q, x.u);
    TrackMembers(arr, r, w.u);
    forall x, y | Ahead(r, x, y) ensures Deserves(Track(arr, r, w.u), x, y) {
      AheadMembers(r, x, y);
      if Ahead(q, x, y) {
        assert Deserves(arr, x, y);
        if !Before(x, y) { TrackOrder(arr, r, w.u, x.u, y.u); }
      }
    }
  }

  lemma MoveFirstCome(q: seq<Waiter>, r: seq<Waiter>, u: User, arr: seq<User>)
    requires FirstCome(q, arr) && Ranked(q) && QueueMove(q, r, u)
    ensures FirstCome(r, Track(arr, r, u))
  {
    if r == q || (q != [] && r == q[1..]) {
      SubFirstCome(q, r, arr, u);
    } else if exists v :: r == Dequeue(q, v) {
      var v :| r == Dequeue(q, v);
      DequeueMembers(q, v);
      forall x, y | Ahead(r, x, y) ensures Ahead(q, x, y) { DequeueAhead(q, v, x, y); }
      SubFirstCome(q, r, arr, u);
    } else if !InQ(q, u) && exists p :: r == InsertQ(q, Waiter(u, p, false)) {
      var p :| r == InsertQ(q, Waiter(u, p, false));
      InsertFirstCome(q, Waiter(u, p, false), arr);
    } else {
      var p :| r == [Waiter(u, p, true)] + q;
      PreemptFirstCome(q, Waiter(u, p, true), arr);
    }
  }

  lemma {:induction false} RunFirstCome(f: State, es: seq<Event>, arr: seq<User>)
    requires Inv(f) && IsRun(f, es) && FirstCome(f.queue, arr)
    ensures FirstCome(Run(f, es).queue, Arrivals(f, es, arr))
    decreases es
  {
    if es != [] {
      var r := Apply(f, es[0]);
      StepGood(f, es[0]);
      MoveFirstCome(f.queue, r.queue, UserOf(es[0]), arr);
      RunFirstCome(r, es[1..], Track(arr, r.queue, UserOf(es[0])));
    }
  }

  /** The queue on every run: distinct users, at most one preempting waiter and only
      at the head, bounded, and ordered by rank and then by arrival. */
  lemma QueueDiscipline(qmax: nat, t2Secs: nat, es: seq<Event>)
    requires IsRun(Init(qmax, t2Secs), es)
    ensures var q := Run(Init(qmax, t2Secs), es).queue;
            && (forall i, j :: 0 <= i < j < |q| ==> q[i].u != q[j].u && !Before(q[j], q[i]) && !q[j].pre)
            && |q| <= qmax + 1 && (|q| == qmax + 1 ==> q[0].pre)
            && FirstCome(q, Arrivals(Init(qmax, t2Secs), es, []))
            && (forall i, j :: 0 <= i < j < |q| ==> Deserves(Arrivals(Init(qmax, t2Secs), es, []), q[i], q[j]))
  {
    var f := Init(qmax, t2Secs);
    InitInv(qmax, t2Secs);
    RunInv(f, es);
    RunQmax(f, es);
    RankedPositions(Run(f, es).queue);
    RunFirstCome(f, es, []);
    forall i, j | 0 <= i < j < |Run(f, es).queue|
      ensures Deserves(Arrivals(f, es, []), Run(f, es).queue[i], Run(f, es).queue[j])
    {
      AheadPositions(Run(f, es).queue, i, j);
    }
  }

  lemma {:induction false} RunQmax(f: State, es: seq<Event>)
    requires Inv(f) && IsRun(f, es)
    ensures Run(f, es).qmax == f.qmax
    decreases es
  {
    if es != [] {
      StepGood(f, es[0]);
      RunQmax(Apply(f, es[0]), es[1..]);
    }
  }

  /** MAIN: succession over runs.  While anybody waits, a step that changes the holder or emits a
      media effect hands the floor to the head of the queue, at the priority it asked for, the
      rest keeps waiting, and by rank and then by the arrivals of this run the head deserves it
      over every other waiter. */
  lemma SuccessionGrantsBest(qmax: nat, t2Secs: nat, es: seq<Event>, e: Event)
    requires IsRun(Init(qmax, t2Secs), es) && Enabled(Run(Init(qmax, t2Secs), es), e)
    ensures var f := Run(Init(qmax, t2Secs), es);
            var r := Apply(f, e);
            && (f.queue != [] && (r.fx != [] || Holder(r) != Holder(f)) ==>
                  && Holder(r) == Some(f.queue[0].u) && r.g == G.Taken && r.sprio == f.queue[0].p
                  && r.fx == [Bind(f.queue[0].u)] && r.queue == f.queue[1..]
                  && forall w :: w in f.queue[1..] ==> w.u != f.queue[0].u
                                                       && Deserves(Arrivals(Init(qmax, t2Secs), es, []), f.queue[0], w))
            && (forall p :: Fx.Release(p) in r.fx ==> f.queue == [] && p == Holder(f))
  {
    var (f0, f) := (Init(qmax, t2Secs), Run(Init(qmax, t2Secs), es));
    InitInv(qmax, t2Secs);
    RunInv(f0, es);
    RunFirstCome(f0, es, []);
    StepGood(f, e);
  }
}
