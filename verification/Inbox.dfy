/** The inbox of a forwarding worker: many producers reserve, push and wake; the worker
    drains, and sleeps only after looking once more. Every atomic access is a step of its own. */
module Inbox {
  /** A packet that came in, one going out to so many rows, or control: a report, numbers to send again, or
      frames for so many rows. */
  datatype Item = In | Out(targets: nat) | Rtcp | Rtx(seqs: nat) | Frames(rows: nat)

  /** How many packets an item counts for: the producer reserves that many, and the worker, which has
      nothing but the item, gives as many back. */
  function Packets(i: Item): (n: nat)
    ensures n >= 1
  {
    match i
    case In => 1
    case Out(targets) => Most(targets, 1)
    case Rtcp => 1
    case Rtx(seqs) => Most(seqs, 1)
    case Frames(rows) => Most(rows, 1)
  }

  function Most(a: nat, b: nat): nat { if a > b then a else b }

  type Ring = seq<Item>

  /** Asked: the item's packets were reserved, and ok says whether they were within the limit;
      Pushed: the item is in the ring, sleeping not yet read; Waking: it was read as true. */
  datatype Producer = Idle | Asked(ring: nat, item: Item, ok: bool) | Pushed | Waking

  /** Drain(k): at ring k; Working: an item is being processed; Look(k): about to sleep, rings below k seen empty. */
  datatype Worker = Drain(k: nat) | Working(k: nat, item: Item) | Look(k: nat) | Parked | Awake

  datatype State = State(rings: seq<Ring>, queued: int, sleeping: bool, permit: bool, producers: seq<Producer>, worker: Worker)

  datatype Event =
    | Reserve(p: nat, ring: nat, item: Item)
    | Push(p: nat)
    | Undo(p: nat)
    | ReadSleeping(p: nat)
    | Unpark(p: nat)
    | Pop | Done | NextRing | Again | Sleep
    | LookNext | LookFound | TakePermit | Timeout | WakeUp

  function Set(s: State, p: nat, x: Producer): State
    requires p < |s.producers|
  {
    s.(producers := s.producers[p := x])
  }

  /** A push fails if the ring is full, which may be so at any time. */
  predicate Enabled(s: State, e: Event) {
    match e
    case Reserve(p, ring, item) => p < |s.producers| && s.producers[p].Idle? && ring < |s.rings|
    case Push(p) => p < |s.producers| && s.producers[p].Asked? && s.producers[p].ok && s.producers[p].ring < |s.rings|
    case Undo(p) => p < |s.producers| && s.producers[p].Asked?
    case ReadSleeping(p) => p < |s.producers| && s.producers[p].Pushed?
    case Unpark(p) => p < |s.producers| && s.producers[p].Waking?
    case Pop => s.worker.Drain? && s.worker.k < |s.rings| && s.rings[s.worker.k] != []
    case Done => s.worker.Working?
    case NextRing => s.worker.Drain? && s.worker.k < |s.rings| && s.rings[s.worker.k] == []
    case Again => s.worker.Drain? && s.worker.k == |s.rings|
    case Sleep => s.worker.Drain? && s.worker.k == |s.rings|
    case LookNext => s.worker.Look? && (s.worker.k < |s.rings| ==> s.rings[s.worker.k] == [])
    case LookFound => s.worker.Look? && s.worker.k < |s.rings| && s.rings[s.worker.k] != []
    case TakePermit => s.worker.Parked? && s.permit
    case Timeout => s.worker.Parked?
    case WakeUp => s.worker.Awake?
  }

  function Apply(limit: nat, s: State, e: Event): State
    requires Enabled(s, e)
  {
    match e
    case Reserve(p, ring, item) => Set(s.(queued := s.queued + Packets(item)), p, Asked(ring, item, s.queued + Packets(item) <= limit))
    case Push(p) =>
      var a := s.producers[p];
      Set(s.(rings := s.rings[a.ring := s.rings[a.ring] + [a.item]]), p, Pushed)
    case Undo(p) => Set(s.(queued := s.queued - Packets(s.producers[p].item)), p, Idle)
    case ReadSleeping(p) => Set(s, p, if s.sleeping then Waking else Idle)
    case Unpark(p) => Set(s.(permit := true), p, Idle)
    case Pop =>
      var k := s.worker.k;
      s.(worker := Working(k, s.rings[k][0]), rings := s.rings[k := s.rings[k][1..]])
    case Done => s.(worker := Drain(s.worker.k), queued := s.queued - Packets(s.worker.item))
    case NextRing => s.(worker := Drain(s.worker.k + 1))
    case Again => s.(worker := Drain(0))
    case Sleep => s.(sleeping := true, worker := Look(0))
    case LookNext => s.(worker := if s.worker.k >= |s.rings| then Parked else Look(s.worker.k + 1))
    case LookFound => s.(worker := Awake)
    case TakePermit => s.(permit := false, worker := Awake)
    case Timeout => s.(worker := Awake)
    case WakeUp => s.(sleeping := false, worker := Drain(0))
  }

  // ---------------------------------------------------------------- sums

  function Sum(r: Ring): nat { if r == [] then 0 else Packets(r[0]) + Sum(r[1..]) }

  function InRings(rs: seq<Ring>): nat { if rs == [] then 0 else Sum(rs[0]) + InRings(rs[1..]) }

  /** What a producer holds in reserve, all of it or only what was within the limit. */
  function Held(x: Producer, all: bool): nat { if x.Asked? && (all || x.ok) then Packets(x.item) else 0 }

  function Reserved(ps: seq<Producer>, all: bool): nat { if ps == [] then 0 else Held(ps[0], all) + Reserved(ps[1..], all) }

  function InHand(w: Worker): nat { if w.Working? then Packets(w.item) else 0 }

  lemma {:induction false} SumSnoc(r: Ring, x: Item)
    ensures Sum(r + [x]) == Sum(r) + Packets(x)
  {
    if r == [] {
      assert r + [x] == [x] && [x][1..] == [];
    } else {
      assert (r + [x])[1..] == r[1..] + [x];
      SumSnoc(r[1..], x);
    }
  }

  lemma {:induction false} RingsSet(rs: seq<Ring>, k: nat, r: Ring)
    requires k < |rs|
    ensures InRings(rs[k := r]) == InRings(rs) - Sum(rs[k]) + Sum(r)
  {
    if k == 0 {
      assert rs[k := r][1..] == rs[1..];
    } else {
      assert rs[k := r][1..] == rs[1..][k - 1 := r];
      RingsSet(rs[1..], k - 1, r);
    }
  }

  lemma {:induction false} ReservedSet(ps: seq<Producer>, p: nat, x: Producer, all: bool)
    requires p < |ps|
    ensures Reserved(ps[p := x], all) == Reserved(ps, all) - Held(ps[p], all) + Held(x, all)
  {
    if p == 0 {
      assert ps[p := x][1..] == ps[1..];
    } else {
      assert ps[p := x][1..] == ps[1..][p - 1 := x];
      ReservedSet(ps[1..], p - 1, x, all);
    }
  }

  // ---------------------------------------------------------------- invariants

  /** The counter is exactly what is in the rings, in the worker's hand and in reserve. */
  ghost predicate Exact(s: State) { s.queued == InRings(s.rings) + Reserved(s.producers, true) + InHand(s.worker) }

  /** What was let in never exceeds the limit. */
  ghost predicate Bounded(limit: nat, s: State) { InRings(s.rings) + Reserved(s.producers, false) + InHand(s.worker) <= limit }

  /** Somebody is about to wake the worker, or has. */
  ghost predicate WakeComing(s: State) {
    s.permit || exists p :: 0 <= p < |s.producers| && (s.producers[p].Pushed? || s.producers[p].Waking?)
  }

  predicate Down(w: Worker) { w.Look? || w.Parked? }

  predicate Seen(w: Worker, k: nat) { w.Parked? || (w.Look? && k < w.k) }

  /** While the worker goes down, sleeping is set, and a ring it saw empty has something only if a
      wake is coming. */
  ghost predicate Alert(s: State) {
    && (Down(s.worker) ==> s.sleeping)
    && (forall k :: 0 <= k < |s.rings| && Seen(s.worker, k) && s.rings[k] != [] ==> WakeComing(s))
  }

  ghost predicate Inv(limit: nat, s: State) {
    Exact(s) && Bounded(limit, s) && Alert(s) && Reserved(s.producers, false) <= Reserved(s.producers, true)
  }

  lemma {:induction false} GrantedIsPart(ps: seq<Producer>)
    ensures Reserved(ps, false) <= Reserved(ps, true)
  {
    if ps != [] { GrantedIsPart(ps[1..]); }
  }

  /** A wake stays coming when another producer moves. */
  lemma WakeStays(s: State, t: State, p: nat, x: Producer)
    requires p < |s.producers| && t.producers == s.producers[p := x] && t.permit == s.permit && WakeComing(s)
    requires (s.producers[p].Pushed? || s.producers[p].Waking?) ==> (x.Pushed? || x.Waking?)
    ensures WakeComing(t)
  {
    if !s.permit {
      var q :| 0 <= q < |s.producers| && (s.producers[q].Pushed? || s.producers[q].Waking?);
      assert t.producers[q].Pushed? || t.producers[q].Waking?;
    }
  }

  lemma ReserveOk(limit: nat, s: State, p: nat, ring: nat, item: Item)
    requires Inv(limit, s) && Enabled(s, Reserve(p, ring, item))
    ensures Inv(limit, Apply(limit, s, Reserve(p, ring, item)))
  {
    var t := Apply(limit, s, Reserve(p, ring, item));
    ReservedSet(s.producers, p, t.producers[p], true);
    ReservedSet(s.producers, p, t.producers[p], false);
    GrantedIsPart(t.producers);
    if WakeComing(s) { WakeStays(s, t, p, t.producers[p]); }
  }

  lemma PushOk(limit: nat, s: State, p: nat)
    requires Inv(limit, s) && Enabled(s, Push(p))
    ensures Inv(limit, Apply(limit, s, Push(p)))
  {
    var t := Apply(limit, s, Push(p));
    var a := s.producers[p];
    ReservedSet(s.producers, p, Pushed, true);
    ReservedSet(s.producers, p, Pushed, false);
    RingsSet(s.rings, a.ring, s.rings[a.ring] + [a.item]);
    SumSnoc(s.rings[a.ring], a.item);
    GrantedIsPart(t.producers);
    assert t.producers[p].Pushed?;
  }

  lemma UndoOk(limit: nat, s: State, p: nat)
    requires Inv(limit, s) && Enabled(s, Undo(p))
    ensures Inv(limit, Apply(limit, s, Undo(p)))
  {
    var t := Apply(limit, s, Undo(p));
    ReservedSet(s.producers, p, Idle, true);
    ReservedSet(s.producers, p, Idle, false);
    GrantedIsPart(t.producers);
    if WakeComing(s) { WakeStays(s, t, p, Idle); }
  }

  lemma WakersOk(limit: nat, s: State, e: Event)
    requires Inv(limit, s) && Enabled(s, e) && (e.ReadSleeping? || e.Unpark?)
    ensures Inv(limit, Apply(limit, s, e))
  {
    var t := Apply(limit, s, e);
    ReservedSet(s.producers, e.p, t.producers[e.p], true);
    ReservedSet(s.producers, e.p, t.producers[e.p], false);
    GrantedIsPart(t.producers);
    if e.ReadSleeping? && s.sleeping && WakeComing(s) { WakeStays(s, t, e.p, Waking); }
  }

  lemma WorkerOk(limit: nat, s: State, e: Event)
    requires Inv(limit, s) && Enabled(s, e) && !e.Reserve? && !e.Push? && !e.Undo? && !e.ReadSleeping? && !e.Unpark?
    ensures Inv(limit, Apply(limit, s, e))
  {
    var t := Apply(limit, s, e);
    if e.Pop? { RingsSet(s.rings, s.worker.k, s.rings[s.worker.k][1..]); }
    if e.LookNext? {
      forall k | 0 <= k < |t.rings| && Seen(t.worker, k) && t.rings[k] != [] ensures WakeComing(t) {
        assert Seen(s.worker, k) && WakeComing(s);
      }
    }
  }

  /** MAIN: every step of every interleaving keeps the count exact, the limit, and the wake. */
  lemma StepOk(limit: nat, s: State, e: Event)
    requires Inv(limit, s) && Enabled(s, e)
    ensures Inv(limit, Apply(limit, s, e))
  {
    match e
    case Reserve(p, ring, item) => ReserveOk(limit, s, p, ring, item);
    case Push(p) => PushOk(limit, s, p);
    case Undo(p) => UndoOk(limit, s, p);
    case ReadSleeping(_) => WakersOk(limit, s, e);
    case Unpark(_) => WakersOk(limit, s, e);
    case _ => WorkerOk(limit, s, e);
  }

  ghost predicate IsRun(limit: nat, s: State, es: seq<Event>)
    decreases |es|
  {
    es == [] || (Enabled(s, es[0]) && IsRun(limit, Apply(limit, s, es[0]), es[1..]))
  }

  ghost function Run(limit: nat, s: State, es: seq<Event>): State
    requires IsRun(limit, s, es)
    decreases |es|
  {
    if es == [] then s else Run(limit, Apply(limit, s, es[0]), es[1..])
  }

  lemma {:induction false} RunOk(limit: nat, s: State, es: seq<Event>)
    requires Inv(limit, s) && IsRun(limit, s, es)
    ensures Inv(limit, Run(limit, s, es))
    decreases |es|
  {
    if es != [] {
      StepOk(limit, s, es[0]);
      RunOk(limit, Apply(limit, s, es[0]), es[1..]);
    }
  }

  function Start(rings: nat, producers: nat): State {
    State(seq(rings, _ => []), 0, false, false, seq(producers, _ => Idle), Drain(0))
  }

  lemma {:induction false} NoRings(rs: seq<Ring>)
    requires forall k :: 0 <= k < |rs| ==> rs[k] == []
    ensures InRings(rs) == 0
  {
    if rs != [] { NoRings(rs[1..]); }
  }

  lemma {:induction false} NoReserve(ps: seq<Producer>, all: bool)
    requires forall p :: 0 <= p < |ps| ==> ps[p].Idle?
    ensures Reserved(ps, all) == 0
  {
    if ps != [] { NoReserve(ps[1..], all); }
  }

  lemma StartOk(limit: nat, rings: nat, producers: nat)
    ensures Inv(limit, Start(rings, producers))
  {
    var s := Start(rings, producers);
    NoRings(s.rings);
    NoReserve(s.producers, true);
    NoReserve(s.producers, false);
  }

  /** MAIN: in every interleaving of any number of producers with the worker, the packets let in and
      not yet processed stay within the limit; once nobody is in the middle of a push the counter is
      exactly what is in the rings; and a worker that is parked without a wake while no producer is
      in the middle of a push has nothing waiting, so it never sleeps on work. */
  lemma InboxIsSafe(limit: nat, rings: nat, producers: nat, es: seq<Event>)
    requires IsRun(limit, Start(rings, producers), es)
    ensures var s := Run(limit, Start(rings, producers), es);
            && InRings(s.rings) + InHand(s.worker) <= limit
            && ((forall x :: x in s.producers ==> x.Idle?) ==> s.queued == InRings(s.rings) + InHand(s.worker))
            && (s.worker.Parked? && !s.permit && (forall x :: x in s.producers ==> x.Idle?) ==> forall r :: r in s.rings ==> r == [])
  {
    StartOk(limit, rings, producers);
    RunOk(limit, Start(rings, producers), es);
    var s := Run(limit, Start(rings, producers), es);
    if forall x :: x in s.producers ==> x.Idle? {
      forall p | 0 <= p < |s.producers| ensures s.producers[p].Idle? { assert s.producers[p] in s.producers; }
      NoReserve(s.producers, true);
    }
  }

  // ---------------------------------------------------------------- order and admission

  /** The item that a step puts in ring k, or takes out of it. */
  function PutBy(s: State, e: Event, k: nat): Ring
    requires Enabled(s, e)
  {
    if e.Push? && s.producers[e.p].ring == k then [s.producers[e.p].item] else []
  }

  function TakenBy(s: State, e: Event, k: nat): Ring
    requires Enabled(s, e)
  {
    if e.Pop? && s.worker.k == k then [s.rings[k][0]] else []
  }

  /** Everything that producers put in ring k during a run, in order. */
  ghost function PutIn(limit: nat, s: State, es: seq<Event>, k: nat): Ring
    requires IsRun(limit, s, es)
    decreases |es|
  {
    if es == [] then [] else PutBy(s, es[0], k) + PutIn(limit, Apply(limit, s, es[0]), es[1..], k)
  }

  /** Everything that the worker took out of it, in order. */
  ghost function TakenOut(limit: nat, s: State, es: seq<Event>, k: nat): Ring
    requires IsRun(limit, s, es)
    decreases |es|
  {
    if es == [] then [] else TakenBy(s, es[0], k) + TakenOut(limit, Apply(limit, s, es[0]), es[1..], k)
  }

  lemma RingStep(limit: nat, s: State, e: Event, k: nat)
    requires Enabled(s, e) && k < |s.rings|
    ensures |Apply(limit, s, e).rings| == |s.rings|
    ensures s.rings[k] + PutBy(s, e, k) == TakenBy(s, e, k) + Apply(limit, s, e).rings[k]
  {
    if e.Pop? && s.worker.k == k { assert s.rings[k] == [s.rings[k][0]] + s.rings[k][1..]; }
  }

  lemma Regrouped(a: Ring, b: Ring, c: Ring)
    ensures (a + b) + c == a + (b + c)
  {
  }

  lemma {:induction false} RingIsQueue(limit: nat, s: State, es: seq<Event>, k: nat)
    requires IsRun(limit, s, es) && k < |s.rings|
    ensures |Run(limit, s, es).rings| == |s.rings|
    ensures s.rings[k] + PutIn(limit, s, es, k) == TakenOut(limit, s, es, k) + Run(limit, s, es).rings[k]
    decreases |es|
  {
    if es == [] {
      assert s.rings[k] + [] == [] + s.rings[k];
    } else {
      var t := Apply(limit, s, es[0]);
      RingStep(limit, s, es[0], k);
      RingIsQueue(limit, t, es[1..], k);
      Regrouped(s.rings[k], PutBy(s, es[0], k), PutIn(limit, t, es[1..], k));
      Regrouped(TakenBy(s, es[0], k), t.rings[k], PutIn(limit, t, es[1..], k));
      Regrouped(TakenBy(s, es[0], k), TakenOut(limit, t, es[1..], k), Run(limit, t, es[1..]).rings[k]);
    }
  }

  /** MAIN: in every interleaving, what the worker took out of a ring followed by what still is in it is exactly what
      producers put in, in that order: nothing is lost, doubled or overtaken. */
  lemma RingsAreFifo(limit: nat, rings: nat, producers: nat, es: seq<Event>, k: nat)
    requires IsRun(limit, Start(rings, producers), es) && k < rings
    ensures var (s0, s) := (Start(rings, producers), Run(limit, Start(rings, producers), es));
            |s.rings| == rings && TakenOut(limit, s0, es, k) + s.rings[k] == PutIn(limit, s0, es, k)
  {
    var s0 := Start(rings, producers);
    RingIsQueue(limit, s0, es, k);
    assert [] + PutIn(limit, s0, es, k) == PutIn(limit, s0, es, k);
  }

  /** MAIN: in every interleaving, a producer that asks is let in exactly if its packets fit the limit beside all that
      waits, is being processed or is asked for; so with nobody in the middle of a push, exactly if they fit beside
      what waits. A producer that is let in can push, and its item goes to the end of its ring. */
  lemma LetInExactly(limit: nat, rings: nat, producers: nat, es: seq<Event>, p: nat, ring: nat, item: Item)
    requires IsRun(limit, Start(rings, producers), es)
    requires Enabled(Run(limit, Start(rings, producers), es), Reserve(p, ring, item))
    ensures var s := Run(limit, Start(rings, producers), es);
            var t := Apply(limit, s, Reserve(p, ring, item));
            && (Enabled(t, Push(p)) <==> InRings(s.rings) + InHand(s.worker) + Reserved(s.producers, true) + Packets(item) <= limit)
            && ((forall x :: x in s.producers ==> x.Idle?) ==>
                  (Enabled(t, Push(p)) <==> InRings(s.rings) + InHand(s.worker) + Packets(item) <= limit))
            && (Enabled(t, Push(p)) ==> Apply(limit, t, Push(p)).rings == s.rings[ring := s.rings[ring] + [item]])
  {
    StartOk(limit, rings, producers);
    RunOk(limit, Start(rings, producers), es);
    var s := Run(limit, Start(rings, producers), es);
    if forall x :: x in s.producers ==> x.Idle? {
      forall i | 0 <= i < |s.producers| ensures s.producers[i].Idle? { assert s.producers[i] in s.producers; }
      NoReserve(s.producers, true);
    }
  }
}
