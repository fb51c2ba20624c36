/** The writing end of a session and the link it forms with the reading end:
    whatever way pushes and pops interleave and wherever the stream is cut, each
    lane delivers a prefix of what was accepted on it. */
module MeshLanes {
  import opened Wrappers
  import opened MeshMsg
  import W = MeshWire
  import opened F = MeshFrames

  const DATA_CAP := 8192
  const REQ_CAP := 4096
  const WRITE_BATCH := 65536

  type Queues = Four<seq<Piece>>

  const Empty: Queues := Four([], [], [], [])

  datatype Pushed = Queued | Dropped | Full | Closed

  /** closing: None while open; then what to say last, if anything. */
  datatype Box = Box(q: Queues, closing: Option<Option<CloseReason>>, dropped: nat, full: nat)

  // ---------------------------------------------------------------- outbox

  function Cap(l: Lane): Option<nat> {
    if l.Data? then Some(DATA_CAP) else if l.Request? then Some(REQ_CAP) else None
  }

  predicate Room(q: Queues, l: Lane, n: nat) { Cap(l).Some? ==> |q.At(l)| + n <= Cap(l).value }

  function Push(b: Box, m: M): (r: (Box, Pushed)) {
    var l := m.LaneOf();
    var ps := Pieces(l, W.Encode(m));
    if b.closing.Some? then (b, Closed)
    else if Room(b.q, l, |ps|) then (b.(q := b.q.With(l, b.q.At(l) + ps)), Queued)
    else if l.Data? then (b.(dropped := b.dropped + 1), Dropped)
    else (b.(full := b.full + 1), Full)
  }

  function Shut(b: Box, reason: Option<CloseReason>): Box {
    if b.closing.None? then b.(closing := Some(reason)) else b
  }

  /** The highest lane with something queued. */
  function First(q: Queues): (r: Option<Lane>)
    ensures r.None? ==> q == Empty
    ensures r.Some? ==> q.At(r.value) != []
  {
    if q.control != [] then Some(Lane.Control) else if q.declare != [] then Some(Lane.Declare)
    else if q.request != [] then Some(Lane.Request) else if q.data != [] then Some(Lane.Data) else None
  }

  function Depth(q: Queues): nat { |q.control| + |q.declare| + |q.request| + |q.data| }

  /** Frames for one write, at most one past WRITE_BATCH bytes, and what stays queued. */
  function Batch(q: Queues, size: nat): (seq<Piece>, Queues)
    decreases Depth(q)
  {
    if size >= WRITE_BATCH || First(q).None? then ([], q)
    else
      var l := First(q).value;
      var p := q.At(l)[0];
      var (ps, rest) := Batch(q.With(l, q.At(l)[1..]), size + |Wire(p)|);
      ([p] + ps, rest)
  }

  lemma BatchNext(q: Queues, size: nat, done: seq<Piece>)
    requires size < WRITE_BATCH && First(q).Some?
    ensures var l := First(q).value;
            var p := q.At(l)[0];
            var next := Batch(q.With(l, q.At(l)[1..]), size + |Wire(p)|);
            (done + Batch(q, size).0, Batch(q, size).1) == ((done + [p]) + next.0, next.1)
  {
    var l := First(q).value;
    var p := q.At(l)[0];
    Glue(done, [p], Batch(q.With(l, q.At(l)[1..]), size + |Wire(p)|).0);
  }

  datatype Popped = Write(bytes: Bytes) | Nothing | End(last: Option<CloseReason>)

  class Outbox {
    var q: Queues
    var closing: Option<Option<CloseReason>>
    var dropped: nat
    var full: nat

    function Now(): Box reads this { Box(q, closing, dropped, full) }

    constructor ()
      ensures Now() == Box(Empty, None, 0, 0)
    {
      q, closing, dropped, full := Empty, None, 0, 0;
    }

    method PushMsg(m: M) returns (r: Pushed)
      modifies this
      ensures (Now(), r) == Push(old(Now()), m)
    {
      var l, ps := Frames(m);
      if closing.Some? { return Closed; }
      var cap := Cap(l);
      if cap.Some? && |q.At(l)| + |ps| > cap.value {
        if l.Data? {
          dropped := dropped + 1;
          return Dropped;
        }
        full := full + 1;
        return Full;
      }
      q := q.With(l, q.At(l) + ps);
      r := Queued;
    }

    method Close(reason: Option<CloseReason>)
      modifies this
      ensures Now() == Shut(old(Now()), reason)
    {
      if closing.None? { closing := Some(reason); }
    }

    /** Fill one write from the highest non-empty lane, frame by frame. */
    method Pop() returns (r: Popped)
      modifies this
      ensures old(closing).Some? ==>
                r == End(old(closing.value)) && Now() == old(Now()).(q := Empty, closing := Some(None))
      ensures old(closing).None? ==>
                var (ps, rest) := Batch(old(q), 0);
                Now() == old(Now()).(q := rest) && r == (if ps == [] then Nothing else Write(Flat(ps)))
    {
      if closing.Some? {
        var c := closing.value;
        closing := Some(None);
        q := Empty;
        return End(c);
      }
      var out: Bytes := [];
      ghost var done: seq<Piece> := [];
      assert [] + Batch(q, 0).0 == Batch(q, 0).0;
      while |out| < WRITE_BATCH && First(q).Some?
        invariant closing == old(closing) && dropped == old(dropped) && full == old(full)
        invariant out == Flat(done) && (done == [] <==> out == [])
        invariant Batch(old(q), 0) == (done + Batch(q, |out|).0, Batch(q, |out|).1)
        decreases Depth(q)
      {
        var l := First(q).value;
        var p := q.At(l)[0];
        FlatSnoc(done, p);
        BatchNext(q, |out|, done);
        q := q.With(l, q.At(l)[1..]);
        out := out + Wire(p);
        done := done + [p];
      }
      assert done + [] == done;
      r := if out == [] then Nothing else Write(out);
    }
  }

  lemma {:induction false} FlatSplit(a: seq<Piece>, b: seq<Piece>)
    ensures Flat(a + b) == Flat(a) + Flat(b)
  {
    if a == [] {
      assert a + b == b;
    } else {
      assert (a + b)[0] == a[0] && (a + b)[1..] == a[1..] + b;
      FlatSplit(a[1..], b);
    }
  }

  lemma FlatSnoc(a: seq<Piece>, p: Piece)
    ensures Flat(a + [p]) == Flat(a) + Wire(p)
  {
    FlatSplit(a, [p]);
    assert [p][1..] == [];
    assert Flat([p]) == Wire(p) + [];
  }

  // ---------------------------------------------------------------- one lane of a frame sequence

  function On(ps: seq<Piece>, l: Lane): seq<Piece> {
    if ps == [] then [] else (if ps[0].lane == l then [ps[0]] else []) + On(ps[1..], l)
  }

  lemma {:induction false} OnSplit(a: seq<Piece>, b: seq<Piece>, l: Lane)
    ensures On(a + b, l) == On(a, l) + On(b, l)
  {
    if a == [] {
      assert a + b == b;
    } else {
      assert (a + b)[0] == a[0] && (a + b)[1..] == a[1..] + b;
      OnSplit(a[1..], b, l);
    }
  }

  ghost predicate AllOn(ps: seq<Piece>, l: Lane) { forall p :: p in ps ==> p.lane == l && Framed(p) }

  lemma {:induction false} OnOwn(ps: seq<Piece>, l: Lane, k: Lane)
    requires AllOn(ps, l)
    ensures On(ps, k) == if k == l then ps else []
  {
    if ps != [] { OnOwn(ps[1..], l, k); }
  }

  ghost predicate QueuesOk(q: Queues) { forall l: Lane :: AllOn(q.At(l), l) }

  lemma TailOk(q: Queues, l: Lane)
    requires QueuesOk(q) && q.At(l) != []
    ensures QueuesOk(q.With(l, q.At(l)[1..])) && q.At(l)[0].lane == l && Framed(q.At(l)[0])
  {
    var r := q.With(l, q.At(l)[1..]);
    assert AllOn(q.At(l), l);
    forall j: Lane ensures AllOn(r.At(j), j) { assert AllOn(q.At(j), j); }
  }

  lemma OnCons(p: Piece, ps: seq<Piece>, l: Lane)
    ensures On([p] + ps, l) == (if p.lane == l then [p] else []) + On(ps, l)
  {
    assert ([p] + ps)[1..] == ps;
  }

  lemma {:induction false} BatchOk(q: Queues, size: nat)
    requires QueuesOk(q)
    ensures QueuesOk(Batch(q, size).1) && forall p :: p in Batch(q, size).0 ==> Framed(p)
    decreases Depth(q)
  {
    if size < WRITE_BATCH && First(q).Some? {
      var l := First(q).value;
      TailOk(q, l);
      BatchOk(q.With(l, q.At(l)[1..]), size + |Wire(q.At(l)[0])|);
    }
  }

  lemma Glue(head: seq<Piece>, on: seq<Piece>, rest: seq<Piece>)
    ensures head + on + rest == head + (on + rest)
  {
  }

  /** A batch takes from the front of every queue and mixes nothing up. */
  lemma {:induction false} BatchKeeps(q: Queues, size: nat, k: Lane)
    requires QueuesOk(q)
    ensures On(Batch(q, size).0, k) + Batch(q, size).1.At(k) == q.At(k)
    decreases Depth(q)
  {
    if size < WRITE_BATCH && First(q).Some? {
      var l := First(q).value;
      var p := q.At(l)[0];
      var q1 := q.With(l, q.At(l)[1..]);
      TailOk(q, l);
      BatchKeeps(q1, size + |Wire(p)|, k);
      var (ps, rest) := Batch(q1, size + |Wire(p)|);
      OnCons(p, ps, k);
      Glue(if k == l then [p] else [], On(ps, k), rest.At(k));
    }
  }

  function Rank(l: Lane): nat { match l case Control => 0 case Declare => 1 case Request => 2 case Data => 3 }

  /** Higher lanes stay empty once empty, since a batch only takes away. */
  lemma {:induction false} EmptyStays(q: Queues, size: nat, k: Lane)
    requires q.At(k) == []
    ensures Batch(q, size).1.At(k) == []
    decreases Depth(q)
  {
    if size < WRITE_BATCH && First(q).Some? {
      var l := First(q).value;
      EmptyStays(q.With(l, q.At(l)[1..]), size + |Wire(q.At(l)[0])|, k);
    }
  }

  /** Higher lanes first. */
  ghost predicate InOrder(ps: seq<Piece>) { forall i, j :: 0 <= i < j < |ps| ==> Rank(ps[i].lane) <= Rank(ps[j].lane) }

  lemma InOrderCons(p: Piece, ps: seq<Piece>)
    requires InOrder(ps) && forall x :: x in ps ==> Rank(p.lane) <= Rank(x.lane)
    ensures InOrder([p] + ps)
  {
    var all := [p] + ps;
    forall i, j | 0 <= i < j < |all| ensures Rank(all[i].lane) <= Rank(all[j].lane) {
      assert all[j] == ps[j - 1];
      if i > 0 { assert all[i] == ps[i - 1]; }
    }
  }

  /** One write holds its frames in the order of the lanes. */
  lemma {:induction false} LanesInOrder(q: Queues, size: nat)
    requires QueuesOk(q)
    ensures InOrder(Batch(q, size).0)
    ensures First(q).Some? ==> forall p :: p in Batch(q, size).0 ==> Rank(First(q).value) <= Rank(p.lane)
    decreases Depth(q)
  {
    if size < WRITE_BATCH && First(q).Some? {
      var l := First(q).value;
      var (p, q1) := (q.At(l)[0], q.With(l, q.At(l)[1..]));
      TailOk(q, l);
      LanesInOrder(q1, size + |Wire(p)|);
      var rest := Batch(q1, size + |Wire(p)|).0;
      forall x | x in rest ensures Rank(l) <= Rank(x.lane) { assert Rank(l) <= Rank(First(q1).value); }
      InOrderCons(p, rest);
    }
  }

  /** A frame of a lane is written only when every higher lane has been written out: the frames of
      one write are in the order of the lanes, and no higher lane is left with anything. */
  lemma {:induction false} HigherLanesFirst(q: Queues, size: nat, p: Piece, k: Lane)
    requires QueuesOk(q) && p in Batch(q, size).0 && Rank(k) < Rank(p.lane)
    ensures Batch(q, size).1.At(k) == []
    ensures InOrder(Batch(q, size).0)
    decreases Depth(q)
  {
    LanesInOrder(q, size);
    var l := First(q).value;
    var (first, q1) := (q.At(l)[0], q.With(l, q.At(l)[1..]));
    TailOk(q, l);
    if p in Batch(q1, size + |Wire(first)|).0 {
      HigherLanesFirst(q1, size + |Wire(first)|, p, k);
    } else {
      assert p == first && k != l && q1.At(k) == [];
      EmptyStays(q1, size + |Wire(first)|, k);
    }
  }

  lemma {:induction false} BatchSize(q: Queues, size: nat)
    requires QueuesOk(q) && size < WRITE_BATCH + FRAME_MAX
    ensures size + |Flat(Batch(q, size).0)| < WRITE_BATCH + FRAME_MAX
    decreases Depth(q)
  {
    if size < WRITE_BATCH && First(q).Some? {
      var l := First(q).value;
      var p := q.At(l)[0];
      TailOk(q, l);
      var q1 := q.With(l, q.At(l)[1..]);
      BatchSize(q1, size + |Wire(p)|);
      var ps := Batch(q1, size + |Wire(p)|).0;
      assert ([p] + ps)[1..] == ps;
    }
  }

  // ---------------------------------------------------------------- the link

  datatype Event = DoPush(m: M) | DoPop | DoClose(reason: Option<CloseReason>) | DoKeepAlive

  /** box: the outbox; sent: the frames written so far; idle: the last pop found
      nothing; bye: the writer has stopped, after that last word.
      Two histories: acc is what each lane accepted; flow is the same in the order
      of the stream, keepalives included, of which the first mark control
      messages were written before the last empty pop. */
  datatype Link = Link(box: Box, sent: seq<Piece>, idle: bool, bye: Option<Option<CloseReason>>,
                       acc: Four<seq<M>>, flow: Four<seq<M>>, mark: nat)

  const NewLink := Link(Box(Empty, None, 0, 0), [], false, None, Four([], [], [], []), Four([], [], [], []), 0)

  function Add(h: Four<seq<M>>, m: M): Four<seq<M>> { h.With(m.LaneOf(), h.At(m.LaneOf()) + [m]) }

  function Pushing(k: Link, m: M): Link {
    var (b, r) := Push(k.box, m);
    if r.Queued? then k.(box := b, acc := Add(k.acc, m), flow := Add(k.flow, m)) else k.(box := b)
  }

  function Popping(k: Link): Link {
    var b := k.box;
    if k.bye.Some? then k
    else if b.closing.Some? then
      k.(box := b.(q := Empty, closing := Some(None)), bye := Some(b.closing.value), idle := false)
    else
      var (ps, rest) := Batch(b.q, 0);
      k.(box := b.(q := rest), sent := k.sent + ps, idle := ps == [], mark := |k.flow.control|)
  }

  function KeepingAlive(k: Link): Link {
    if k.bye.Some? || !k.idle || k.mark > |k.flow.control| then k
    else k.(sent := k.sent + Pieces(Control, W.Encode(KeepAlive)), mark := k.mark + 1,
            flow := k.flow.(control := k.flow.control[..k.mark] + [KeepAlive] + k.flow.control[k.mark..]))
  }

  /** The writer alternates pops and, after an empty one, keepalives; pushes and closes come at any time. */
  function Step(k: Link, e: Event): Link {
    match e
    case DoPush(m) => Pushing(k, m)
    case DoClose(reason) => k.(box := Shut(k.box, reason))
    case DoPop => Popping(k)
    case DoKeepAlive => KeepingAlive(k)
  }

  function Run(k: Link, es: seq<Event>): Link
    decreases |es|
  {
    if es == [] then k else Run(Step(k, es[0]), es[1..])
  }

  /** The bytes on the stream, the closing frame last. */
  function Stream(k: Link): Bytes { Flat(Written(k)) }

  function Written(k: Link): seq<Piece> {
    k.sent + (if k.bye.Some? && k.bye.value.Some? then Pieces(Control, W.Encode(Close(k.bye.value.value))) else [])
  }

  /** Frames of a sequence of messages of one lane. */
  function Spread(l: Lane, ms: seq<M>): seq<Piece> {
    if ms == [] then [] else Pieces(l, W.Encode(ms[0])) + Spread(l, ms[1..])
  }

  lemma {:induction false} SpreadSplit(l: Lane, a: seq<M>, b: seq<M>)
    ensures Spread(l, a + b) == Spread(l, a) + Spread(l, b)
  {
    if a == [] {
      assert a + b == b;
    } else {
      assert (a + b)[0] == a[0] && (a + b)[1..] == a[1..] + b;
      SpreadSplit(l, a[1..], b);
    }
  }

  lemma SpreadOne(l: Lane, m: M)
    ensures Spread(l, [m]) == Pieces(l, W.Encode(m))
  {
    assert [m][1..] == [];
  }

  /** The messages a reader is shown: keepalives are swallowed. */
  function Real(ms: seq<M>): seq<M> {
    if ms == [] then [] else (if ms[0].KeepAlive? then [] else [ms[0]]) + Real(ms[1..])
  }

  lemma {:induction false} RealSplit(a: seq<M>, b: seq<M>)
    ensures Real(a + b) == Real(a) + Real(b)
  {
    if a == [] {
      assert a + b == b;
    } else {
      assert (a + b)[0] == a[0] && (a + b)[1..] == a[1..] + b;
      RealSplit(a[1..], b);
    }
  }

  // ---------------------------------------------------------------- what every step keeps

  ghost predicate Own(ms: seq<M>, l: Lane) { forall m :: m in ms ==> W.Proper(m) && m.LaneOf() == l }

  /** on: frames of the lane written; q: frames queued; both cut from flow until the end. */
  ghost predicate Laid(l: Lane, on: seq<Piece>, q: seq<Piece>, flow: seq<M>, acc: seq<M>, open: bool) {
    && AllOn(q, l)
    && Own(flow, l)
    && Real(flow) == Real(acc)
    && (if open then on + q == Spread(l, flow) else on <= Spread(l, flow))
  }

  ghost predicate LaneOk(k: Link, l: Lane) {
    Laid(l, On(k.sent, l), k.box.q.At(l), k.flow.At(l), k.acc.At(l), k.bye.None?)
  }

  ghost predicate MarkOk(k: Link) {
    k.idle && k.bye.None? ==>
      && k.mark <= |k.flow.control|
      && On(k.sent, Control) == Spread(Control, k.flow.control[..k.mark])
      && k.box.q.control == Spread(Control, k.flow.control[k.mark..])
  }

  ghost predicate Inv(k: Link) {
    && (forall l: Lane :: LaneOk(k, l))
    && MarkOk(k)
    && forall p :: p in k.sent ==> Framed(p)
  }

  lemma PiecesOn(l: Lane, body: Bytes)
    ensures AllOn(Pieces(l, body), l)
  {
  }

  lemma LaidPush(l: Lane, on: seq<Piece>, q: seq<Piece>, flow: seq<M>, acc: seq<M>, open: bool, m: M, ps: seq<Piece>)
    requires Laid(l, on, q, flow, acc, open) && W.Proper(m) && m.LaneOf() == l
    requires ps == Spread(l, [m]) && AllOn(ps, l)
    ensures Laid(l, on, q + ps, flow + [m], acc + [m], open)
  {
    SpreadSplit(l, flow, [m]);
    RealSplit(flow, [m]);
    RealSplit(acc, [m]);
    Glue(on, q, ps);
  }

  lemma MarkPush(k: Link, m: M)
    requires MarkOk(k) && Push(k.box, m).1.Queued?
    ensures MarkOk(Pushing(k, m))
  {
    if k.idle && k.bye.None? && m.LaneOf() == Control {
      MarkSplit(k.flow.control, k.mark, m);
      var r := Pushing(k, m);
      assert r.flow.control == k.flow.control + [m];
      assert r.box.q.control == k.box.q.control + Pieces(Control, W.Encode(m));
    }
  }

  /** A message more behind the mark. */
  lemma MarkSplit(c: seq<M>, mark: nat, m: M)
    requires mark <= |c|
    ensures (c + [m])[..mark] == c[..mark]
    ensures Spread(Control, (c + [m])[mark..]) == Spread(Control, c[mark..]) + Pieces(Control, W.Encode(m))
  {
    assert (c + [m])[mark..] == c[mark..] + [m];
    SpreadSplit(Control, c[mark..], [m]);
    SpreadOne(Control, m);
  }

  lemma PushOk(k: Link, m: M)
    requires Inv(k) && W.Proper(m)
    ensures Inv(Pushing(k, m))
  {
    var l := m.LaneOf();
    var r := Pushing(k, m);
    if Push(k.box, m).1.Queued? {
      assert LaneOk(k, l);
      SpreadOne(l, m);
      PiecesOn(l, W.Encode(m));
      LaidPush(l, On(k.sent, l), k.box.q.At(l), k.flow.At(l), k.acc.At(l), k.bye.None?, m, Pieces(l, W.Encode(m)));
      forall j: Lane ensures LaneOk(r, j) { assert LaneOk(k, j); }
      MarkPush(k, m);
    } else {
      forall j: Lane ensures LaneOk(r, j) { assert LaneOk(k, j); }
    }
  }

  lemma AllQueuesOk(k: Link)
    requires Inv(k)
    ensures QueuesOk(k.box.q)
  {
    forall l: Lane ensures AllOn(k.box.q.At(l), l) { assert LaneOk(k, l); }
  }

  lemma LaidPop(l: Lane, on: seq<Piece>, q: seq<Piece>, flow: seq<M>, acc: seq<M>, taken: seq<Piece>, rest: seq<Piece>)
    requires Laid(l, on, q, flow, acc, true) && taken + rest == q && AllOn(rest, l)
    ensures Laid(l, on + taken, rest, flow, acc, true)
  {
    Glue(on, taken, rest);
  }

  lemma PopLane(k: Link, l: Lane)
    requires Inv(k)
    ensures LaneOk(Popping(k), l)
  {
    assert LaneOk(k, l);
    if k.bye.None? && k.box.closing.None? {
      var (ps, rest) := Batch(k.box.q, 0);
      AllQueuesOk(k);
      BatchKeeps(k.box.q, 0, l);
      BatchOk(k.box.q, 0);
      OnSplit(k.sent, ps, l);
      assert AllOn(rest.At(l), l);
      LaidPop(l, On(k.sent, l), k.box.q.At(l), k.flow.At(l), k.acc.At(l), On(ps, l), rest.At(l));
    } else if k.bye.None? {
      assert On(k.sent, l) <= On(k.sent, l) + k.box.q.At(l);
    }
  }

  /** An empty batch means empty queues. */
  lemma EmptyBatch(q: Queues)
    ensures Batch(q, 0).0 == [] ==> q == Empty && Batch(q, 0).1 == q
  {
  }

  lemma PopOk(k: Link)
    requires Inv(k)
    ensures Inv(Popping(k))
  {
    var r := Popping(k);
    forall l: Lane ensures LaneOk(r, l) { PopLane(k, l); }
    if k.bye.None? && k.box.closing.None? {
      AllQueuesOk(k);
      BatchOk(k.box.q, 0);
      EmptyBatch(k.box.q);
      var c := k.flow.control;
      assert c[..|c|] == c && c[|c|..] == [];
      assert LaneOk(r, Control);
    }
  }

  /** A keepalive between two messages of the control lane changes nothing a reader is shown. */
  lemma LaidAlive(on: seq<Piece>, q: seq<Piece>, a: seq<M>, b: seq<M>, acc: seq<M>)
    requires Laid(Control, on, q, a + b, acc, true) && on == Spread(Control, a) && q == Spread(Control, b)
    ensures Laid(Control, on + Pieces(Control, W.Encode(KeepAlive)), q, a + [KeepAlive] + b, acc, true)
    ensures on + Pieces(Control, W.Encode(KeepAlive)) == Spread(Control, a + [KeepAlive])
  {
    var ka: M := KeepAlive;
    SpreadOne(Control, ka);
    SpreadSplit(Control, a, [ka]);
    SpreadSplit(Control, a + [ka], b);
    RealSplit(a, b);
    RealSplit(a, [ka]);
    RealSplit(a + [ka], b);
    assert Real([ka]) == [];
    assert Real(a) + [] == Real(a);
  }

  lemma AliveOk(k: Link)
    requires Inv(k)
    ensures Inv(KeepingAlive(k))
  {
    var r := KeepingAlive(k);
    if k.bye.None? && k.idle {
      var ka := Pieces(Control, W.Encode(KeepAlive));
      AliveControl(k, ka);
      PiecesOn(Control, W.Encode(KeepAlive));
      forall l: Lane ensures LaneOk(r, l) {
        if l != Control { AliveOther(k, ka, l); }
      }
    }
  }

  lemma AliveOther(k: Link, ka: seq<Piece>, l: Lane)
    requires LaneOk(k, l) && l != Control && AllOn(ka, Control)
    ensures On(k.sent + ka, l) == On(k.sent, l)
  {
    OnSplit(k.sent, ka, l);
    OnOwn(ka, Control, l);
  }

  lemma AliveControl(k: Link, ka: seq<Piece>)
    requires LaneOk(k, Control) && MarkOk(k) && k.bye.None? && k.idle && ka == Pieces(Control, W.Encode(KeepAlive))
    ensures LaneOk(KeepingAlive(k), Control) && MarkOk(KeepingAlive(k))
  {
    var r := KeepingAlive(k);
    var (a, b) := (k.flow.control[..k.mark], k.flow.control[k.mark..]);
    assert k.flow.control == a + b;
    LaidAlive(On(k.sent, Control), k.box.q.control, a, b, k.acc.control);
    PiecesOn(Control, W.Encode(KeepAlive));
    OnSplit(k.sent, ka, Control);
    OnOwn(ka, Control, Control);
    assert r.flow.control[..r.mark] == a + [KeepAlive] && r.flow.control[r.mark..] == b;
  }

  lemma StepOk(k: Link, e: Event)
    requires Inv(k) && (e.DoPush? ==> W.Proper(e.m))
    ensures Inv(Step(k, e))
  {
    match e
    case DoPush(m) => PushOk(k, m);
    case DoPop => PopOk(k);
    case DoKeepAlive => AliveOk(k);
    case DoClose(_) => forall l: Lane ensures LaneOk(Step(k, e), l) { assert LaneOk(k, l); }
  }

  ghost predicate ProperRun(es: seq<Event>) { forall e :: e in es && e.DoPush? ==> W.Proper(e.m) }

  lemma {:induction false} RunOk(k: Link, es: seq<Event>)
    requires Inv(k) && ProperRun(es)
    ensures Inv(Run(k, es))
    decreases |es|
  {
    if es != [] {
      StepOk(k, es[0]);
      RunOk(Step(k, es[0]), es[1..]);
    }
  }

  // ---------------------------------------------------------------- one lane of the reading end

  /** What was delivered on lane l. */
  function Deliv(got: seq<Parcel>, l: Lane): seq<M> {
    if got == [] then [] else
    Deliv(got[..|got| - 1], l) + (if got[|got| - 1].lane == l then [got[|got| - 1].msg] else [])
  }

  lemma DelivSnoc(got: seq<Parcel>, p: Parcel, l: Lane)
    ensures Deliv(got + [p], l) == Deliv(got, l) + (if p.lane == l then [p.msg] else [])
  {
    assert (got + [p])[..|got|] == got;
  }

  ghost predicate Alike(a: Rx, b: Rx, l: Lane) {
    !a.dead && !b.dead && a.parts.At(l) == b.parts.At(l) && Deliv(a.got, l) == Deliv(b.got, l)
  }

  lemma TakeAlike(a: Rx, b: Rx, p: Piece, l: Lane)
    requires Alike(a, b, l) && !Take(a, p).dead
    ensures Alike(Take(a, p), if p.lane == l then Take(b, p) else b, l)
  {
    var body := a.parts.At(p.lane) + p.chunk;
    if !p.More() {
      var m := W.Decode(body).value;
      DelivSnoc(a.got, Parcel(p.lane, m), l);
      DelivSnoc(b.got, Parcel(p.lane, m), l);
    }
  }

  /** A lane of the reader sees only the frames of that lane. */
  lemma {:induction false} FeedAlike(a: Rx, b: Rx, ps: seq<Piece>, l: Lane)
    requires Alike(a, b, l) && !Feed(a, ps).dead
    ensures Alike(Feed(a, ps), Feed(b, On(ps, l)), l)
    decreases |ps|
  {
    if ps != [] {
      if Take(a, ps[0]).dead {
        DeadStays(Take(a, ps[0]), ps[1..]);
      } else {
        TakeAlike(a, b, ps[0], l);
        if ps[0].lane == l {
          FeedAlike(Take(a, ps[0]), Take(b, ps[0]), ps[1..], l);
          assert On(ps, l)[1..] == On(ps[1..], l);
        } else {
          FeedAlike(Take(a, ps[0]), b, ps[1..], l);
          assert On(ps, l) == On(ps[1..], l);
        }
      }
    }
  }
}
