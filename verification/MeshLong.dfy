/** Messages longer than the largest one a reader takes: which of them a writer accepts, and what
    becomes of a session that does. */
module MeshLong {
  import opened Wrappers
  import opened MeshMsg
  import W = MeshWire
  import opened MeshFrames
  import opened MeshLanes
  import opened MeshLink

  // ---------------------------------------------------------------- what is accepted

  lemma {:induction false} PiecesCount(l: Lane, body: Bytes, n: nat)
    requires n > 0
    ensures |Pieces(l, body)| <= n <==> |body| <= n * ROOM
    decreases |body|
  {
    if |body| > ROOM {
      if n > 1 { PiecesCount(l, body[ROOM..], n - 1); }
      assert |Pieces(l, body)| == 1 + |Pieces(l, body[ROOM..])|;
    }
  }

  /** An open writer accepts a message if and only if its lane has no cap or its frames still fit:
      frames are counted, the length of the message is not looked at. */
  lemma AcceptsExactly(b: Box, m: M)
    requires b.closing.None?
    ensures var (c, used) := (Cap(m.LaneOf()), |b.q.At(m.LaneOf())|);
            Push(b, m).1.Queued? <==> c.None? || (used < c.value && |W.Encode(m)| <= (c.value - used) * ROOM)
  {
    var (l, c, used) := (m.LaneOf(), Cap(m.LaneOf()), |b.q.At(m.LaneOf())|);
    if c.Some? && used < c.value { PiecesCount(l, W.Encode(m), c.value - used); }
  }

  predicate Fits(body: Bytes, used: nat, cap: nat) { used < cap && |body| <= (cap - used) * 16378 }

  /** The same in terms of messages: what keeps the session and the declarations going is always accepted; questions
      and answers are refused, and data dropped, exactly if their frames do not fit beside 4096 and 8192 others. */
  lemma FamiliesAreQueued(b: Box, m: M)
    requires b.closing.None?
    ensures var (r, body) := (Push(b, m), W.Encode(m));
            if m.Greet? || m.Close? || m.KeepAlive? then
              r == (b.(q := b.q.(control := b.q.control + Pieces(Control, body))), Queued)
            else if m.Ask? || m.Reply? || m.Final? then
              r == if Fits(body, |b.q.request|, 4096) then (b.(q := b.q.(request := b.q.request + Pieces(Request, body))), Queued)
                   else (b.(full := b.full + 1), Full)
            else if m.PutIt? then
              r == if Fits(body, |b.q.data|, 8192) then (b.(q := b.q.(data := b.q.data + Pieces(Data, body))), Queued)
                   else (b.(dropped := b.dropped + 1), Dropped)
            else r == (b.(q := b.q.(declare := b.q.declare + Pieces(Declare, body))), Queued)
  {
    var body := W.Encode(m);
    if |b.q.request| < 4096 { PiecesCount(Request, body, 4096 - |b.q.request|); }
    if |b.q.data| < 8192 { PiecesCount(Data, body, 8192 - |b.q.data|); }
  }

  // ---------------------------------------------------------------- draining

  lemma {:induction false} BatchShrinks(q: Queues, size: nat)
    ensures Depth(Batch(q, size).1) <= Depth(q)
    ensures size < WRITE_BATCH && First(q).Some? ==> Depth(Batch(q, size).1) < Depth(q)
    decreases Depth(q)
  {
    if size < WRITE_BATCH && First(q).Some? {
      var l := First(q).value;
      BatchShrinks(q.With(l, q.At(l)[1..]), size + |Wire(q.At(l)[0])|);
    }
  }

  predicate Open(k: Link) { k.bye.None? && k.box.closing.None? }

  ghost predicate OnlyPops(es: seq<Event>) { forall e :: e in es ==> e.DoPop? }

  /** An open writer that is popped often enough has written everything. */
  lemma {:induction false} PopsDrain(k: Link) returns (es: seq<Event>)
    requires Open(k)
    ensures OnlyPops(es)
    ensures var r := Run(k, es); Drained(r) && Open(r) && r.flow == k.flow && r.acc == k.acc
    decreases Depth(k.box.q)
  {
    es := [];
    if k.box.q != Empty {
      BatchShrinks(k.box.q, 0);
      var more := PopsDrain(Popping(k));
      es := [DoPop] + more;
      assert es[1..] == more;
    }
  }

  // ---------------------------------------------------------------- the session that carries it

  lemma {:induction false} OnlyLane(ps: seq<Piece>, l: Lane)
    requires forall j: Lane :: j != l ==> On(ps, j) == []
    ensures On(ps, l) == ps
  {
    if ps != [] {
      forall j: Lane | j != l ensures On(ps[1..], j) == [] && ps[0].lane != j {
        assert On(ps, j) == (if ps[0].lane == j then [ps[0]] else []) + On(ps[1..], j);
      }
      assert ps[0].lane == l;
      OnlyLane(ps[1..], l);
      assert ps == [ps[0]] + ps[1..];
    }
  }

  /** A drained link that carried one message wrote the frames of that message. */
  lemma SentAlone(k: Link, m: M)
    requires Inv(k) && Drained(k) && k.flow == Add(Four([], [], [], []), m)
    ensures Written(k) == Pieces(m.LaneOf(), W.Encode(m))
  {
    var l := m.LaneOf();
    forall j: Lane | j != l ensures On(k.sent, j) == [] { WrittenOn(k, j); }
    OnlyLane(k.sent, l);
    WrittenOn(k, l);
    SpreadOne(l, m);
    assert [] + [m] == [m];
    assert k.sent + [] == k.sent;
  }

  /** MAIN: a message that is too long for the reader, once accepted, is written like any other,
      and the session dies without delivering anything of it. */
  lemma LongKills(m: M) returns (pops: seq<Event>)
    requires W.Proper(m) && Push(NewLink.box, m).1.Queued? && |W.Encode(m)| > MSG_MAX
    ensures OnlyPops(pops)
    ensures var k := Run(NewLink, [DoPush(m)] + pops);
            && Drained(k) && k.acc.At(m.LaneOf()) == [m]
            && Receive(NewRx, Stream(k)).dead && Receive(NewRx, Stream(k)).got == []
  {
    var k1 := Pushing(NewLink, m);
    pops := PopsDrain(k1);
    var es := [DoPush(m)] + pops;
    assert es[1..] == pops;
    NewLinkOk();
    PushOk(NewLink, m);
    RunOk(k1, pops);
    ReadAlone(Run(k1, pops), m);
  }

  lemma ReadAlone(k: Link, m: M)
    requires Inv(k) && Drained(k) && k.flow == Add(Four([], [], [], []), m) && W.Proper(m) && |W.Encode(m)| > MSG_MAX
    ensures Receive(NewRx, Stream(k)).dead && Receive(NewRx, Stream(k)).got == []
  {
    SentAlone(k, m);
    WrittenFramed(k);
    var ps := Written(k);
    var j := ReceivesFrames(NewRx, ps, |Flat(ps)|);
    assert ps[..j] == ps && Flat(ps)[..|Flat(ps)|] == Flat(ps);
    FeedMsg(NewRx, m.LaneOf(), m);
  }

  // ---------------------------------------------------------------- such messages exist

  lemma {:induction false} VarAtMost(v: nat, k: nat, tail: Bytes)
    requires k <= 9 && v < W.Limit(k)
    ensures |tail| < |W.PutVar(v, tail)| <= 10 - k + |tail|
    decreases 9 - k
  {
    if v >= 128 { VarAtMost(v / 128, k + 1, tail); }
  }

  lemma BytesAtMost(v: Bytes, tail: Bytes)
    requires W.Fits(|v|)
    ensures |v| + |tail| < |W.PutBytes(v, tail)| <= 10 + |v| + |tail|
  {
    W.LimitIsU64();
    VarAtMost(|v|, 0, v + tail);
  }

  /** Data: any payload of at least the largest message, up to what fits in the frames of the lane. */
  lemma LongPut(key: W.Text, payload: Bytes)
    requires W.IsText(key) && MSG_MAX <= |payload| && 21 + |key| + |payload| <= DATA_CAP * ROOM
    ensures var m: M := PutIt(key, payload);
            W.Proper(m) && Push(NewLink.box, m).1.Queued? && |W.Encode(m)| > MSG_MAX
  {
    BytesAtMost(payload, []);
    BytesAtMost(key, W.PutBytes(payload, []));
    AcceptsExactly(NewLink.box, PutIt(key, payload));
  }

  /** Declarations: any expression of at least that length. */
  lemma LongDeclare(kind: DeclKind, id: U64, expr: W.Text)
    requires W.IsText(expr) && MSG_MAX <= |expr|
    ensures var m: M := DeclareIt(kind, id, expr);
            W.Proper(m) && Push(NewLink.box, m).1.Queued? && |W.Encode(m)| > MSG_MAX
  {
    W.LimitIsU64();
    BytesAtMost(expr, []);
    VarAtMost(id, 0, W.PutBytes(expr, []));
    AcceptsExactly(NewLink.box, DeclareIt(kind, id, expr));
  }

  function Letters(n: nat): W.Text { seq(n, _ => 97) }

  lemma {:induction false} LettersAreText(n: nat)
    ensures W.Utf8(Letters(n)) && |Letters(n)| == n
  {
    if n > 0 {
      LettersAreText(n - 1);
      assert Letters(n)[1..] == Letters(n - 1);
    }
  }

  /** MAIN: for every length from the largest message up to the size of the data lane there is a
      put that the writer accepts and that costs the reader the session. */
  lemma LongPutKills(n: nat) returns (m: M, pops: seq<Event>)
    requires MSG_MAX <= n && 21 + n <= DATA_CAP * ROOM
    ensures m == PutIt([], Letters(n)) && OnlyPops(pops)
    ensures var k := Run(NewLink, [DoPush(m)] + pops);
            Drained(k) && k.acc.data == [m] && Receive(NewRx, Stream(k)).dead && Receive(NewRx, Stream(k)).got == []
  {
    LettersAreText(n);
    m := PutIt([], Letters(n));
    LongPut([], Letters(n));
    pops := LongKills(m);
  }

  /** MAIN: and so there is a declaration of every such length, without a limit. */
  lemma LongDeclareKills(kind: DeclKind, id: U64, n: nat) returns (m: M, pops: seq<Event>)
    requires MSG_MAX <= n && W.Fits(n)
    ensures m == DeclareIt(kind, id, Letters(n)) && OnlyPops(pops)
    ensures var k := Run(NewLink, [DoPush(m)] + pops);
            Drained(k) && k.acc.declare == [m] && Receive(NewRx, Stream(k)).dead && Receive(NewRx, Stream(k)).got == []
  {
    LettersAreText(n);
    m := DeclareIt(kind, id, Letters(n));
    LongDeclare(kind, id, Letters(n));
    pops := LongKills(m);
  }
}
