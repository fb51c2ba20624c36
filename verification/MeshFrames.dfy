/** Messages cut into frames, frames read back from the byte stream, and the
    per-lane reassembly at the reading end of a session. */
module MeshFrames {
  import opened Wrappers
  import opened MeshMsg
  import W = MeshWire

  type M = W.M

  const FRAME_MAX := 16384
  const FRAME_HEAD := 6
  const ROOM := FRAME_MAX - FRAME_HEAD
  const MSG_MAX := 67108864

  datatype Four<T> = Four(control: T, declare: T, request: T, data: T) {
    function At(l: Lane): T {
      match l
      case Control => control
      case Declare => declare
      case Request => request
      case Data => data
    }

    function With(l: Lane, v: T): (r: Four<T>)
      ensures r.At(l) == v
      ensures forall k: Lane :: k != l ==> r.At(k) == At(k)
    {
      match l
      case Control => this.(control := v)
      case Declare => this.(declare := v)
      case Request => this.(request := v)
      case Data => this.(data := v)
    }
  }

  /** One frame; bit 0 of the flags says that more of the message follows. */
  datatype Piece = Piece(lane: Lane, flags: Byte, chunk: Bytes) {
    predicate More() { flags % 2 == 1 }
  }

  // ---------------------------------------------------------------- cutting

  /** A message body as frames: full chunks marked More, then the remainder. */
  function Pieces(l: Lane, body: Bytes): (ps: seq<Piece>)
    ensures |ps| > 0
    ensures forall i :: 0 <= i < |ps| ==> ps[i].lane == l && |ps[i].chunk| <= ROOM && (ps[i].More() <==> i < |ps| - 1)
    decreases |body|
  {
    if |body| <= ROOM then [Piece(l, 0, body)]
    else [Piece(l, 1, body[..ROOM])] + Pieces(l, body[ROOM..])
  }

  function Joined(ps: seq<Piece>): Bytes {
    if ps == [] then [] else ps[0].chunk + Joined(ps[1..])
  }

  lemma {:induction false} CutJoins(l: Lane, body: Bytes)
    ensures Joined(Pieces(l, body)) == body
    decreases |body|
  {
    if |body| > ROOM {
      CutJoins(l, body[ROOM..]);
      assert Pieces(l, body)[1..] == Pieces(l, body[ROOM..]);
      assert body == body[..ROOM] + body[ROOM..];
    } else {
      assert Pieces(l, body)[1..] == [];
      assert body + [] == body;
    }
  }

  lemma PiecesStep(l: Lane, body: Bytes, at: nat, done: seq<Piece>)
    requires at + ROOM < |body|
    ensures done + Pieces(l, body[at..]) == (done + [Piece(l, 1, body[at..at + ROOM])]) + Pieces(l, body[at + ROOM..])
  {
    assert body[at..][..ROOM] == body[at..at + ROOM];
    assert body[at..][ROOM..] == body[at + ROOM..];
  }

  /** The loop over chunks, one frame each, looking ahead for the More flag. */
  method Frames(m: M) returns (l: Lane, ps: seq<Piece>)
    ensures l == m.LaneOf() && ps == Pieces(l, W.Encode(m))
  {
    l := m.LaneOf();
    var body := W.Encode(m);
    ps := [];
    var at := 0;
    while |body| - at > ROOM
      invariant 0 <= at <= |body|
      invariant ps + Pieces(l, body[at..]) == Pieces(l, body)
      decreases |body| - at
    {
      PiecesStep(l, body, at, ps);
      ps := ps + [Piece(l, 1, body[at..at + ROOM])];
      at := at + ROOM;
    }
    ps := ps + [Piece(l, 0, body[at..])];
  }

  // ---------------------------------------------------------------- bytes

  function LaneCode(l: Lane): Byte { match l case Control => 0 case Declare => 1 case Request => 2 case Data => 3 }

  function LaneFrom(b: Byte): Option<Lane> {
    if b == 0 then Some(Lane.Control) else if b == 1 then Some(Lane.Declare)
    else if b == 2 then Some(Lane.Request) else if b == 3 then Some(Lane.Data) else None
  }

  function FromBe32(s: Bytes): nat
    requires |s| >= 4
  {
    s[0] as int * 16777216 + s[1] as int * 65536 + s[2] as int * 256 + s[3]
  }

  /** The bytes of a frame: length of what follows, lane, flags, chunk. */
  function Wire(p: Piece): Bytes { Be32(|p.chunk| + 2) + [LaneCode(p.lane), p.flags] + p.chunk }

  function Flat(ps: seq<Piece>): Bytes {
    if ps == [] then [] else Wire(ps[0]) + Flat(ps[1..])
  }

  datatype Read = Got(piece: Piece, rest: Bytes) | Need | Bad

  /** Read one frame from the front of the stream. */
  function ReadFrame(s: Bytes): (r: Read)
    ensures r.Got? ==> |r.rest| < |s|
  {
    if |s| < 4 then Need else
    var n := FromBe32(s);
    if !(2 <= n <= FRAME_MAX - 4) then Bad
    else if |s| < 4 + n then Need
    else match LaneFrom(s[4])
      case None => Bad
      case Some(l) => Got(Piece(l, s[5], s[6..4 + n]), s[4 + n..])
  }

  predicate Framed(p: Piece) { |p.chunk| <= ROOM }

  lemma Be32Back(n: nat)
    requires n < 65536
    ensures FromBe32(Be32(n)) == n
  {
  }

  /** A written frame is read back whatever follows, and is never read from fewer bytes. */
  lemma FrameBack(p: Piece, rest: Bytes)
    requires Framed(p)
    ensures ReadFrame(Wire(p) + rest) == Got(p, rest)
  {
    var s := Wire(p) + rest;
    var n := |p.chunk| + 2;
    Be32Back(n);
    assert s[0] == Be32(n)[0] && s[1] == Be32(n)[1] && s[2] == Be32(n)[2] && s[3] == Be32(n)[3];
    assert FromBe32(s) == n;
    assert s[4] == LaneCode(p.lane) && s[5] == p.flags;
    assert s[6..4 + n] == p.chunk;
    assert s[4 + n..] == rest;
  }

  lemma FrameCut(p: Piece, n: nat)
    requires Framed(p) && n < |Wire(p)|
    ensures ReadFrame(Wire(p)[..n]) == Need
  {
    var s := Wire(p)[..n];
    if n >= 4 {
      Be32Back(|p.chunk| + 2);
      assert s[0] == Be32(|p.chunk| + 2)[0] && s[1] == Be32(|p.chunk| + 2)[1];
      assert s[2] == Be32(|p.chunk| + 2)[2] && s[3] == Be32(|p.chunk| + 2)[3];
    }
  }

  // ---------------------------------------------------------------- the reading end

  /** A delivered message with the lane its frames came on. */
  datatype Parcel = Parcel(lane: Lane, msg: M)

  /** dead: the session was closed for a protocol error. */
  datatype Rx = Rx(parts: Four<Bytes>, got: seq<Parcel>, dead: bool)

  const NewRx := Rx(Four([], [], [], []), [], false)

  /** A complete body is decoded; keepalives are swallowed, nonsense ends the session. */
  function Finish(rx: Rx, l: Lane, body: Bytes): Rx {
    match W.Decode(body)
    case None => rx.(dead := true)
    case Some(m) => if m.KeepAlive? then rx else rx.(got := rx.got + [Parcel(l, m)])
  }

  function Take(rx: Rx, p: Piece): Rx {
    var part := rx.parts.At(p.lane);
    if rx.dead then rx
    else if |part| + |p.chunk| > MSG_MAX then rx.(dead := true)
    else if p.More() then rx.(parts := rx.parts.With(p.lane, part + p.chunk))
    else Finish(rx.(parts := rx.parts.With(p.lane, [])), p.lane, part + p.chunk)
  }

  function Feed(rx: Rx, ps: seq<Piece>): Rx
    decreases |ps|
  {
    if ps == [] then rx else Feed(Take(rx, ps[0]), ps[1..])
  }

  /** Everything the reading end makes of a byte stream. */
  function Receive(rx: Rx, s: Bytes): Rx
    decreases |s|
  {
    if rx.dead then rx
    else match ReadFrame(s)
      case Need => rx
      case Bad => rx.(dead := true)
      case Got(p, rest) => Receive(Take(rx, p), rest)
  }

  datatype Assembled = Partial | Done(body: Bytes) | TooBig

  class Reassembler {
    var parts: Four<Bytes>

    constructor ()
      ensures parts == Four([], [], [], [])
    {
      parts := Four([], [], [], []);
    }

    /** Chunks of one lane accumulate untouched by the other lanes until one without More. */
    method Push(l: Lane, flags: Byte, chunk: Bytes) returns (r: Assembled)
      modifies this
      ensures forall k: Lane :: k != l ==> parts.At(k) == old(parts.At(k))
      ensures r.TooBig? <==> |old(parts.At(l))| + |chunk| > MSG_MAX
      ensures r.TooBig? ==> parts == old(parts)
      ensures r.Partial? ==> flags % 2 == 1 && parts == old(parts.With(l, parts.At(l) + chunk))
      ensures r.Done? ==> flags % 2 == 0 && parts == old(parts.With(l, [])) && r.body == old(parts.At(l)) + chunk
    {
      var p := parts.At(l);
      if |p| + |chunk| > MSG_MAX { return TooBig; }
      p := p + chunk;
      if flags % 2 != 0 {
        parts := parts.With(l, p);
        return Partial;
      }
      parts := parts.With(l, []);
      r := Done(p);
    }
  }

  /** The read loop over the bytes that arrive before the stream ends. */
  method ReadLoop(stream: Bytes) returns (got: seq<Parcel>, protocolError: bool)
    ensures got == Receive(NewRx, stream).got && protocolError == Receive(NewRx, stream).dead
  {
    var asm := new Reassembler();
    var s := stream;
    got := [];
    while true
      invariant Receive(NewRx, stream) == Receive(Rx(asm.parts, got, false), s)
      decreases |s|
    {
      var f := ReadFrame(s);
      if f.Need? { return got, false; }
      if f.Bad? { return got, true; }
      var a := asm.Push(f.piece.lane, f.piece.flags, f.piece.chunk);
      s := f.rest;
      if a.TooBig? { return got, true; }
      if a.Done? {
        var m := W.Decode(a.body);
        if m.None? { return got, true; }
        if !m.value.KeepAlive? { got := got + [Parcel(f.piece.lane, m.value)]; }
      }
    }
  }

  // ---------------------------------------------------------------- reading any prefix of the stream

  lemma {:induction false} DeadStays(rx: Rx, ps: seq<Piece>)
    requires rx.dead
    ensures Feed(rx, ps) == rx
    decreases |ps|
  {
    if ps != [] { DeadStays(Take(rx, ps[0]), ps[1..]); }
  }

  lemma {:induction false} FeedSplit(rx: Rx, a: seq<Piece>, b: seq<Piece>)
    ensures Feed(rx, a + b) == Feed(Feed(rx, a), b)
    decreases |a|
  {
    if a == [] {
      assert a + b == b;
    } else {
      assert (a + b)[0] == a[0] && (a + b)[1..] == a[1..] + b;
      FeedSplit(Take(rx, a[0]), a[1..], b);
    }
  }

  lemma ReceivesFirst(rx: Rx, p: Piece, rest: Bytes)
    requires !rx.dead && Framed(p)
    ensures Receive(rx, Wire(p) + rest) == Receive(Take(rx, p), rest)
  {
    FrameBack(p, rest);
  }

  lemma FlatHead(ps: seq<Piece>, n: nat)
    requires ps != [] && |Wire(ps[0])| <= n <= |Flat(ps)|
    ensures var w := Wire(ps[0]);
            n - |w| <= |Flat(ps[1..])| && Flat(ps)[..n] == w + Flat(ps[1..])[..n - |w|] && |Flat(ps)| == |w| + |Flat(ps[1..])|
  {
  }

  /** Reading the first n bytes of a written stream is taking in its first k frames. */
  lemma {:induction false} ReceivesFrames(rx: Rx, ps: seq<Piece>, n: nat) returns (k: nat)
    requires n <= |Flat(ps)| && forall p :: p in ps ==> Framed(p)
    ensures k <= |ps| && Receive(rx, Flat(ps)[..n]) == Feed(rx, ps[..k])
    ensures n == |Flat(ps)| ==> k == |ps|
    decreases |ps|
  {
    var s := Flat(ps)[..n];
    if rx.dead {
      k := |ps|;
      DeadStays(rx, ps[..k]);
    } else if ps == [] {
      k := 0;
    } else if n < |Wire(ps[0])| {
      k := 0;
      assert s == Wire(ps[0])[..n];
      FrameCut(ps[0], n);
    } else {
      var w := Wire(ps[0]);
      FlatHead(ps, n);
      ReceivesCons(rx, ps[0], s, Flat(ps[1..])[..n - |w|]);
      var j := ReceivesFrames(Take(rx, ps[0]), ps[1..], n - |w|);
      FeedCons(rx, ps, j);
      k := j + 1;
    }
  }

  lemma ReceivesCons(rx: Rx, p: Piece, s: Bytes, tail: Bytes)
    requires !rx.dead && Framed(p) && s == Wire(p) + tail
    ensures Receive(rx, s) == Receive(Take(rx, p), tail)
  {
    ReceivesFirst(rx, p, tail);
  }

  lemma FeedCons(rx: Rx, ps: seq<Piece>, j: nat)
    requires j < |ps|
    ensures Feed(rx, ps[..j + 1]) == Feed(Take(rx, ps[0]), ps[1..][..j])
  {
    assert ps[..j + 1][1..] == ps[1..][..j];
  }

  /** A receiver that died had the same deliveries after the frames before that. */
  lemma {:induction false} LiveFrames(rx: Rx, ps: seq<Piece>) returns (k: nat)
    requires !rx.dead
    ensures k <= |ps| && !Feed(rx, ps[..k]).dead && Feed(rx, ps).got == Feed(rx, ps[..k]).got
    ensures k == |ps| <==> !Feed(rx, ps).dead
    ensures k < |ps| ==> Take(Feed(rx, ps[..k]), ps[k]).dead
    decreases |ps|
  {
    if ps == [] {
      k := 0;
    } else if Take(rx, ps[0]).dead {
      k := 0;
      DeadStays(Take(rx, ps[0]), ps[1..]);
    } else {
      k := LiveFrames(Take(rx, ps[0]), ps[1..]);
      k := k + 1;
      assert ps[..k][1..] == ps[1..][..k - 1];
    }
    if k == |ps| { assert ps[..k] == ps; }
  }
}
