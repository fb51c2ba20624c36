/** Lane fidelity: what the reading end of a session delivers, lane by lane. */
module MeshLink {
  import opened Wrappers
  import opened MeshMsg
  import W = MeshWire
  import opened MeshFrames
  import opened MeshLanes

  ghost predicate Short(ms: seq<M>) { forall m :: m in ms ==> |W.Encode(m)| <= MSG_MAX }

  // ---------------------------------------------------------------- feeding one lane

  lemma TakeMore(rx: Rx, l: Lane, chunk: Bytes)
    requires !rx.dead && |rx.parts.At(l)| + |chunk| <= MSG_MAX
    ensures Take(rx, Piece(l, 1, chunk)) == rx.(parts := rx.parts.With(l, rx.parts.At(l) + chunk))
  {
    assert Piece(l, 1, chunk).More();
  }

  lemma {:induction false} FramesFit(l: Lane, body: Bytes, k: nat)
    requires k < |Pieces(l, body)|
    ensures k * ROOM <= |body|
    decreases |body|
  {
    if k > 0 { FramesFit(l, body[ROOM..], k - 1); }
  }

  /** Some but not all frames of a body deliver nothing. */
  lemma {:induction false} FeedPartial(rx: Rx, l: Lane, body: Bytes, k: nat)
    requires !rx.dead && k < |Pieces(l, body)|
    ensures var r := Feed(rx, Pieces(l, body)[..k]);
            && r.got == rx.got && (|rx.parts.At(l)| + |body| <= MSG_MAX ==> !r.dead)
            && (|rx.parts.At(l)| <= MSG_MAX ==> (r.dead <==> |rx.parts.At(l)| + k * ROOM > MSG_MAX))
            && k * ROOM <= |body| && (!r.dead ==> r.parts.At(l) == rx.parts.At(l) + body[..k * ROOM])
    decreases |body|
  {
    var ps := Pieces(l, body);
    if k > 0 {
      var head := body[..ROOM];
      assert ps[..k][1..] == Pieces(l, body[ROOM..])[..k - 1];
      FramesFit(l, body, k);
      if |rx.parts.At(l)| + ROOM > MSG_MAX {
        DeadStays(Take(rx, ps[0]), ps[..k][1..]);
      } else {
        TakeMore(rx, l, head);
        FeedPartial(Take(rx, ps[0]), l, body[ROOM..], k - 1);
        assert body[..k * ROOM] == head + body[ROOM..][..(k - 1) * ROOM];
      }
    } else {
      assert rx.parts.At(l) + [] == rx.parts.At(l);
    }
  }

  /** All frames of a body deliver it, if it does not exceed the largest message. */
  lemma {:induction false} FeedWhole(rx: Rx, l: Lane, body: Bytes)
    requires !rx.dead
    ensures var r := Feed(rx, Pieces(l, body));
            var whole := rx.parts.At(l) + body;
            if |whole| <= MSG_MAX then r == Finish(rx.(parts := rx.parts.With(l, [])), l, whole)
            else r.dead && r.got == rx.got
    decreases |body|
  {
    var ps := Pieces(l, body);
    if |body| <= ROOM {
      assert ps[1..] == [];
    } else {
      var (head, tail) := (body[..ROOM], body[ROOM..]);
      assert ps[1..] == Pieces(l, tail);
      if |rx.parts.At(l)| + ROOM > MSG_MAX {
        DeadStays(Take(rx, ps[0]), ps[1..]);
      } else {
        TakeMore(rx, l, head);
        var rx1 := rx.(parts := rx.parts.With(l, rx.parts.At(l) + head));
        FeedWhole(rx1, l, tail);
        assert rx.parts.At(l) + head + tail == rx.parts.At(l) + body;
        assert rx1.parts.With(l, []) == rx.parts.With(l, []);
      }
    }
  }

  lemma FinishMsg(rx: Rx, l: Lane, m: M)
    requires W.Proper(m)
    ensures var r := Finish(rx, l, W.Encode(m));
            r.dead == rx.dead && r.parts == rx.parts && Deliv(r.got, l) == Deliv(rx.got, l) + Real([m])
  {
    W.DecodeEncode(m);
    DelivSnoc(rx.got, Parcel(l, m), l);
    assert [m][1..] == [];
    assert Real([m]) == if m.KeepAlive? then [] else [m];
  }

  lemma FeedMsg(rx: Rx, l: Lane, m: M)
    requires !rx.dead && rx.parts.At(l) == [] && W.Proper(m)
    ensures var r := Feed(rx, Pieces(l, W.Encode(m)));
            if |W.Encode(m)| <= MSG_MAX then !r.dead && r.parts.At(l) == [] && Deliv(r.got, l) == Deliv(rx.got, l) + Real([m])
            else r.dead && r.got == rx.got
  {
    FeedWhole(rx, l, W.Encode(m));
    assert rx.parts.At(l) + W.Encode(m) == W.Encode(m);
    FinishMsg(rx.(parts := rx.parts.With(l, [])), l, m);
  }

  lemma FeedOn(rx: Rx, l: Lane, m: M, first: seq<Piece>, rest: seq<Piece>) returns (r1: Rx)
    requires !rx.dead && rx.parts.At(l) == [] && W.Proper(m) && first == Pieces(l, W.Encode(m))
    ensures Feed(rx, first + rest) == Feed(r1, rest)
    ensures r1.dead <==> |W.Encode(m)| > MSG_MAX
    ensures r1.dead ==> Feed(r1, rest) == r1 && r1.got == rx.got
    ensures !r1.dead ==> r1.parts.At(l) == [] && Deliv(r1.got, l) == Deliv(rx.got, l) + Real([m])
  {
    r1 := Feed(rx, first);
    FeedSplit(rx, first, rest);
    FeedMsg(rx, l, m);
    if r1.dead { DeadStays(r1, rest); }
  }

  /** Part of the first message only. */
  lemma FeedStart(rx: Rx, l: Lane, ms: seq<M>, n: nat)
    requires !rx.dead && rx.parts.At(l) == [] && ms != [] && n < |Pieces(l, W.Encode(ms[0]))|
    ensures var r := Feed(rx, Spread(l, ms)[..n]);
            r.got == rx.got && (Short(ms) ==> !r.dead) && n < |Spread(l, ms)|
  {
    FeedPartial(rx, l, W.Encode(ms[0]), n);
    assert Spread(l, ms)[..n] == Pieces(l, W.Encode(ms[0]))[..n];
  }

  ghost predicate Fed(rx: Rx, r: Rx, l: Lane, ms: seq<M>, all: bool) {
    && Deliv(r.got, l) <= Deliv(rx.got, l) + Real(ms)
    && (Short(ms) ==> !r.dead)
    && (all && !r.dead ==> Short(ms) && Deliv(r.got, l) == Deliv(rx.got, l) + Real(ms))
  }

  lemma FedCons(rx: Rx, r1: Rx, r: Rx, l: Lane, m: M, ms: seq<M>, mms: seq<M>, all: bool)
    requires if |W.Encode(m)| <= MSG_MAX then Deliv(r1.got, l) == Deliv(rx.got, l) + Real([m]) && Fed(r1, r, l, ms, all)
             else r.dead && r.got == rx.got
    requires mms != [] && mms[0] == m && mms[1..] == ms
    ensures Fed(rx, r, l, mms, all)
  {
    assert mms == [m] + ms;
    RealSplit([m], ms);
    assert Deliv(rx.got, l) + Real([m]) + Real(ms) == Deliv(rx.got, l) + Real(mms);
    assert m in mms;
  }

  lemma SpreadHead(l: Lane, ms: seq<M>, n: nat) returns (first: seq<Piece>, rest: seq<Piece>)
    requires ms != [] && |Pieces(l, W.Encode(ms[0]))| <= n <= |Spread(l, ms)|
    ensures first == Pieces(l, W.Encode(ms[0])) && Spread(l, ms)[..n] == first + rest
    ensures |rest| <= |Spread(l, ms[1..])| && rest == Spread(l, ms[1..])[..|rest|]
    ensures |rest| == |Spread(l, ms[1..])| <==> n == |Spread(l, ms)|
  {
    first := Pieces(l, W.Encode(ms[0]));
    rest := Spread(l, ms[1..])[..n - |first|];
  }

  /** The first n frames of a lane deliver a prefix of its messages; all frames deliver
      all messages, unless one is too long, and that is the only way to die. */
  lemma {:induction false} FeedSpread(rx: Rx, l: Lane, ms: seq<M>, n: nat)
    requires !rx.dead && rx.parts.At(l) == [] && Own(ms, l) && n <= |Spread(l, ms)|
    ensures Fed(rx, Feed(rx, Spread(l, ms)[..n]), l, ms, n == |Spread(l, ms)|)
    decreases |ms|
  {
    if ms == [] {
      assert Deliv(rx.got, l) + [] == Deliv(rx.got, l);
    } else if n < |Pieces(l, W.Encode(ms[0]))| {
      FeedStart(rx, l, ms, n);
    } else {
      var first, rest := SpreadHead(l, ms, n);
      var r1 := FeedOn(rx, l, ms[0], first, rest);
      if !r1.dead { FeedSpread(r1, l, ms[1..], |rest|); }
      FedCons(rx, r1, Feed(rx, first + rest), l, ms[0], ms[1..], ms, n == |Spread(l, ms)|);
    }
  }

  /** More than the largest message is among the first n frames of some message of ms. */
  predicate TooMuch(l: Lane, ms: seq<M>, n: nat)
    decreases |ms|
  {
    ms != [] &&
    var (body, frames) := (W.Encode(ms[0]), |Pieces(l, W.Encode(ms[0]))|);
    if n < frames then n * ROOM > MSG_MAX else |body| > MSG_MAX || TooMuch(l, ms[1..], n - frames)
  }

  /** The first n frames of a lane kill exactly if they carry too much of one message. */
  lemma {:induction false} DiesExactly(rx: Rx, l: Lane, ms: seq<M>, n: nat)
    requires !rx.dead && rx.parts.At(l) == [] && Own(ms, l) && n <= |Spread(l, ms)|
    ensures Feed(rx, Spread(l, ms)[..n]).dead <==> TooMuch(l, ms, n)
    decreases |ms|
  {
    if ms != [] {
      if n < |Pieces(l, W.Encode(ms[0]))| {
        DiesPartly(rx, l, ms, n);
      } else {
        var r1, m := FeedFirst(rx, l, ms, n);
        if !r1.dead { DiesExactly(r1, l, ms[1..], m); }
      }
    }
  }

  lemma DiesPartly(rx: Rx, l: Lane, ms: seq<M>, n: nat)
    requires !rx.dead && rx.parts.At(l) == [] && ms != [] && n < |Pieces(l, W.Encode(ms[0]))|
    ensures n <= |Spread(l, ms)| && (Feed(rx, Spread(l, ms)[..n]).dead <==> n * ROOM > MSG_MAX)
  {
    FeedPartial(rx, l, W.Encode(ms[0]), n);
    assert Spread(l, ms)[..n] == Pieces(l, W.Encode(ms[0]))[..n];
  }

  /** The first message of a lane and m frames more. */
  lemma FeedFirst(rx: Rx, l: Lane, ms: seq<M>, n: nat) returns (r1: Rx, m: nat)
    requires !rx.dead && rx.parts.At(l) == [] && ms != [] && W.Proper(ms[0])
    requires |Pieces(l, W.Encode(ms[0]))| <= n <= |Spread(l, ms)|
    ensures m == n - |Pieces(l, W.Encode(ms[0]))| <= |Spread(l, ms[1..])|
    ensures Feed(rx, Spread(l, ms)[..n]) == Feed(r1, Spread(l, ms[1..])[..m])
    ensures (r1.dead <==> |W.Encode(ms[0])| > MSG_MAX) && (r1.dead ==> Feed(r1, Spread(l, ms[1..])[..m]) == r1)
    ensures !r1.dead ==> r1.parts.At(l) == []
  {
    var first, rest := SpreadHead(l, ms, n);
    r1 := FeedOn(rx, l, ms[0], first, rest);
    m := |rest|;
  }

  // ---------------------------------------------------------------- the whole stream

  lemma WrittenFramed(k: Link)
    requires Inv(k)
    ensures forall p :: p in Written(k) ==> Framed(p)
  {
  }

  lemma OnTake(ps: seq<Piece>, i: nat, l: Lane)
    requires i <= |ps|
    ensures On(ps[..i], l) <= On(ps, l)
  {
    assert ps[..i] + ps[i..] == ps;
    OnSplit(ps[..i], ps[i..], l);
  }

  /** The first i frames of a stream, all taken in alive, one lane of which carries flow. */
  lemma LiveLane(ps: seq<Piece>, i: nat, l: Lane, flow: seq<M>)
    requires i <= |ps| && !Feed(NewRx, ps[..i]).dead && On(ps, l) <= Spread(l, flow) && Own(flow, l)
    ensures var r := Feed(NewRx, ps[..i]);
            && Deliv(r.got, l) <= Real(flow)
            && (i == |ps| && On(ps, l) == Spread(l, flow) ==> Short(flow) && Deliv(r.got, l) == Real(flow))
  {
    FeedAlike(NewRx, NewRx, ps[..i], l);
    OnTake(ps, i, l);
    if i == |ps| { assert ps[..i] == ps; }
    FedFromNew(l, On(ps[..i], l), flow);
  }

  lemma FedFromNew(l: Lane, on: seq<Piece>, flow: seq<M>)
    requires on <= Spread(l, flow) && Own(flow, l)
    ensures var r := Feed(NewRx, on);
            && Deliv(r.got, l) <= Real(flow)
            && (on == Spread(l, flow) && !r.dead ==> Short(flow) && Deliv(r.got, l) == Real(flow))
  {
    var n := |on|;
    assert on == Spread(l, flow)[..n];
    FeedSpread(NewRx, l, flow, n);
    FedNothingYet(Feed(NewRx, on), l, flow, n == |Spread(l, flow)|);
  }

  lemma FedNothingYet(r: Rx, l: Lane, ms: seq<M>, all: bool)
    requires Fed(NewRx, r, l, ms, all)
    ensures Deliv(r.got, l) <= Real(ms) && (all && !r.dead ==> Short(ms) && Deliv(r.got, l) == Real(ms))
  {
    assert Deliv(NewRx.got, l) == [];
    assert [] + Real(ms) == Real(ms);
  }

  lemma OnNext(ps: seq<Piece>, i: nat)
    requires i < |ps|
    ensures On(ps[..i + 1], ps[i].lane) == On(ps[..i], ps[i].lane) + [ps[i]]
  {
    assert ps[..i + 1] == ps[..i] + [ps[i]];
    OnSplit(ps[..i], [ps[i]], ps[i].lane);
    assert [ps[i]][1..] == [];
  }

  lemma FeedNext(rx: Rx, ps: seq<Piece>, p: Piece)
    ensures Feed(rx, ps + [p]) == Take(Feed(rx, ps), p)
  {
    FeedSplit(rx, ps, [p]);
    assert [p][1..] == [];
  }

  /** Whether a frame kills depends on its lane only. */
  lemma DeadAlike(a: Rx, b: Rx, p: Piece)
    requires Alike(a, b, p.lane)
    ensures Take(a, p).dead <==> Take(b, p).dead
  {
  }

  /** A frame that kills a live reader belongs to a message that is too long. */
  lemma DeathNeedsLong(ps: seq<Piece>, i: nat, flow: seq<M>)
    requires i < |ps| && !Feed(NewRx, ps[..i]).dead && Take(Feed(NewRx, ps[..i]), ps[i]).dead
    requires On(ps, ps[i].lane) <= Spread(ps[i].lane, flow) && Own(flow, ps[i].lane)
    ensures !Short(flow)
  {
    var l := ps[i].lane;
    FeedAlike(NewRx, NewRx, ps[..i], l);
    DeadAlike(Feed(NewRx, ps[..i]), Feed(NewRx, On(ps[..i], l)), ps[i]);
    OnTake(ps, i + 1, l);
    OnNext(ps, i);
    FeedNext(NewRx, On(ps[..i], l), ps[i]);
    var n := |On(ps[..i + 1], l)|;
    assert On(ps[..i + 1], l) == Spread(l, flow)[..n];
    FeedSpread(NewRx, l, flow, n);
  }

  lemma DeadAtFrame(ps: seq<Piece>, i: nat)
    requires i < |ps| && !Feed(NewRx, ps[..i]).dead && Take(Feed(NewRx, ps[..i]), ps[i]).dead
    ensures Feed(NewRx, On(ps[..i + 1], ps[i].lane)).dead
  {
    var l := ps[i].lane;
    FeedAlike(NewRx, NewRx, ps[..i], l);
    DeadAlike(Feed(NewRx, ps[..i]), Feed(NewRx, On(ps[..i], l)), ps[i]);
    OnNext(ps, i);
    FeedNext(NewRx, On(ps[..i], l), ps[i]);
  }

  lemma DeadGrows(ps: seq<Piece>, i: nat, l: Lane)
    requires i <= |ps| && Feed(NewRx, On(ps[..i], l)).dead
    ensures Feed(NewRx, On(ps, l)).dead
  {
    assert ps[..i] + ps[i..] == ps;
    OnSplit(ps[..i], ps[i..], l);
    FeedSplit(NewRx, On(ps[..i], l), On(ps[i..], l));
    DeadStays(Feed(NewRx, On(ps[..i], l)), On(ps[i..], l));
  }

  ghost predicate DiesOn(ps: seq<Piece>, l: Lane) { Feed(NewRx, On(ps, l)).dead }

  /** A stream kills its reader exactly if one of its lanes alone would. */
  lemma DeadByLane(ps: seq<Piece>)
    ensures Feed(NewRx, ps).dead <==> exists l: Lane :: DiesOn(ps, l)
  {
    if Feed(NewRx, ps).dead {
      var i := LiveFrames(NewRx, ps);
      DeadAtFrame(ps, i);
      DeadGrows(ps, i + 1, ps[i].lane);
      assert DiesOn(ps, ps[i].lane);
    } else {
      forall l: Lane ensures !DiesOn(ps, l) { FeedAlike(NewRx, NewRx, ps, l); }
    }
  }

  /** Any prefix of a stream, one lane of which carries flow. */
  lemma PrefixLane(ps: seq<Piece>, n: nat, l: Lane, flow: seq<M>)
    requires n <= |Flat(ps)| && (forall p :: p in ps ==> Framed(p)) && On(ps, l) <= Spread(l, flow) && Own(flow, l)
    ensures Deliv(Receive(NewRx, Flat(ps)[..n]).got, l) <= Real(flow)
  {
    var j := ReceivesFrames(NewRx, ps, n);
    var i := LiveFrames(NewRx, ps[..j]);
    assert ps[..j][..i] == ps[..i];
    LiveLane(ps, i, l, flow);
  }

  /** A lane on which the closing word, if any, does not go. */
  predicate Plain(k: Link, l: Lane) { l != Control || k.bye.None? || k.bye.value.None? }

  lemma WrittenOn(k: Link, l: Lane)
    requires Inv(k) && Plain(k, l)
    ensures On(Written(k), l) == On(k.sent, l) <= Spread(l, k.flow.At(l))
    ensures k.bye.None? && k.box.q.At(l) == [] ==> On(k.sent, l) == Spread(l, k.flow.At(l))
  {
    assert LaneOk(k, l);
    if k.bye.Some? && k.bye.value.Some? {
      var last := Pieces(Control, W.Encode(Close(k.bye.value.value)));
      PiecesOn(Control, W.Encode(Close(k.bye.value.value)));
      OnSplit(k.sent, last, l);
      OnOwn(last, Control, l);
    } else {
      assert k.sent + [] == k.sent;
    }
  }

  /** MAIN: for every interleaving of pushes, pops, closes and keepalives, and wherever the
      stream is cut, each lane delivers, in order and never partially, a prefix of what that
      lane accepted. */
  lemma LaneFidelity(es: seq<Event>, n: nat, l: Lane)
    requires ProperRun(es) && n <= |Stream(Run(NewLink, es))| && Plain(Run(NewLink, es), l)
    ensures Deliv(Receive(NewRx, Stream(Run(NewLink, es))[..n]).got, l) <= Real(Run(NewLink, es).acc.At(l))
  {
    var k := Run(NewLink, es);
    NewLinkOk();
    RunOk(NewLink, es);
    WrittenFramed(k);
    WrittenOn(k, l);
    assert LaneOk(k, l);
    PrefixLane(Written(k), n, l, k.flow.At(l));
  }

  /** Everything accepted has been written and the link is still open. */
  ghost predicate Drained(k: Link) { k.bye.None? && k.box.q == Empty }

  ghost predicate AllShort(k: Link) { forall l: Lane :: Short(k.flow.At(l)) }

  /** MAIN: when a drained stream is read to its end, the reader reports no error if and only
      if no accepted message exceeds the largest message, and then every lane delivered all. */
  lemma DrainedFidelity(es: seq<Event>)
    requires ProperRun(es) && Drained(Run(NewLink, es))
    ensures var k := Run(NewLink, es);
            var r := Receive(NewRx, Stream(k));
            && (!r.dead <==> AllShort(k))
            && (!r.dead ==> forall l: Lane :: Deliv(r.got, l) == Real(k.acc.At(l)))
  {
    var k := Run(NewLink, es);
    NewLinkOk();
    RunOk(NewLink, es);
    ReadWhole(k);
    DrainedLanes(k);
  }

  lemma DrainedLanes(k: Link)
    requires Inv(k) && Drained(k)
    ensures var r := Feed(NewRx, Written(k));
            (!r.dead <==> AllShort(k)) && (!r.dead ==> forall l: Lane :: Deliv(r.got, l) == Real(k.acc.At(l)))
  {
    var ps := Written(k);
    var i := LiveFrames(NewRx, ps);
    if i < |ps| {
      var l := ps[i].lane;
      WrittenOn(k, l);
      assert LaneOk(k, l);
      DeathNeedsLong(ps, i, k.flow.At(l));
    } else {
      assert ps[..i] == ps;
      forall l: Lane ensures Short(k.flow.At(l)) && Deliv(Feed(NewRx, ps).got, l) == Real(k.acc.At(l)) {
        WrittenOn(k, l);
        assert LaneOk(k, l);
        LiveLane(ps, i, l, k.flow.At(l));
      }
    }
  }

  lemma {:induction false} PiecesCover(l: Lane, body: Bytes)
    ensures |body| <= |Pieces(l, body)| * ROOM
    decreases |body|
  {
    if |body| > ROOM { PiecesCover(l, body[ROOM..]); }
  }

  /** The request lane never accepts a message its reader would refuse as too long. */
  lemma RequestsAreShort(b: Box, m: M)
    requires m.LaneOf() == Request && Push(b, m).1.Queued?
    ensures |W.Encode(m)| <= MSG_MAX
  {
    PiecesCover(Request, W.Encode(m));
  }

  lemma ReadWhole(k: Link)
    requires Inv(k)
    ensures Receive(NewRx, Stream(k)) == Feed(NewRx, Written(k))
  {
    WrittenFramed(k);
    assert Stream(k)[..|Stream(k)|] == Stream(k);
    var j := ReceivesFrames(NewRx, Written(k), |Stream(k)|);
    assert Written(k)[..j] == Written(k);
  }

  lemma NewLinkOk()
    ensures Inv(NewLink)
  {
    forall l: Lane ensures LaneOk(NewLink, l) { }
  }
}
