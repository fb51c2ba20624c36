/** What the reading end makes of a stream that ends with a closing word. */
module MeshClosing {
  import opened Wrappers
  import opened MeshMsg
  import W = MeshWire
  import opened MeshFrames
  import opened MeshLanes
  import opened MeshLink

  // ---------------------------------------------------------------- whole messages and a rest

  /** How many messages of a lane are whole among its first n frames. */
  function Done(l: Lane, ms: seq<M>, n: nat): (c: nat)
    ensures c <= |ms|
    decreases |ms|
  {
    if ms == [] then 0 else
    var frames := |Pieces(l, W.Encode(ms[0]))|;
    if n < frames then 0 else 1 + Done(l, ms[1..], n - frames)
  }

  /** What is there of the message after those. */
  function Cut(l: Lane, ms: seq<M>, n: nat): Bytes
    decreases |ms|
  {
    if ms == [] then [] else
    var (body, frames) := (W.Encode(ms[0]), |Pieces(l, W.Encode(ms[0]))|);
    if n < frames then body[..Min(n * ROOM, |body|)] else Cut(l, ms[1..], n - frames)
  }

  /** r is rx after frames of a lane that carry the messages done and part of one more. */
  ghost predicate FedCut(rx: Rx, r: Rx, l: Lane, done: seq<M>, part: Bytes) {
    && Deliv(r.got, l) <= Deliv(rx.got, l) + Real(done)
    && (!r.dead ==> r.parts.At(l) == part && Deliv(r.got, l) == Deliv(rx.got, l) + Real(done))
  }

  lemma CutPartly(rx: Rx, l: Lane, ms: seq<M>, n: nat)
    requires !rx.dead && rx.parts.At(l) == [] && ms != [] && n < |Pieces(l, W.Encode(ms[0]))|
    ensures n <= |Spread(l, ms)| && FedCut(rx, Feed(rx, Spread(l, ms)[..n]), l, [], Cut(l, ms, n)) && Done(l, ms, n) == 0
  {
    FeedPartial(rx, l, W.Encode(ms[0]), n);
    assert Spread(l, ms)[..n] == Pieces(l, W.Encode(ms[0]))[..n];
    assert Deliv(rx.got, l) + [] == Deliv(rx.got, l);
  }

  lemma CutCons(rx: Rx, r1: Rx, r: Rx, l: Lane, m: M, done: seq<M>, part: Bytes)
    requires if r1.dead then r == r1 && r1.got == rx.got
             else Deliv(r1.got, l) == Deliv(rx.got, l) + Real([m]) && FedCut(r1, r, l, done, part)
    ensures FedCut(rx, r, l, [m] + done, part)
  {
    RealSplit([m], done);
    assert Deliv(rx.got, l) + Real([m]) + Real(done) == Deliv(rx.got, l) + Real([m] + done);
  }

  lemma DoneNext(l: Lane, ms: seq<M>, n: nat, m: nat)
    requires ms != [] && |Pieces(l, W.Encode(ms[0]))| <= n && m == n - |Pieces(l, W.Encode(ms[0]))|
    ensures Done(l, ms, n) == 1 + Done(l, ms[1..], m) && Cut(l, ms, n) == Cut(l, ms[1..], m)
  {
  }

  lemma TakeNext(ms: seq<M>, d: nat)
    requires ms != [] && d <= |ms[1..]|
    ensures ms[..1 + d] == [ms[0]] + ms[1..][..d]
  {
  }

  lemma FirstWhole(rx: Rx, l: Lane, ms: seq<M>, n: nat) returns (r1: Rx, m: nat)
    requires !rx.dead && rx.parts.At(l) == [] && ms != [] && W.Proper(ms[0])
    requires |Pieces(l, W.Encode(ms[0]))| <= n <= |Spread(l, ms)|
    ensures m == n - |Pieces(l, W.Encode(ms[0]))| <= |Spread(l, ms[1..])|
    ensures Feed(rx, Spread(l, ms)[..n]) == Feed(r1, Spread(l, ms[1..])[..m])
    ensures r1.dead ==> Feed(r1, Spread(l, ms[1..])[..m]) == r1 && r1.got == rx.got
    ensures !r1.dead ==> r1.parts.At(l) == [] && Deliv(r1.got, l) == Deliv(rx.got, l) + Real([ms[0]])
  {
    var first, rest := SpreadHead(l, ms, n);
    r1 := FeedOn(rx, l, ms[0], first, rest);
    m := |rest|;
  }

  /** Whole messages are delivered, and a rest is kept. */
  lemma {:induction false} FeedCut(rx: Rx, l: Lane, ms: seq<M>, n: nat)
    requires !rx.dead && rx.parts.At(l) == [] && Own(ms, l) && n <= |Spread(l, ms)|
    ensures FedCut(rx, Feed(rx, Spread(l, ms)[..n]), l, ms[..Done(l, ms, n)], Cut(l, ms, n))
    decreases |ms|
  {
    if ms == [] {
      assert Deliv(rx.got, l) + [] == Deliv(rx.got, l);
    } else if n < |Pieces(l, W.Encode(ms[0]))| {
      CutPartly(rx, l, ms, n);
      assert ms[..0] == [];
    } else {
      var r1, m := FirstWhole(rx, l, ms, n);
      if !r1.dead { FeedCut(r1, l, ms[1..], m); }
      DoneNext(l, ms, n, m);
      TakeNext(ms, Done(l, ms[1..], m));
      CutCons(rx, r1, Feed(rx, Spread(l, ms)[..n]), l, ms[0], ms[1..][..Done(l, ms[1..], m)], Cut(l, ms, n));
    }
  }

  // ---------------------------------------------------------------- the closing word

  /** What comes of a closing word bye behind a rest of another message: the two are one body. */
  predicate Garbled(part: Bytes, bye: Bytes) { |part + bye| > MSG_MAX || W.Decode(part + bye).None? }

  function Last(part: Bytes, bye: Bytes): seq<M> {
    if Garbled(part, bye) then [] else Real([W.Decode(part + bye).value])
  }

  lemma TakeClosing(r: Rx, part: Bytes, bye: Bytes)
    requires !r.dead && r.parts.control == part
    ensures var t := Take(r, Piece(Control, 0, bye));
            && (t.dead <==> Garbled(part, bye))
            && Deliv(t.got, Control) == Deliv(r.got, Control) + Last(part, bye)
  {
    var p := Piece(Control, 0, bye);
    assert !p.More();
    if Garbled(part, bye) {
      assert Deliv(r.got, Control) + [] == Deliv(r.got, Control);
    } else {
      var m := W.Decode(part + bye).value;
      DelivSnoc(r.got, Parcel(Control, m), Control);
      assert Real([m]) == if m.KeepAlive? then [] else [m] by { assert [m][1..] == []; }
    }
  }

  /** The closing word as bytes. */
  function Bye(why: CloseReason): Bytes { W.Encode(Close(why)) }

  lemma OnePiece(l: Lane, body: Bytes)
    requires |body| <= ROOM
    ensures Pieces(l, body) == [Piece(l, 0, body)]
  {
  }

  lemma ClosingShort(m: M)
    requires m.Close?
    ensures |W.Encode(m)| == 2
  {
  }

  lemma LastOn(sent: seq<Piece>, bye: Bytes)
    requires |bye| <= ROOM
    ensures On(sent + Pieces(Control, bye), Control) == On(sent, Control) + [Piece(Control, 0, bye)]
  {
    OnePiece(Control, bye);
    PiecesOn(Control, bye);
    OnSplit(sent, Pieces(Control, bye), Control);
    OnOwn(Pieces(Control, bye), Control, Control);
  }

  lemma ClosingOn(k: Link, why: CloseReason)
    requires k.bye == Some(Some(why))
    ensures On(Written(k), Control) == On(k.sent, Control) + [Piece(Control, 0, Bye(why))]
  {
    ClosingShort(Close(why));
    LastOn(k.sent, Bye(why));
  }

  /** Of what the reader's control lane takes in: c whole messages, then part of one. */
  ghost predicate Reads(k: Link, why: CloseReason, c: nat, part: Bytes) {
    var on := |On(k.sent, Control)|;
    Inv(k) && k.bye == Some(Some(why)) && c == Done(Control, k.flow.control, on) && part == Cut(Control, k.flow.control, on)
  }

  /** The control lane by itself. */
  lemma ControlLane(k: Link, why: CloseReason, c: nat, part: Bytes)
    requires Reads(k, why, c, part)
    ensures var r := Feed(NewRx, On(Written(k), Control));
            && (r.dead <==> LongOn(k, Control) || Garbled(part, Bye(why)))
            && Deliv(r.got, Control) <= Real(k.flow.control[..c]) + Last(part, Bye(why))
            && (!r.dead ==> Deliv(r.got, Control) == Real(k.flow.control[..c]) + Last(part, Bye(why)))
  {
    var (on, p) := (On(k.sent, Control), Piece(Control, 0, Bye(why)));
    var r0 := Feed(NewRx, on);
    assert LaneOk(k, Control);
    assert on == Spread(Control, k.flow.control)[..|on|];
    FeedCut(NewRx, Control, k.flow.control, |on|);
    DiesExactly(NewRx, Control, k.flow.control, |on|);
    ClosingOn(k, why);
    FeedNext(NewRx, on, p);
    ControlEnd(r0, k.flow.control[..c], part, Bye(why));
  }

  lemma ControlEnd(r0: Rx, ms: seq<M>, part: Bytes, bye: Bytes)
    requires Deliv(r0.got, Control) <= Real(ms)
    requires !r0.dead ==> r0.parts.control == part && Deliv(r0.got, Control) == Real(ms)
    ensures var r := Take(r0, Piece(Control, 0, bye));
            && (r.dead <==> r0.dead || Garbled(part, bye))
            && Deliv(r.got, Control) <= Real(ms) + Last(part, bye)
            && (!r.dead ==> Deliv(r.got, Control) == Real(ms) + Last(part, bye))
  {
    if !r0.dead { TakeClosing(r0, part, bye); }
  }

  // ---------------------------------------------------------------- the whole stream

  /** Too much of one message was written on some lane before the close. */
  ghost predicate Overlong(k: Link) { exists l: Lane :: LongOn(k, l) }

  ghost predicate LongOn(k: Link, l: Lane) { TooMuch(l, k.flow.At(l), |On(k.sent, l)|) }

  lemma OtherLane(k: Link, l: Lane)
    requires Inv(k) && l != Control
    ensures DiesOn(Written(k), l) <==> LongOn(k, l)
  {
    WrittenOn(k, l);
    assert LaneOk(k, l);
    var on := On(k.sent, l);
    assert on == Spread(l, k.flow.At(l))[..|on|];
    DiesExactly(NewRx, l, k.flow.At(l), |on|);
  }

  lemma ClosingDies(k: Link, why: CloseReason, c: nat, part: Bytes)
    requires Reads(k, why, c, part)
    ensures Feed(NewRx, Written(k)).dead <==> Overlong(k) || Garbled(part, Bye(why))
  {
    DeadByLane(Written(k));
    ControlLane(k, why, c, part);
    assert DiesOn(Written(k), Control) <==> LongOn(k, Control) || Garbled(part, Bye(why));
    forall l: Lane | l != Control ensures DiesOn(Written(k), l) <==> LongOn(k, l) { OtherLane(k, l); }
  }

  lemma TakeGrows(rx: Rx, p: Piece, l: Lane)
    ensures Deliv(rx.got, l) <= Deliv(Take(rx, p).got, l)
  {
    var t := Take(rx, p);
    if t.got != rx.got { DelivSnoc(rx.got, t.got[|rx.got|], l); }
  }

  /** What is delivered stays delivered. */
  lemma {:induction false} DelivGrows(rx: Rx, ps: seq<Piece>, l: Lane)
    ensures Deliv(rx.got, l) <= Deliv(Feed(rx, ps).got, l)
    decreases |ps|
  {
    if ps != [] {
      TakeGrows(rx, ps[0], l);
      DelivGrows(Take(rx, ps[0]), ps[1..], l);
    }
  }

  /** The first i frames of a stream deliver on a lane no more than all frames of that lane would. */
  lemma LaneBound(ps: seq<Piece>, i: nat, l: Lane)
    requires i <= |ps| && !Feed(NewRx, ps[..i]).dead
    ensures Deliv(Feed(NewRx, ps[..i]).got, l) <= Deliv(Feed(NewRx, On(ps, l)).got, l)
  {
    FeedAlike(NewRx, NewRx, ps[..i], l);
    assert ps[..i] + ps[i..] == ps;
    OnSplit(ps[..i], ps[i..], l);
    FeedSplit(NewRx, On(ps[..i], l), On(ps[i..], l));
    DelivGrows(Feed(NewRx, On(ps[..i], l)), On(ps[i..], l), l);
  }

  lemma PrefixBound(k: Link, n: nat, l: Lane)
    requires Inv(k) && n <= |Stream(k)|
    ensures Deliv(Receive(NewRx, Stream(k)[..n]).got, l) <= Deliv(Feed(NewRx, On(Written(k), l)).got, l)
  {
    var ps := Written(k);
    WrittenFramed(k);
    var j := ReceivesFrames(NewRx, ps, n);
    var i := LiveFrames(NewRx, ps[..j]);
    assert ps[..j][..i] == ps[..i];
    LaneBound(ps, i, l);
  }

  // ---------------------------------------------------------------- whether the reason arrives

  /** Only a message with the tag of a closing word is one. */
  lemma ClosingTag(s: Bytes)
    requires W.Decode(s).Some? && W.Decode(s).value.Close?
    ensures s != [] && s[0] == 1
  {
    TagIsKept(s[0], s[1..]);
  }

  lemma TagIsKept(tag: Byte, s: Bytes)
    requires W.Body(tag, s).Some? && W.Body(tag, s).value.0.Close?
    ensures tag == 1
  {
    var m := W.Body(tag, s).value.0;
    if tag == 0 { GreetIsRead(s); }
    if tag in {3, 4} { DeclarationIsRead(s); }
    if tag in {6, 7, 8} { TokenIsRead(s); }
    if tag in {9, 10} { PeersOrPutIsRead(s); }
    if tag in {11, 12, 13} { QueryIsRead(s); }
  }

  lemma GreetIsRead(s: Bytes)
    ensures W.HelloBody(s).Some? ==> W.HelloBody(s).value.0.Greet?
  {
  }

  lemma DeclarationIsRead(s: Bytes)
    ensures W.DeclareBody(s).Some? ==> W.DeclareBody(s).value.0.DeclareIt?
    ensures W.UndeclareBody(s).Some? ==> W.UndeclareBody(s).value.0.Undeclare?
  {
  }

  lemma TokenIsRead(s: Bytes)
    ensures W.TokenSubBody(s).Some? ==> W.TokenSubBody(s).value.0.TokenSub?
    ensures W.TokenUnsubBody(s).Some? ==> W.TokenUnsubBody(s).value.0.TokenUnsub?
    ensures W.TokenEvtBody(s).Some? ==> W.TokenEvtBody(s).value.0.TokenEvt?
  {
  }

  lemma PeersOrPutIsRead(s: Bytes)
    ensures W.PeersBody(s).Some? ==> W.PeersBody(s).value.0.Peers?
    ensures W.PutBody(s).Some? ==> W.PutBody(s).value.0.PutIt?
  {
  }

  lemma QueryIsRead(s: Bytes)
    ensures W.AskBody(s).Some? ==> W.AskBody(s).value.0.Ask?
    ensures W.ReplyBody(s).Some? ==> W.ReplyBody(s).value.0.Reply?
    ensures W.FinalBody(s).Some? ==> W.FinalBody(s).value.0.Final?
  {
  }

  lemma Head(m: M)
    ensures W.Encode(m) != [] && W.Encode(m)[0] == W.Tag(m)
  {
  }

  /** Part of a message that takes more than one frame begins with its tag, and it is no closing word. */
  lemma CutHead(m: M, body: Bytes, n: nat, part: Bytes)
    requires body == W.Encode(m) && n > 0 && |body| > ROOM && part == body[..Min(n * ROOM, |body|)]
    ensures part != [] && part[0] == W.Tag(m) && !m.Close?
  {
    Head(m);
    if m.Close? { ClosingShort(m); }
  }

  lemma CutStart(l: Lane, ms: seq<M>, n: nat, body: Bytes)
    requires ms != [] && body == W.Encode(ms[0]) && n < |Pieces(l, body)|
    ensures Cut(l, ms, n) == body[..Min(n * ROOM, |body|)]
    ensures n > 0 ==> |body| > ROOM
  {
  }

  /** A rest that begins as m does, which is no closing word. */
  ghost predicate RestOf(part: Bytes, m: M) { part != [] && part[0] == W.Tag(m) && !m.Close? }

  lemma CutOrNext(l: Lane, ms: seq<M>, n: nat) returns (here: bool, next: nat)
    requires Cut(l, ms, n) != []
    ensures ms != []
    ensures if here then RestOf(Cut(l, ms, n), ms[0]) else Cut(l, ms, n) == Cut(l, ms[1..], next)
  {
    var body := W.Encode(ms[0]);
    var frames := |Pieces(l, body)|;
    here, next := n < frames, if n < frames then 0 else n - frames;
    if here {
      CutStart(l, ms, n, body);
      CutHead(ms[0], body, n, Cut(l, ms, n));
    } else {
      DoneNext(l, ms, n, next);
    }
  }

  /** What is cut is the rest of one of the messages. */
  lemma {:induction false} CutTag(l: Lane, ms: seq<M>, n: nat, part: Bytes) returns (m: M)
    requires part == Cut(l, ms, n) && part != []
    ensures m in ms && RestOf(part, m)
    decreases |ms|
  {
    var here, next := CutOrNext(l, ms, n);
    if here { m := ms[0]; } else { m := CutTag(l, ms[1..], next, part); }
  }

  lemma RestIsNoClosing(part: Bytes, m: M)
    requires RestOf(part, m)
    ensures part[0] != 1
  {
  }

  /** A message behind nothing is that message. */
  lemma LastAlone(m: M, bye: Bytes)
    requires W.Proper(m) && bye == W.Encode(m) && |bye| <= MSG_MAX && !m.KeepAlive?
    ensures !Garbled([], bye) && Last([], bye) == [m]
  {
    assert [] + bye == bye;
    W.DecodeEncode(m);
    assert Real([m]) == [m] by { assert [m][1..] == []; }
  }

  /** Behind something else no closing word comes of it. */
  lemma LastBehind(part: Bytes, bye: Bytes, m: M)
    requires part != [] && part[0] != 1 && m.Close?
    ensures m !in Last(part, bye)
  {
    if !Garbled(part, bye) {
      var got := W.Decode(part + bye).value;
      assert Real([got]) == if got.KeepAlive? then [] else [got] by { assert [got][1..] == []; }
      if got == m { ClosingTag(part + bye); }
    }
  }

  lemma ReasonArrives(ms: seq<M>, n: nat, part: Bytes, why: CloseReason)
    requires part == Cut(Control, ms, n)
    ensures if part == [] then !Garbled(part, Bye(why)) && Last(part, Bye(why)) == [Close(why)] else Close(why) !in Last(part, Bye(why))
  {
    ClosingShort(Close(why));
    if part == [] {
      LastAlone(Close(why), Bye(why));
    } else {
      var m := CutTag(Control, ms, n, part);
      RestIsNoClosing(part, m);
      LastBehind(part, Bye(why), Close(why));
    }
  }

  /** MAIN: after a close with a reason, the control lane delivers, however the stream is cut, a prefix of: the c
      messages that were written whole before the close, in order, and then one more. Read to its end, the stream
      delivers all of that, or the reader reports an error, and it does so if and only if too much of one message
      was written on some lane, or the closing word together with the rest of a message in front of it is not a
      message. The one more is the reason if and only if no control message was cut by the close. */
  lemma ClosingFidelity(es: seq<Event>, n: nat, why: CloseReason) returns (c: nat, part: Bytes)
    requires ProperRun(es) && n <= |Stream(Run(NewLink, es))| && Run(NewLink, es).bye == Some(Some(why))
    ensures var k := Run(NewLink, es);
            && c <= |k.flow.control| && Reads(k, why, c, part)
            && Real(k.flow.control[..c]) <= Real(k.acc.control)
            && Deliv(Receive(NewRx, Stream(k)[..n]).got, Control) <= Real(k.flow.control[..c]) + Last(part, Bye(why))
    ensures var k := Run(NewLink, es);
            var r := Receive(NewRx, Stream(k));
            && (r.dead <==> Overlong(k) || Garbled(part, Bye(why)))
            && (!r.dead ==> Deliv(r.got, Control) == Real(k.flow.control[..c]) + Last(part, Bye(why)))
    ensures if part == [] then !Garbled(part, Bye(why)) && Last(part, Bye(why)) == [Close(why)] else Close(why) !in Last(part, Bye(why))
  {
    var k := Run(NewLink, es);
    NewLinkOk();
    RunOk(NewLink, es);
    var on := |On(k.sent, Control)|;
    c, part := Done(Control, k.flow.control, on), Cut(Control, k.flow.control, on);
    WholeAccepted(k, c);
    ControlLane(k, why, c, part);
    PrefixBound(k, n, Control);
    ReadWhole(k);
    ClosingDies(k, why, c, part);
    if !Feed(NewRx, Written(k)).dead { FeedAlike(NewRx, NewRx, Written(k), Control); }
    ReasonArrives(k.flow.control, on, part, why);
  }

  lemma WholeAccepted(k: Link, c: nat)
    requires Inv(k) && c <= |k.flow.control|
    ensures Real(k.flow.control[..c]) <= Real(k.acc.control)
  {
    assert LaneOk(k, Control);
    assert k.flow.control == k.flow.control[..c] + k.flow.control[c..];
    RealSplit(k.flow.control[..c], k.flow.control[c..]);
  }

  /** Control messages of one frame each, which is all that routers and clients send, are never cut. */
  lemma {:induction false} OneFrameUncut(ms: seq<M>, n: nat)
    requires forall m :: m in ms ==> |W.Encode(m)| <= ROOM
    ensures Cut(Control, ms, n) == [] && !TooMuch(Control, ms, n)
    decreases |ms|
  {
    if ms != [] {
      OnePiece(Control, W.Encode(ms[0]));
      if n > 0 { OneFrameUncut(ms[1..], n - 1); }
    }
  }

  // ---------------------------------------------------------------- when the writer stops

  lemma {:induction false} RunNext(k: Link, es: seq<Event>, e: Event)
    ensures Run(k, es + [e]) == Step(Run(k, es), e)
    decreases |es|
  {
    if es == [] {
      assert [e][1..] == [];
    } else {
      assert (es + [e])[0] == es[0] && (es + [e])[1..] == es[1..] + [e];
      RunNext(Step(k, es[0]), es[1..], e);
    }
  }

  /** The first close is the i-th event. */
  ghost predicate ClosesAt(es: seq<Event>, i: nat) { i < |es| && es[i].DoClose? && forall j :: 0 <= j < i ==> !es[j].DoClose? }

  ghost predicate PopsAfter(es: seq<Event>, i: nat) { exists j :: i < j < |es| && es[j].DoPop? }

  ghost predicate NoClose(es: seq<Event>) { forall i :: 0 <= i < |es| ==> !es[i].DoClose? }

  /** A link after es: open, told to close, or stopped after its last word. */
  ghost predicate StopsRight(es: seq<Event>, k: Link) {
    && (NoClose(es) ==> k.box.closing == None && k.bye == None)
    && (forall i: nat :: ClosesAt(es, i) ==>
          if PopsAfter(es, i) then k.box.closing == Some(None) && k.bye == Some(es[i].reason)
          else k.box.closing == Some(es[i].reason) && k.bye == None)
  }

  /** What a step does to closing. */
  lemma StepCloses(k: Link, e: Event)
    ensures var r := Step(k, e);
            match e
            case DoClose(why) => r.bye == k.bye && r.box.closing == (if k.box.closing.None? then Some(why) else k.box.closing)
            case DoPop => if k.bye.Some? || k.box.closing.None? then r.bye == k.bye && r.box.closing == k.box.closing
                          else r.bye == k.box.closing && r.box.closing == Some(None)
            case _ => r.bye == k.bye && r.box.closing == k.box.closing
  {
  }

  lemma ClosesNext(es: seq<Event>, e: Event, k: Link)
    requires StopsRight(es, k)
    ensures StopsRight(es + [e], Step(k, e))
  {
    var all := es + [e];
    StepCloses(k, e);
    if NoClose(all) {
      assert forall i :: 0 <= i < |es| ==> es[i] == all[i];
      assert e == all[|es|];
    }
    forall i: nat | ClosesAt(all, i)
      ensures var r := Step(k, e);
              if PopsAfter(all, i) then r.box.closing == Some(None) && r.bye == Some(all[i].reason)
              else r.box.closing == Some(all[i].reason) && r.bye == None
    {
      if i == |es| {
        assert forall j :: 0 <= j < |es| ==> es[j] == all[j];
        assert NoClose(es);
      } else {
        assert ClosesAt(es, i) by { assert forall j :: 0 <= j <= i ==> es[j] == all[j]; }
        PopsNext(es, e, i);
      }
    }
  }

  lemma PopsNext(es: seq<Event>, e: Event, i: nat)
    requires i < |es|
    ensures PopsAfter(es + [e], i) <==> PopsAfter(es, i) || e.DoPop?
  {
    var all := es + [e];
    if PopsAfter(es, i) {
      var j :| i < j < |es| && es[j].DoPop?;
      assert all[j] == es[j];
    }
    if e.DoPop? { assert all[|es|].DoPop?; }
    if PopsAfter(all, i) {
      var j :| i < j < |all| && all[j].DoPop?;
      assert j < |es| ==> es[j].DoPop?;
    }
  }

  lemma {:induction false} StopsRun(es: seq<Event>)
    ensures StopsRight(es, Run(NewLink, es))
    decreases |es|
  {
    if es != [] {
      var (before, e) := (es[..|es| - 1], es[|es| - 1]);
      assert es == before + [e];
      StopsRun(before);
      RunNext(NewLink, before, e);
      ClosesNext(before, e, Run(NewLink, before));
    }
  }

  /** MAIN: in every run, only the first close counts: from then on every message is turned away, and with the next
      pop the writer has stopped, after the reason of that close, if it gave one, and never before. */
  lemma StopsExactly(es: seq<Event>, m: M)
    ensures var k := Run(NewLink, es);
            && (Push(k.box, m).1 == Closed <==> !NoClose(es))
            && (k.bye.Some? <==> exists i: nat :: ClosesAt(es, i) && PopsAfter(es, i))
            && (forall i: nat :: ClosesAt(es, i) && PopsAfter(es, i) ==> k.bye == Some(es[i].reason))
  {
    StopsRun(es);
    var k := Run(NewLink, es);
    if !NoClose(es) { var i := FirstClose(es); }
    PushCloses(k.box, m);
  }

  lemma PushCloses(b: Box, m: M)
    ensures Push(b, m).1 == Closed <==> b.closing.Some?
  {
  }

  lemma {:induction false} FirstClose(es: seq<Event>) returns (i: nat)
    requires !NoClose(es)
    ensures ClosesAt(es, i)
    decreases |es|
  {
    var before := es[..|es| - 1];
    if NoClose(before) {
      i := |es| - 1;
      forall j | 0 <= j < i ensures !es[j].DoClose? { assert before[j] == es[j]; }
    } else {
      i := FirstClose(before);
      assert forall j :: 0 <= j <= i ==> before[j] == es[j];
    }
  }

  /** A writer that found nothing to write and has not stopped says so: a keepalive goes out, and the reader is shown
      nothing of it. */
  lemma KeepAliveGoesOut(es: seq<Event>)
    requires ProperRun(es) && Run(NewLink, es).idle && Run(NewLink, es).bye.None?
    ensures var k := Run(NewLink, es);
            var r := Step(k, DoKeepAlive);
            && r.box == k.box && r.acc == k.acc && r.sent == k.sent + [Piece(Control, 0, [2])]
            && Real(r.flow.control) == Real(k.flow.control)
  {
    var k := Run(NewLink, es);
    NewLinkOk();
    RunOk(NewLink, es);
    KeepAliveBytes();
    OnePiece(Control, [2]);
    RunNext(NewLink, es, DoKeepAlive);
    RunOk(NewLink, es + [DoKeepAlive]);
    var r := Step(k, DoKeepAlive);
    assert LaneOk(k, Control) && LaneOk(r, Control);
    assert r.acc == k.acc;
  }

  lemma KeepAliveBytes()
    ensures W.Encode(KeepAlive) == [2]
  {
  }
}
