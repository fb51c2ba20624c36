/** The order in which a session gives its messages to the reader, over all lanes together: whatever belongs to
    one conversation arrives in the order in which it was accepted. */
module MeshOrder {
  import opened Wrappers
  import opened MeshMsg
  import W = MeshWire
  import opened MeshFrames
  import opened MeshLanes
  import opened MeshLink
  import opened MeshClosing

  // ---------------------------------------------------------------- both ends

  /** The messages that the outbox accepted in a run, in order. */
  function Accepted(k: Link, es: seq<Event>): seq<M>
    decreases |es|
  {
    if es == [] then [] else
    (if es[0].DoPush? && Push(k.box, es[0].m).1.Queued? then [es[0].m] else []) + Accepted(Step(k, es[0]), es[1..])
  }

  /** The messages that the reader is given, in order. */
  function Shown(got: seq<Parcel>): seq<M> {
    if got == [] then [] else Shown(got[..|got| - 1]) + [got[|got| - 1].msg]
  }

  /** What the reader is given of the first n bytes of a run's stream. */
  function Given(es: seq<Event>, n: nat): seq<M>
    requires n <= |Stream(Run(NewLink, es))|
  {
    Shown(Receive(NewRx, Stream(Run(NewLink, es))[..n]).got)
  }

  function Keep(ms: seq<M>, p: M -> bool): seq<M> {
    if ms == [] then [] else (if p(ms[0]) then [ms[0]] else []) + Keep(ms[1..], p)
  }

  /** Messages of one kind of conversation: questions and answers, declarations, or data. */
  ghost predicate OneFamily(p: M -> bool) {
    || (forall m :: p(m) ==> m.Ask? || m.Reply? || m.Final?)
    || (forall m :: p(m) ==> m.PutIt?)
    || (forall m :: p(m) ==> m.DeclareIt? || m.Undeclare? || m.DeclareDone? || m.TokenSub? || m.TokenUnsub? || m.TokenEvt? || m.Peers?)
  }

  // ---------------------------------------------------------------- filters

  lemma KeepCons(m: M, ms: seq<M>, p: M -> bool)
    ensures Keep([m] + ms, p) == (if p(m) then [m] else []) + Keep(ms, p)
  {
    assert ([m] + ms)[1..] == ms;
  }

  lemma {:induction false} KeepSplit(a: seq<M>, b: seq<M>, p: M -> bool)
    ensures Keep(a + b, p) == Keep(a, p) + Keep(b, p)
  {
    if a == [] {
      assert a + b == b;
    } else {
      assert (a + b)[0] == a[0] && (a + b)[1..] == a[1..] + b;
      KeepSplit(a[1..], b, p);
    }
  }

  lemma KeepPrefix(a: seq<M>, b: seq<M>, p: M -> bool)
    requires a <= b
    ensures Keep(a, p) <= Keep(b, p)
  {
    assert b == a + b[|a|..];
    KeepSplit(a, b[|a|..], p);
  }

  lemma {:induction false} KeepTwice(ms: seq<M>, p: M -> bool, q: M -> bool)
    requires forall m :: p(m) ==> q(m)
    ensures Keep(Keep(ms, q), p) == Keep(ms, p)
  {
    if ms != [] {
      KeepTwice(ms[1..], p, q);
      if q(ms[0]) { KeepCons(ms[0], Keep(ms[1..], q), p); } else { assert !p(ms[0]) && Keep(ms, q) == Keep(ms[1..], q); }
    }
  }

  // ---------------------------------------------------------------- lanes

  function Home(l: Lane): M -> bool { (m: M) => m.LaneOf() == l }

  lemma {:induction false} AccIs(k: Link, es: seq<Event>, l: Lane)
    ensures Run(k, es).acc.At(l) == k.acc.At(l) + Keep(Accepted(k, es), Home(l))
    decreases |es|
  {
    if es == [] {
      assert k.acc.At(l) + [] == k.acc.At(l);
    } else {
      AccIs(Step(k, es[0]), es[1..], l);
      AccStep(k, es[0], l, Accepted(Step(k, es[0]), es[1..]));
    }
  }

  lemma AccStep(k: Link, e: Event, l: Lane, rest: seq<M>)
    ensures var head := if e.DoPush? && Push(k.box, e.m).1.Queued? then [e.m] else [];
            Step(k, e).acc.At(l) + Keep(rest, Home(l)) == k.acc.At(l) + Keep(head + rest, Home(l))
  {
    if e.DoPush? && Push(k.box, e.m).1.Queued? {
      KeepCons(e.m, rest, Home(l));
      AddKept(k.acc, e.m, l, Keep(rest, Home(l)));
    } else {
      assert [] + rest == rest;
    }
  }

  lemma AddKept(acc: Four<seq<M>>, m: M, l: Lane, kept: seq<M>)
    ensures Add(acc, m).At(l) + kept == acc.At(l) + ((if m.LaneOf() == l then [m] else []) + kept)
  {
    var on := acc.At(l);
    if m.LaneOf() == l {
      assert Add(acc, m).At(l) == on + [m];
      assert (on + [m]) + kept == on + ([m] + kept);
    } else {
      assert Add(acc, m).At(l) == on;
      assert [] + kept == kept;
    }
  }

  lemma {:induction false} RealAll(ms: seq<M>)
    requires forall m :: m in ms ==> !m.KeepAlive?
    ensures Real(ms) == ms
  {
    if ms != [] { RealAll(ms[1..]); }
  }

  lemma {:induction false} KeepOnly(ms: seq<M>, p: M -> bool)
    ensures forall m :: m in Keep(ms, p) ==> p(m)
  {
    if ms != [] { KeepOnly(ms[1..], p); }
  }

  lemma {:induction false} RealMembers(ms: seq<M>)
    ensures forall m :: m in Real(ms) ==> m in ms
  {
    if ms != [] { RealMembers(ms[1..]); }
  }

  /** What a lane other than the control lane accepted. */
  lemma LaneAccepted(es: seq<Event>, l: Lane)
    requires l != Control
    ensures Real(Run(NewLink, es).acc.At(l)) == Keep(Accepted(NewLink, es), Home(l))
  {
    var acc := Keep(Accepted(NewLink, es), Home(l));
    AccIs(NewLink, es, l);
    assert [] + acc == acc;
    KeepOnly(Accepted(NewLink, es), Home(l));
    RealAll(acc);
  }

  // ---------------------------------------------------------------- every message comes on its lane

  ghost predicate AtHome(got: seq<Parcel>) { forall i :: 0 <= i < |got| ==> got[i].msg.LaneOf() == got[i].lane }

  lemma {:induction false} InDeliv(got: seq<Parcel>, i: nat)
    requires i < |got|
    ensures got[i].msg in Deliv(got, got[i].lane)
  {
    if i < |got| - 1 {
      assert got[i] == got[..|got| - 1][i];
      InDeliv(got[..|got| - 1], i);
    }
  }

  lemma {:induction false} ShownIs(got: seq<Parcel>, l: Lane)
    requires AtHome(got)
    ensures Keep(Shown(got), Home(l)) == Deliv(got, l)
  {
    if got != [] {
      var (rest, last) := (got[..|got| - 1], got[|got| - 1]);
      ShownIs(rest, l);
      KeepSplit(Shown(rest), [last.msg], Home(l));
      KeepCons(last.msg, [], Home(l));
      assert [last.msg] + [] == [last.msg];
    }
  }

  /** A body with the tag of a control message is one. */
  lemma ControlTag(s: Bytes)
    requires s != [] && s[0] <= 2 && W.Decode(s).Some?
    ensures W.Decode(s).value.LaneOf() == Control
  {
    if s[0] == 0 { GreetIsRead(s[1..]); }
  }

  lemma RestIsControl(part: Bytes, m: M)
    requires RestOf(part, m) && m.LaneOf() == Control
    ensures part[0] <= 2
  {
  }

  lemma LastIsControl(ms: seq<M>, n: nat, part: Bytes, why: CloseReason)
    requires Own(ms, Control) && part == Cut(Control, ms, n)
    ensures forall m :: m in Last(part, Bye(why)) ==> m.LaneOf() == Control
  {
    if part == [] {
      ReasonArrives(ms, n, part, why);
    } else {
      var m := CutTag(Control, ms, n, part);
      RestIsControl(part, m);
      JoinedIsControl(part, Bye(why));
    }
  }

  lemma JoinedIsControl(part: Bytes, bye: Bytes)
    requires part != [] && part[0] <= 2
    ensures forall m :: m in Last(part, bye) ==> m.LaneOf() == Control
  {
    if !Garbled(part, bye) {
      ControlTag(part + bye);
      RealMembers([W.Decode(part + bye).value]);
    }
  }

  lemma OwnReal(ms: seq<M>, l: Lane, m: M)
    requires Own(ms, l) && m in Real(ms)
    ensures m.LaneOf() == l
  {
    RealMembers(ms);
  }

  lemma DelivHome(es: seq<Event>, n: nat, l: Lane, m: M)
    requires ProperRun(es) && n <= |Stream(Run(NewLink, es))| && m in Deliv(Receive(NewRx, Stream(Run(NewLink, es))[..n]).got, l)
    ensures m.LaneOf() == l
  {
    var k := Run(NewLink, es);
    NewLinkOk();
    RunOk(NewLink, es);
    assert LaneOk(k, l);
    if Plain(k, l) {
      LaneFidelity(es, n, l);
      OwnReal(k.flow.At(l), l, m);
    } else {
      ClosedHome(es, n, k.bye.value.value, m);
    }
  }

  lemma ClosedHome(es: seq<Event>, n: nat, why: CloseReason, m: M)
    requires ProperRun(es) && n <= |Stream(Run(NewLink, es))| && Run(NewLink, es).bye == Some(Some(why))
    requires Own(Run(NewLink, es).flow.control, Control)
    requires m in Deliv(Receive(NewRx, Stream(Run(NewLink, es))[..n]).got, Control)
    ensures m.LaneOf() == Control
  {
    var k := Run(NewLink, es);
    var c, part := ClosingFidelity(es, n, why);
    LastIsControl(k.flow.control, |On(k.sent, Control)|, part, why);
    if m in Real(k.flow.control[..c]) { OwnReal(k.flow.control[..c], Control, m); }
  }

  lemma AllAtHome(es: seq<Event>, n: nat)
    requires ProperRun(es) && n <= |Stream(Run(NewLink, es))|
    ensures AtHome(Receive(NewRx, Stream(Run(NewLink, es))[..n]).got)
  {
    var got := Receive(NewRx, Stream(Run(NewLink, es))[..n]).got;
    forall i | 0 <= i < |got| ensures got[i].msg.LaneOf() == got[i].lane {
      InDeliv(got, i);
      DelivHome(es, n, got[i].lane, got[i].msg);
    }
  }

  // ---------------------------------------------------------------- order

  lemma LaneOrder(es: seq<Event>, n: nat, l: Lane)
    requires ProperRun(es) && n <= |Stream(Run(NewLink, es))| && l != Control
    ensures Keep(Given(es, n), Home(l)) <= Keep(Accepted(NewLink, es), Home(l))
  {
    AllAtHome(es, n);
    ShownIs(Receive(NewRx, Stream(Run(NewLink, es))[..n]).got, l);
    LaneFidelity(es, n, l);
    LaneAccepted(es, l);
  }

  /** Every family has a lane of its own. */
  lemma FamilyHome(p: M -> bool) returns (l: Lane)
    requires OneFamily(p)
    ensures l != Control && forall m :: p(m) ==> Home(l)(m)
  {
    if forall m :: p(m) ==> m.Ask? || m.Reply? || m.Final? {
      l := Request;
    } else if forall m :: p(m) ==> m.PutIt? {
      l := Data;
    } else {
      l := Declare;
    }
  }

  /** MAIN: for every interleaving of pushes, pops, closes and keepalives, and wherever the stream is cut: of the
      questions and answers, of the declarations, and of the data, or of any part of one of these, the reader is
      given a prefix of what was accepted, in the order of acceptance, whatever lanes they travel on. */
  lemma OrderIsKept(es: seq<Event>, n: nat, p: M -> bool)
    requires ProperRun(es) && n <= |Stream(Run(NewLink, es))| && OneFamily(p)
    ensures Keep(Given(es, n), p) <= Keep(Accepted(NewLink, es), p)
  {
    var l := FamilyHome(p);
    LaneOrder(es, n, l);
    KeepPrefix(Keep(Given(es, n), Home(l)), Keep(Accepted(NewLink, es), Home(l)), p);
    KeepTwice(Given(es, n), p, Home(l));
    KeepTwice(Accepted(NewLink, es), p, Home(l));
  }

  /** MAIN: once everything accepted was written and the reader reports no error, it has been given all of it. */
  lemma AllIsGiven(es: seq<Event>, p: M -> bool)
    requires ProperRun(es) && OneFamily(p) && Drained(Run(NewLink, es)) && AllShort(Run(NewLink, es))
    ensures Keep(Given(es, |Stream(Run(NewLink, es))|), p) == Keep(Accepted(NewLink, es), p)
  {
    var (k, n) := (Run(NewLink, es), |Stream(Run(NewLink, es))|);
    var l := FamilyHome(p);
    assert Stream(k)[..n] == Stream(k);
    DrainedFidelity(es);
    AllAtHome(es, n);
    ShownIs(Receive(NewRx, Stream(k)).got, l);
    LaneAccepted(es, l);
    KeepTwice(Given(es, n), p, Home(l));
    KeepTwice(Accepted(NewLink, es), p, Home(l));
  }

  // ---------------------------------------------------------------- conversations

  function RepliesTo(q: U64): M -> bool { (m: M) => m.Reply? && m.qid == q }

  function Answers(q: U64): M -> bool { (m: M) => (m.Reply? || m.Final?) && m.qid == q }

  function About(kind: DeclKind, id: U64): M -> bool { (m: M) => (m.DeclareIt? || m.Undeclare?) && m.kind == kind && m.id == id }

  ghost predicate FirstAt(ms: seq<M>, m: M, i: nat) { i < |ms| && ms[i] == m && m !in ms[..i] }

  /** A filtered sequence up to the first m is the filtered part before it. */
  lemma KeepUntil(ms: seq<M>, m: M, i: nat, p: M -> bool)
    requires FirstAt(ms, m, i) && p(m)
    ensures FirstAt(Keep(ms, p), m, |Keep(ms[..i], p)|) && Keep(ms, p)[..|Keep(ms[..i], p)|] == Keep(ms[..i], p)
  {
    assert ms == ms[..i] + ([m] + ms[i + 1..]);
    KeepSplit(ms[..i], [m] + ms[i + 1..], p);
    KeepCons(m, ms[i + 1..], p);
    KeepMembers(ms[..i], p);
  }

  lemma {:induction false} KeepMembers(ms: seq<M>, p: M -> bool)
    ensures forall m :: m in Keep(ms, p) ==> m in ms
  {
    if ms != [] { KeepMembers(ms[1..], p); }
  }

  lemma SameFirst(a: seq<M>, b: seq<M>, m: M, i: nat, j: nat)
    requires a <= b && FirstAt(a, m, i) && FirstAt(b, m, j)
    ensures i == j
  {
    assert b[i] == m && (j < |a| ==> a[j] == m);
  }

  /** MAIN: a reader that was given the end of a query was given before it every reply to that query accepted
      before that end, and no other. */
  lemma RepliesComeFirst(es: seq<Event>, n: nat, q: U64, i: nat)
    requires ProperRun(es) && n <= |Stream(Run(NewLink, es))| && FirstAt(Given(es, n), Final(q), i)
    ensures exists j: nat :: FirstAt(Accepted(NewLink, es), Final(q), j)
                        && Keep(Given(es, n)[..i], RepliesTo(q)) == Keep(Accepted(NewLink, es)[..j], RepliesTo(q))
  {
    var (a, b, p) := (Given(es, n), Accepted(NewLink, es), Answers(q));
    OrderIsKept(es, n, p);
    KeepUntil(a, Final(q), i, p);
    var x := |Keep(a[..i], p)|;
    assert Keep(b, p)[x] == Final(q);
    KeepMembers(b, p);
    var j := FindFirst(b, Final(q));
    KeepUntil(b, Final(q), j, p);
    SameFirst(Keep(a, p), Keep(b, p), Final(q), x, |Keep(b[..j], p)|);
    assert Keep(a[..i], p) == Keep(b[..j], p);
    KeepTwice(a[..i], RepliesTo(q), p);
    KeepTwice(b[..j], RepliesTo(q), p);
  }

  lemma {:induction false} FindFirst(ms: seq<M>, m: M) returns (i: nat)
    requires m in ms
    ensures FirstAt(ms, m, i)
  {
    if ms[0] == m {
      i := 0;
    } else {
      i := FindFirst(ms[1..], m);
      i := i + 1;
      assert ms[..i] == [ms[0]] + ms[1..][..i - 1];
    }
  }

  /** MAIN: what was declared and withdrawn under one number is given in the order accepted. */
  lemma DeclarationsComeInOrder(es: seq<Event>, n: nat, kind: DeclKind, id: U64)
    requires ProperRun(es) && n <= |Stream(Run(NewLink, es))|
    ensures Keep(Given(es, n), About(kind, id)) <= Keep(Accepted(NewLink, es), About(kind, id))
  {
    OrderIsKept(es, n, About(kind, id));
  }
}
