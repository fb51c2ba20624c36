/** Which of several connections between two nodes survives: both ends decide alone,
    in the order in which they come to see the connections, and must agree. */
module MeshAgreement {
  import opened Wrappers
  import opened MeshMsg

  const PROTO := 1

  /** Node names matter by their order only. */
  type Node = nat

  /** A connection is identified by who dialed it and that node's start time and counter. */
  datatype Conn = Conn(dialer: Node, boot: nat, sno: nat)

  /** What one end knows of the other. */
  datatype End = End(me: Node, peer: Node, boot: nat)

  predicate Later(b1: nat, s1: nat, b2: nat, s2: nat) { b1 > b2 || (b1 == b2 && s1 > s2) }

  // ---------------------------------------------------------------- decisions

  /** Why a router refuses a connection that the named peer dialed, given the session it has with it. */
  function AcceptVerdict(me: Node, router: bool, kept: Option<Conn>, proto: nat, node: Node, boot: nat, sno: nat): Option<CloseReason> {
    if proto != PROTO || node == me || !router then Some(Protocol)
    else if kept.None? then None
    else
      var s := kept.value;
      if s.dialer == node then (if Later(boot, sno, s.boot, s.sno) then None else Some(Refused))
      else if node < me then None
      else Some(Duplicate)
  }

  /** Why a node drops a connection it dialed itself. */
  function DialVerdict(me: Node, router: bool, kept: Option<Conn>, proto: nat, node: Node, toRouter: bool, sno: nat): Option<CloseReason> {
    if proto != PROTO || node == me || (!router && !toRouter) then Some(Protocol)
    else if kept.None? then None
    else
      var s := kept.value;
      if (if s.dialer == me then s.sno > sno else me > node) then Some(Duplicate) else None
  }

  /** One more connection comes up at this end: it replaces what is kept unless it is turned down. */
  function Offer(e: End, kept: Option<Conn>, c: Conn): Option<Conn> {
    var no := if c.dialer == e.me then DialVerdict(e.me, true, kept, PROTO, e.peer, true, c.sno)
              else AcceptVerdict(e.me, true, kept, PROTO, e.peer, c.boot, c.sno);
    if no.Some? then kept else Some(c)
  }

  function Offers(e: End, kept: Option<Conn>, cs: seq<Conn>): Option<Conn>
    decreases |cs|
  {
    if cs == [] then kept else Offers(e, Offer(e, kept, cs[0]), cs[1..])
  }

  // ---------------------------------------------------------------- the order both ends follow

  /** The smaller dialer first, then the later connection. */
  predicate Beats(c: Conn, d: Conn) {
    c.dialer < d.dialer || (c.dialer == d.dialer && Later(c.boot, c.sno, d.boot, d.sno))
  }

  /** A connection between the two nodes of e; a node's own ones carry its own start time. */
  predicate Between(e: End, c: Conn) {
    e.me != e.peer && (c.dialer == e.me || c.dialer == e.peer) && (c.dialer == e.me ==> c.boot == e.boot)
  }

  /** One decision keeps the better of two connections. */
  lemma OfferKeepsBetter(e: End, k: Conn, c: Conn)
    requires Between(e, k) && Between(e, c)
    ensures Offer(e, Some(k), c) == Some(if Beats(k, c) then k else c)
  {
  }

  /** What is turned down, at either end, and why: strangers to the protocol, a node itself, and whom a client need not
      know; besides, exactly what is no better than the session kept. */
  lemma VerdictsExactly(e: End, router: bool, toRouter: bool, kept: Option<Conn>, proto: nat, boot: nat, sno: nat)
    requires kept.Some? ==> kept.value.dialer in {e.me, e.peer} && (kept.value.dialer == e.me ==> kept.value.boot == e.boot)
    ensures var (v, c) := (AcceptVerdict(e.me, router, kept, proto, e.peer, boot, sno), Conn(e.peer, boot, sno));
            if proto != 1 || e.peer == e.me || !router then v == Some(Protocol)
            else if kept.None? || Beats(c, kept.value) then v == None
            else v == Some(if kept.value.dialer == e.peer then Refused else Duplicate)
    ensures var (v, c) := (DialVerdict(e.me, router, kept, proto, e.peer, toRouter, sno), Conn(e.me, e.boot, sno));
            if proto != 1 || e.peer == e.me || !(router || toRouter) then v == Some(Protocol)
            else v == if kept.None? || !Beats(kept.value, c) then None else Some(Duplicate)
  {
  }

  predicate Best(c: Conn, cs: seq<Conn>) { forall d :: d in cs ==> d == c || Beats(c, d) }

  lemma {:induction false} OffersKeepBest(e: End, k: Conn, cs: seq<Conn>)
    requires Between(e, k) && forall c :: c in cs ==> Between(e, c)
    ensures var r := Offers(e, Some(k), cs); r.Some? && r.value in [k] + cs && Best(r.value, [k] + cs)
    decreases |cs|
  {
    if cs != [] {
      OfferKeepsBetter(e, k, cs[0]);
      var k1 := if Beats(k, cs[0]) then k else cs[0];
      OffersKeepBest(e, k1, cs[1..]);
      var r := Offers(e, Some(k1), cs[1..]).value;
      forall d | d in [k] + cs ensures d == r || Beats(r, d) {
        assert k1 in [k1] + cs[1..];
        if d != k && d != cs[0] { assert d in [k1] + cs[1..]; }
      }
    }
  }

  /** The end keeps the best of all connections it saw, in whatever order. */
  lemma EndKeepsBest(e: End, cs: seq<Conn>)
    requires cs != [] && forall c :: c in cs ==> Between(e, c)
    ensures var r := Offers(e, None, cs); r.Some? && r.value in cs && Best(r.value, cs)
  {
    assert cs[0] in cs;
    assert Offer(e, None, cs[0]) == Some(cs[0]);
    OffersKeepBest(e, cs[0], cs[1..]);
    assert [cs[0]] + cs[1..] == cs;
  }

  /** MAIN: two routers that saw the same connections, each in its own order and any number of
      times, keep the same one. */
  lemma EndsAgree(a: End, b: End, seen: seq<Conn>, other: seq<Conn>)
    requires a.me == b.peer && a.peer == b.me
    requires forall c :: c in seen <==> c in other
    requires forall c :: c in seen ==> Between(a, c) && Between(b, c)
    ensures Offers(a, None, seen) == Offers(b, None, other)
  {
    assert |other| > 0 ==> other[0] in other;
    if seen != [] {
      assert seen[0] in other;
      EndKeepsBest(a, seen);
      EndKeepsBest(b, other);
    }
  }
}
