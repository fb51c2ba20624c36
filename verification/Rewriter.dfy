/** The rewriter of one downlink stream: sequence numbers and timestamps continue
    across switches of the source behind it. */
module Rewriter {
  import opened Wrappers

  type U16 = n: int | 0 <= n < 0x1_0000
  type U32 = n: int | 0 <= n < 0x1_0000_0000

  function Add16(a: int, b: int): U16 { (a + b) % 0x1_0000 }
  function Sub16(a: int, b: int): U16 { (a - b) % 0x1_0000 }
  function Add32(a: int, b: int): U32 { (a + b) % 0x1_0000_0000 }
  function Sub32(a: int, b: int): U32 { (a - b) % 0x1_0000_0000 }
  function Max(a: int, b: int): int { if a > b then a else b }

  /** a comes after b, as far as 16 bits can tell: the difference is positive as a signed number. */
  predicate SerialAfter(a: U16, b: U16) { 0 < Sub16(a, b) < 0x8000 }

  datatype Last = Last(seqNo: U16, ts: U32, at: nat, covers: U32)

  datatype State = State(clock: U32, src: Option<nat>, seqOff: U16, tsOff: U32, last: Option<Last>,
                         boundary: Option<U16>, switches: nat, lastOutAt: nat)

  function New(clock: U32): State { State(clock, None, 0, 0, None, None, 0, 0) }

  datatype Packet = Packet(src: nat, seqNo: U16, ts: U32, at: nat, covers: U32)

  datatype Mapped = Mapped(seqNo: U16, ts: U32, switched: bool)

  // ---------------------------------------------------------------- steps

  /** Elapsed time in clock ticks, at least a millisecond's worth, in a machine word. */
  function Ticks(clock: U32, before: nat, now: nat): nat {
    var elapsed := Max(if now > before then now - before else 0, 1);
    elapsed * clock / 1000 % 0x1_0000_0000_0000_0000
  }

  /** How far the timestamp moves at a switch: what the last packet covers or the time since, in 32 bits. */
  function Advance(l: Last, clock: U32, now: nat): U32 {
    Max(Max(l.covers, 1), Ticks(clock, l.at, now)) % 0x1_0000_0000
  }

  function Switch(r: State, p: Packet): State {
    var s := match r.last
      case None => r.(seqOff := 0, tsOff := 0)
      case Some(l) => r.(seqOff := Sub16(l.seqNo + 1, p.seqNo), tsOff := Sub32(l.ts + Advance(l, r.clock, p.at), p.ts));
    s.(src := Some(p.src), boundary := Some(Add16(p.seqNo, s.seqOff)),
       switches := if r.src.Some? || r.last.Some? then r.switches + 1 else r.switches)
  }

  function Map(r: State, p: Packet): (State, Mapped) {
    var other := r.src != Some(p.src);
    var switched := other && (r.src.Some? || r.last.Some?);
    var s := if other then Switch(r, p) else r;
    var m := Mapped(Add16(p.seqNo, s.seqOff), Add32(p.ts, s.tsOff), switched);
    var ahead := s.last.None? || switched || SerialAfter(m.seqNo, s.last.value.seqNo);
    (s.(last := if ahead then Some(Last(m.seqNo, m.ts, p.at, p.covers)) else s.last, lastOutAt := p.at), m)
  }

  function UnmapNack(r: State, out: U16): Option<U16> {
    if r.boundary.Some? && SerialAfter(r.boundary.value, out) then None else Some(Sub16(out, r.seqOff))
  }

  function TranslateSr(r: State, ts: U32): U32 { Add32(ts, r.tsOff) }

  /** The rewriter as it runs. */
  class Stream {
    var clock: U32
    var src: Option<nat>
    var seqOff: U16
    var tsOff: U32
    var last: Option<Last>
    var boundary: Option<U16>
    var switches: nat
    var lastOutAt: nat

    function Now(): State
      reads this
    {
      State(clock, src, seqOff, tsOff, last, boundary, switches, lastOutAt)
    }

    constructor (rate: U32)
      ensures Now() == New(rate)
    {
      clock, src, seqOff, tsOff, last, boundary, switches, lastOutAt := rate, None, 0, 0, None, None, 0, 0;
    }

    /** Offsets for another source, so that it continues behind the last packet. */
    method TurnTo(p: Packet)
      modifies this
      ensures Now() == Switch(old(Now()), p)
    {
      match last {
        case None => seqOff, tsOff := 0, 0;
        case Some(l) => seqOff, tsOff := Sub16(l.seqNo + 1, p.seqNo), Sub32(l.ts + Advance(l, clock, p.at), p.ts);
      }
      if src.Some? || last.Some? { switches := switches + 1; }
      src := Some(p.src);
      boundary := Some(Add16(p.seqNo, seqOff));
    }

    method Rewrite(p: Packet) returns (m: Mapped)
      modifies this
      ensures (Now(), m) == Map(old(Now()), p)
    {
      var switched := false;
      if src != Some(p.src) {
        switched := src.Some? || last.Some?;
        TurnTo(p);
      }
      m := Mapped(Add16(p.seqNo, seqOff), Add32(p.ts, tsOff), switched);
      if last.None? || switched || SerialAfter(m.seqNo, last.value.seqNo) {
        last := Some(Last(m.seqNo, m.ts, p.at, p.covers));
      }
      lastOutAt := p.at;
    }
  }

  // ---------------------------------------------------------------- arithmetic modulo the word size

  lemma Gap16(a: int, b: int, o: int)
    ensures Sub16(Add16(a, o), Add16(b, o)) == Sub16(a, b)
  {
  }

  lemma Gap32(a: int, b: int, o: int)
    ensures Sub32(Add32(a, o), Add32(b, o)) == Sub32(a, b)
  {
  }

  lemma Back16(a: U16, o: int)
    ensures Sub16(Add16(a, o), o) == a
  {
  }

  lemma AfterTurned(a: U16, b: U16)
    ensures SerialAfter(b, a) <==> Sub16(a, b) > 0x8000
  {
    assert a < b ==> Sub16(b, a) == b - a && Sub16(a, b) == a - b + 0x1_0000;
    assert a >= b ==> Sub16(a, b) == a - b;
    assert a > b ==> Sub16(b, a) == b - a + 0x1_0000;
  }

  lemma Next16(l: int, s: int)
    ensures Add16(s, Sub16(l + 1, s)) == Add16(l, 1)
  {
  }

  lemma Later32(l: int, k: int, t: int)
    ensures Add32(t, Sub32(l + k % 0x1_0000_0000, t)) == Add32(l, k)
  {
  }

  /** What a step makes of the reference packet. */
  lemma MapFacts(r: State, p: Packet)
    ensures var (s, m) := Map(r, p);
            && s.clock == r.clock && s.src == Some(p.src)
            && (m.switched <==> r.src != Some(p.src) && (r.src.Some? || r.last.Some?))
            && (s.last == Some(Last(m.seqNo, m.ts, p.at, p.covers))
                || (s.last == r.last && r.last.Some? && !m.switched && !SerialAfter(m.seqNo, r.last.value.seqNo)))
  {
  }

  lemma MapSwitches(r: State, p: Packet)
    requires r.last.Some? && r.src != Some(p.src)
    ensures var m := Map(r, p).1;
            && m.seqNo == Add16(r.last.value.seqNo, 1)
            && m.ts == Add32(r.last.value.ts, Max(Max(r.last.value.covers, 1), Ticks(r.clock, r.last.value.at, p.at)))
  {
    var l := r.last.value;
    Next16(l.seqNo, p.seqNo);
    Later32(l.ts, Max(Max(l.covers, 1), Ticks(r.clock, l.at, p.at)), p.ts);
  }

  // ---------------------------------------------------------------- runs

  /** The rewriter after the packets ps. */
  function After(clock: U32, ps: seq<Packet>): State {
    if ps == [] then New(clock) else Map(After(clock, ps[..|ps| - 1]), ps[|ps| - 1]).0
  }

  /** What the i-th packet became. */
  function Out(clock: U32, ps: seq<Packet>, i: nat): Mapped
    requires i < |ps|
  {
    Map(After(clock, ps[..i]), ps[i]).1
  }

  lemma AfterStep(clock: U32, ps: seq<Packet>, i: nat)
    requires i < |ps|
    ensures After(clock, ps[..i + 1]) == Map(After(clock, ps[..i]), ps[i]).0
  {
    assert ps[..i + 1][..i] == ps[..i];
  }

  /** The reference packet of a run: the m-th, after which the same source sent nothing newer. */
  ghost predicate Newest(clock: U32, ps: seq<Packet>, n: nat, m: nat)
    requires n <= |ps|
  {
    m < n && forall j :: m < j < n ==> ps[j].src == ps[m].src && !SerialAfter(Out(clock, ps, j).seqNo, Out(clock, ps, m).seqNo)
  }

  lemma NewestStep(clock: U32, ps: seq<Packet>, n: nat, k: nat, r: State, s: State) returns (m: nat)
    requires 1 < n <= |ps| && Newest(clock, ps, n - 1, k) && ps[k].src == ps[n - 2].src
    requires r == After(clock, ps[..n - 1]) && s == Map(r, ps[n - 1]).0
    requires r.clock == clock && r.src == Some(ps[n - 2].src)
    requires r.last == Some(Last(Out(clock, ps, k).seqNo, Out(clock, ps, k).ts, ps[k].at, ps[k].covers))
    ensures Newest(clock, ps, n, m)
    ensures s.clock == clock && s.src == Some(ps[n - 1].src) && ps[m].src == ps[n - 1].src
    ensures s.last == Some(Last(Out(clock, ps, m).seqNo, Out(clock, ps, m).ts, ps[m].at, ps[m].covers))
  {
    MapFacts(r, ps[n - 1]);
    var o := Out(clock, ps, n - 1);
    m := if s.last == Some(Last(o.seqNo, o.ts, ps[n - 1].at, ps[n - 1].covers)) then n - 1 else k;
  }

  lemma {:induction false} LastIsNewest(clock: U32, ps: seq<Packet>, n: nat) returns (m: nat)
    requires 0 < n <= |ps|
    ensures Newest(clock, ps, n, m)
    ensures var r := After(clock, ps[..n]);
            && r.clock == clock && r.src == Some(ps[n - 1].src) && ps[m].src == ps[n - 1].src
            && r.last == Some(Last(Out(clock, ps, m).seqNo, Out(clock, ps, m).ts, ps[m].at, ps[m].covers))
  {
    if n == 1 {
      AfterStep(clock, ps, 0);
      assert ps[..0] == [];
      m := 0;
    } else {
      var k := LastIsNewest(clock, ps, n - 1);
      AfterStep(clock, ps, n - 1);
      m := NewestStep(clock, ps, n, k, After(clock, ps[..n - 1]), After(clock, ps[..n]));
    }
  }

  /** The time from one packet to another, in milliseconds and at least one. */
  function Elapsed(before: nat, now: nat): nat { if now > before + 1 then now - before else 1 }

  /** t is that many milliseconds in whole ticks of the clock. */
  predicate InTicks(ms: nat, clock: nat, t: nat) { 1000 * t <= ms * clock < 1000 * (t + 1) }

  lemma TicksAre(clock: U32, before: nat, now: nat) returns (t: nat)
    ensures InTicks(Elapsed(before, now), clock, t) && Ticks(clock, before, now) == t % 0x1_0000_0000_0000_0000
  {
    t := Elapsed(before, now) * clock / 1000;
  }

  predicate Largest(x: nat, a: nat, b: nat, c: nat) { x >= a && x >= b && x >= c && (x == a || x == b || x == c) }

  /** MAIN: a packet from another source continues right after the newest packet of the source
      before: with the next sequence number, and with a timestamp later by the largest of one, what
      that packet covers and the ticks of the time since, all in machine words. */
  lemma SwitchContinues(clock: U32, ps: seq<Packet>, i: nat) returns (m: nat, t: nat, ahead: nat)
    requires 0 < i < |ps| && ps[i].src != ps[i - 1].src
    ensures Newest(clock, ps, i, m) && ps[m].src == ps[i - 1].src
    ensures InTicks(Elapsed(ps[m].at, ps[i].at), clock, t)
    ensures Largest(ahead, 1, ps[m].covers, t % 0x1_0000_0000_0000_0000)
    ensures var (was, now) := (Out(clock, ps, m), Out(clock, ps, i));
            && now.switched
            && now.seqNo == (was.seqNo + 1) % 0x1_0000
            && now.ts == (was.ts + ahead) % 0x1_0000_0000
  {
    m := LastIsNewest(clock, ps, i);
    MapFacts(After(clock, ps[..i]), ps[i]);
    MapSwitches(After(clock, ps[..i]), ps[i]);
    t := TicksAre(clock, ps[m].at, ps[i].at);
    ahead := Max(Max(ps[m].covers, 1), Ticks(clock, ps[m].at, ps[i].at));
  }

  /** The first packet passes unchanged. */
  lemma FirstUnchanged(clock: U32, ps: seq<Packet>)
    requires ps != []
    ensures Out(clock, ps, 0) == Mapped(ps[0].seqNo, ps[0].ts, false)
  {
    assert ps[..0] == [];
  }

  ghost predicate OneSource(ps: seq<Packet>, i: nat, j: nat)
    requires i <= j < |ps|
  {
    forall k :: i <= k <= j ==> ps[k].src == ps[i].src
  }

  /** Within a source the offsets and the boundary stay. */
  lemma {:induction false} OffsetsStay(clock: U32, ps: seq<Packet>, i: nat, j: nat)
    requires i <= j < |ps| && OneSource(ps, i, j)
    ensures var (a, b) := (After(clock, ps[..i + 1]), After(clock, ps[..j + 1]));
            b.seqOff == a.seqOff && b.tsOff == a.tsOff && b.boundary == a.boundary && b.src == Some(ps[i].src)
    ensures i < j ==> !Out(clock, ps, j).switched
    ensures Out(clock, ps, j).seqNo == Add16(ps[j].seqNo, After(clock, ps[..i + 1]).seqOff)
    ensures Out(clock, ps, j).ts == Add32(ps[j].ts, After(clock, ps[..i + 1]).tsOff)
    decreases j
  {
    AfterStep(clock, ps, j);
    if i < j { OffsetsStay(clock, ps, i, j - 1); }
  }

  /** MAIN: within a source, distances between outputs are the distances between inputs, and a
      sender report's timestamp is translated as a packet's is. */
  lemma GapsKept(clock: U32, ps: seq<Packet>, i: nat, j: nat)
    requires i <= j < |ps| && OneSource(ps, i, j)
    ensures Sub16(Out(clock, ps, j).seqNo, Out(clock, ps, i).seqNo) == Sub16(ps[j].seqNo, ps[i].seqNo)
    ensures Sub32(Out(clock, ps, j).ts, Out(clock, ps, i).ts) == Sub32(ps[j].ts, ps[i].ts)
    ensures TranslateSr(After(clock, ps[..j + 1]), ps[i].ts) == Out(clock, ps, i).ts
  {
    OffsetsStay(clock, ps, i, i);
    OffsetsStay(clock, ps, i, j);
    Gap16(ps[j].seqNo, ps[i].seqNo, After(clock, ps[..i + 1]).seqOff);
    Gap32(ps[j].ts, ps[i].ts, After(clock, ps[..i + 1]).tsOff);
  }

  /** The i-th packet opens a source. */
  predicate Opens(ps: seq<Packet>, i: nat)
    requires i < |ps|
  {
    i == 0 || ps[i].src != ps[i - 1].src
  }

  lemma BoundaryIsFirst(clock: U32, ps: seq<Packet>, i: nat)
    requires i < |ps| && Opens(ps, i)
    ensures After(clock, ps[..i + 1]).boundary == Some(Out(clock, ps, i).seqNo)
  {
    AfterStep(clock, ps, i);
    if i > 0 {
      var _ := LastIsNewest(clock, ps, i);
    } else {
      assert ps[..0] == [];
    }
  }

  lemma UnmapExactly(r: State, s0: U16, s: U16)
    requires r.boundary == Some(Add16(s0, r.seqOff))
    ensures UnmapNack(r, Add16(s, r.seqOff)) == if Sub16(s, s0) <= 0x8000 then Some(s) else None
  {
    Back16(s, r.seqOff);
    Gap16(s0, s, r.seqOff);
    AfterTurned(s, s0);
  }

  /** MAIN: a number asked for again is traced back to its packet if and only if that packet is at
      most 2^15 after the one that opened the source; numbers up to 2^15 - 1 before it are refused. */
  lemma NackExactly(clock: U32, ps: seq<Packet>, i: nat, j: nat, n: nat, asked: U16)
    requires i <= j <= n < |ps| && Opens(ps, i) && OneSource(ps, i, n)
    ensures UnmapNack(After(clock, ps[..n + 1]), Out(clock, ps, j).seqNo)
            == if Sub16(ps[j].seqNo, ps[i].seqNo) <= 0x8000 then Some(ps[j].seqNo) else None
    ensures UnmapNack(After(clock, ps[..n + 1]), asked).None? <==> 1 <= Sub16(Out(clock, ps, i).seqNo, asked) <= 0x7fff
  {
    BoundaryIsFirst(clock, ps, i);
    OffsetsStay(clock, ps, i, i);
    OffsetsStay(clock, ps, i, j);
    OffsetsStay(clock, ps, i, n);
    UnmapExactly(After(clock, ps[..n + 1]), ps[i].seqNo, ps[j].seqNo);
  }

  /** Where the source changes. */
  ghost function Changes(ps: seq<Packet>): set<nat> { set i: nat | i < |ps| && i > 0 && Opens(ps, i) }

  /** MAIN: the rewriter counts its switches, and knows when its last packet went out. */
  lemma {:induction false} SwitchesAreCounted(clock: U32, ps: seq<Packet>)
    ensures After(clock, ps).switches == |Changes(ps)|
    ensures ps != [] ==> After(clock, ps).lastOutAt == ps[|ps| - 1].at && After(clock, ps).src == Some(ps[|ps| - 1].src)
    ensures After(clock, ps).last.Some? <==> ps != []
  {
    if ps == [] {
      assert Changes(ps) == {};
    } else {
      var n := |ps| - 1;
      SwitchesAreCounted(clock, ps[..n]);
      ChangesSnoc(ps);
      OneSwitch(After(clock, ps[..n]), ps[n]);
    }
  }

  lemma ChangesSnoc(ps: seq<Packet>)
    requires ps != []
    ensures var n := |ps| - 1; Changes(ps) == (if n > 0 && Opens(ps, n) then Changes(ps[..n]) + {n} else Changes(ps[..n]))
  {
    var n := |ps| - 1;
    forall i: nat | i < n ensures Opens(ps, i) <==> Opens(ps[..n], i) { }
  }

  lemma OneSwitch(r: State, p: Packet)
    ensures var s := Map(r, p).0;
            && s.switches == (if r.src != Some(p.src) && (r.src.Some? || r.last.Some?) then r.switches + 1 else r.switches)
            && s.lastOutAt == p.at && s.src == Some(p.src) && s.last.Some?
  {
  }
}
