/** Transport-wide congestion feedback at the receiver: which packets arrived when, and the
    reports made of it. */
module Twcc {
  import opened Wrappers

  const KEEP := 500000

  type Symbol = n: int | 0 <= n < 4
  const NONE: Symbol := 0
  const SMALL: Symbol := 1
  const LARGE: Symbol := 2

  type Arrivals = map<int, int>

  datatype State = State(arrivals: Arrivals, last: Option<int>, window: Option<int>, count: nat, newest: int)

  const Start := State(map[], None, None, 0, 0)

  /** base and reference are not yet cut to 16 and 24 bits; that is done when written. */
  datatype Feedback = Feedback(base: int, reference: int, count: nat, symbols: seq<Symbol>, deltas: seq<int>)

  // ---------------------------------------------------------------- recording

  /** The difference of two 16-bit numbers as a signed one. */
  function Signed(d: int): int { var m := d % 65536; if m < 32768 then m else m - 65536 }

  function Unwrap(last: Option<int>, n: int): int {
    match last
    case None => n
    case Some(l) => l + Signed(n - l)
  }

  function Keep(a: Arrivals, horizon: int, window: int): Arrivals {
    map k | k in a && (a[k] >= horizon || k >= window) :: a[k]
  }

  function Record(r: State, n: int, at: int): State {
    var u := Unwrap(r.last, n);
    var last := if r.last.Some? && u <= r.last.value then r.last else Some(u);
    var a := if u in r.arrivals then r.arrivals else r.arrivals[u := at];
    var newest := if at > r.newest then at else r.newest;
    var w := if r.window.Some? && u >= r.window.value then r.window.value else u;
    State(Keep(a, newest - KEEP, w), last, Some(w), r.count, newest)
  }

  ghost predicate Pending(r: State) { r.window.Some? && exists k :: k in r.arrivals && k >= r.window.value }

  // ---------------------------------------------------------------- building

  /** The rounded distance to the previous time, in quarters of a millisecond. */
  function Quarter(t: int, last: int): int { (t - last + 125) / 250 }

  predicate Fits(d: int) { -32768 <= d <= 32767 }

  function SymbolOf(d: int): Symbol { if 0 <= d <= 255 then SMALL else LARGE }

  /** Symbols and deltas from s on, up to max, room of them at most, stopping where a delta does not fit. */
  function Walk(a: Arrivals, s: int, max: int, last: int, room: nat): (seq<Symbol>, seq<int>)
    decreases max + 1 - s
  {
    if s > max || room == 0 then ([], [])
    else if s !in a then
      var (syms, ds) := Walk(a, s + 1, max, last, room - 1);
      ([NONE] + syms, ds)
    else
      var d := Quarter(a[s], last);
      if !Fits(d) then ([], [])
      else
        var (syms, ds) := Walk(a, s + 1, max, last + 250 * d, room - 1);
        ([SymbolOf(d)] + syms, [d] + ds)
  }

  function Trim(syms: seq<Symbol>): seq<Symbol> {
    if syms != [] && syms[|syms| - 1] == NONE then Trim(syms[..|syms| - 1]) else syms
  }

  /** The first arrival of the window is the one at f; max is the newest of all. */
  function Report(r: State, f: int, max: int): Option<Feedback>
    requires r.window.Some? && f in r.arrivals
  {
    var reference := r.arrivals[f] / 64000;
    var (syms, ds) := Walk(r.arrivals, r.window.value, max, reference * 64000, 65535);
    var t := Trim(syms);
    if t == [] then None else Some(Feedback(r.window.value, reference, r.count, t, ds))
  }

  function Reported(r: State, fb: Feedback): State
    requires r.window.Some?
  {
    r.(count := (r.count + 1) % 256, window := Some(r.window.value + |fb.symbols|))
  }

  // ---------------------------------------------------------------- what every state has

  /** From any number of the window on, the next arrival is less than half the number space away. */
  ghost predicate Dense(a: Arrivals, w: int, l: int) { forall g :: w <= g <= l ==> Near(a, g) }

  ghost predicate Near(a: Arrivals, g: int) { exists k :: k in a && g <= k < g + 32768 }

  ghost predicate Ok(r: State) {
    && (r.last.Some? <==> r.window.Some?)
    && (r.last.None? ==> r.arrivals == map[])
    && (r.last.Some? ==>
          && r.last.value in r.arrivals
          && (forall k :: k in r.arrivals ==> k <= r.last.value)
          && r.window.value <= r.last.value + 1
          && Dense(r.arrivals, r.window.value, r.last.value))
  }

  lemma UnwrapNear(l: int, n: int)
    ensures l - 32768 <= Unwrap(Some(l), n) <= l + 32767 && (Unwrap(Some(l), n) - n) % 65536 == 0
  {
  }

  lemma RecordDense(r: State, n: int, at: int, g: int)
    requires Ok(r) && Record(r, n, at).window.value <= g <= Record(r, n, at).last.value
    ensures Near(Record(r, n, at).arrivals, g)
  {
    var u := Unwrap(r.last, n);
    var s := Record(r, n, at);
    assert u in s.arrivals;
    if r.last.Some? {
      UnwrapNear(r.last.value, n);
      if r.window.value <= g <= r.last.value {
        assert Near(r.arrivals, g);
        var k :| k in r.arrivals && g <= k < g + 32768;
        assert k in s.arrivals;
      } else if g < r.window.value && g != u {
        assert r.last.value in s.arrivals && g <= r.last.value < g + 32768;
      }
    }
  }

  /** Recording keeps the invariant, forgets nothing that is still to be reported, and puts the
      new packet among it. */
  lemma RecordOk(r: State, n: int, at: int)
    requires Ok(r)
    ensures var s := Record(r, n, at);
            && Ok(s)
            && Unwrap(r.last, n) in s.arrivals && Unwrap(r.last, n) >= s.window.value
            && (r.window.Some? ==> s.window.value <= r.window.value)
            && (forall k :: k in r.arrivals && r.window.Some? && k >= r.window.value ==> k in s.arrivals && s.arrivals[k] == r.arrivals[k])
  {
    var s := Record(r, n, at);
    if r.last.Some? { UnwrapNear(r.last.value, n); }
    forall g | s.window.value <= g <= s.last.value ensures Near(s.arrivals, g) {
      RecordDense(r, n, at, g);
    }
  }

  // ---------------------------------------------------------------- what a report says

  /** Symbols and deltas describe the arrivals from s on, given the time reached so far. */
  ghost predicate Tells(a: Arrivals, s: int, last: int, syms: seq<Symbol>, ds: seq<int>)
    decreases |syms|
  {
    if syms == [] then ds == []
    else if syms[0] == NONE then s !in a && Tells(a, s + 1, last, syms[1..], ds)
    else
      && s in a && ds != [] && ds[0] == Quarter(a[s], last) && Fits(ds[0]) && syms[0] == SymbolOf(ds[0])
      && Tells(a, s + 1, last + 250 * ds[0], syms[1..], ds[1..])
  }

  lemma {:induction false} WalkTells(a: Arrivals, s: int, max: int, last: int, room: nat)
    ensures var (syms, ds) := Walk(a, s, max, last, room);
            Tells(a, s, last, syms, ds) && |syms| <= room && (syms != [] ==> s + |syms| <= max + 1)
    decreases room
  {
    if s <= max && room > 0 {
      if s !in a {
        WalkTells(a, s + 1, max, last, room - 1);
        var (syms, ds) := Walk(a, s + 1, max, last, room - 1);
        assert ([NONE] + syms)[1..] == syms;
      } else {
        var d := Quarter(a[s], last);
        if Fits(d) {
          WalkTells(a, s + 1, max, last + 250 * d, room - 1);
          var (syms, ds) := Walk(a, s + 1, max, last + 250 * d, room - 1);
          assert ([SymbolOf(d)] + syms)[1..] == syms && ([d] + ds)[1..] == ds;
        }
      }
    }
  }

  lemma {:induction false} TrimTells(a: Arrivals, s: int, last: int, syms: seq<Symbol>, ds: seq<int>)
    requires Tells(a, s, last, syms, ds)
    ensures Tells(a, s, last, Trim(syms), ds) && |Trim(syms)| <= |syms|
    ensures Trim(syms) != [] ==> Trim(syms)[|Trim(syms)| - 1] != NONE
    ensures forall i :: 0 <= i < |Trim(syms)| ==> Trim(syms)[i] == syms[i]
    ensures forall i :: |Trim(syms)| <= i < |syms| ==> syms[i] == NONE
  {
    if syms != [] && syms[|syms| - 1] == NONE {
      DropLastNone(a, s, last, syms, ds);
      TrimTells(a, s, last, syms[..|syms| - 1], ds);
    }
  }

  lemma {:induction false} DropLastNone(a: Arrivals, s: int, last: int, syms: seq<Symbol>, ds: seq<int>)
    requires Tells(a, s, last, syms, ds) && syms != [] && syms[|syms| - 1] == NONE
    ensures Tells(a, s, last, syms[..|syms| - 1], ds)
    decreases |syms|
  {
    if |syms| > 1 {
      assert syms[..|syms| - 1][1..] == syms[1..][..|syms| - 2];
      if syms[0] == NONE {
        DropLastNone(a, s + 1, last, syms[1..], ds);
      } else {
        DropLastNone(a, s + 1, last + 250 * ds[0], syms[1..], ds[1..]);
      }
    }
  }

  /** The first arrival, within reach, is always reported. */
  lemma {:induction false} WalkReaches(a: Arrivals, s: int, max: int, last: int, room: nat, f: int)
    requires f in a && s <= f <= max && f - s < room && last <= a[f] < last + 64000
    requires forall k :: s <= k < f ==> k !in a
    ensures var syms := Walk(a, s, max, last, room).0; f - s < |syms| && syms[f - s] != NONE
    decreases room
  {
    if s != f { WalkReaches(a, s + 1, max, last, room - 1, f); }
  }

  /** f is the first arrival of the window. */
  ghost predicate IsFirst(r: State, f: int) {
    r.window.Some? && f in r.arrivals && f >= r.window.value && forall k :: k in r.arrivals && k >= r.window.value ==> f <= k
  }

  /** The first arrival from g on; l is a later one. */
  function FirstFrom(a: Arrivals, g: int, l: int): (f: int)
    requires l in a && g <= l
    ensures g <= f <= l && f in a && forall k :: g <= k < f ==> k !in a
    decreases l - g
  {
    if g in a then g else FirstFrom(a, g + 1, l)
  }

  lemma PendingIs(r: State)
    requires Ok(r) && r.window.Some?
    ensures Pending(r) <==> r.window.value <= r.last.value
    ensures Pending(r) ==> IsFirst(r, FirstFrom(r.arrivals, r.window.value, r.last.value))
  {
  }

  /** MAIN: whenever something is pending a report is made. It starts at the window, says of every
      number it covers whether it arrived, ends at one that did, and moves the window right behind
      itself; the rest stays pending. */
  lemma ReportTiles(r: State, f: int)
    requires Ok(r) && IsFirst(r, f)
    ensures var fb := Report(r, f, r.last.value);
            && fb.Some?
            && fb.value.base == r.window.value && fb.value.reference == r.arrivals[f] / 64000
            && 0 < |fb.value.symbols| <= 65535 && fb.value.symbols[|fb.value.symbols| - 1] != NONE
            && Tells(r.arrivals, r.window.value, fb.value.reference * 64000, fb.value.symbols, fb.value.deltas)
            && Ok(Reported(r, fb.value))
  {
    var (w, max) := (r.window.value, r.last.value);
    var reference := r.arrivals[f] / 64000;
    var (syms, ds) := Walk(r.arrivals, w, max, reference * 64000, 65535);
    WalkTells(r.arrivals, w, max, reference * 64000, 65535);
    assert Near(r.arrivals, w);
    WalkReaches(r.arrivals, w, max, reference * 64000, 65535, f);
    TrimTells(r.arrivals, w, reference * 64000, syms, ds);
    assert |Trim(syms)| > f - w;
    var s := Reported(r, Report(r, f, max).value);
    forall g | s.window.value <= g <= s.last.value ensures Near(s.arrivals, g) { assert Near(r.arrivals, g); }
  }

  // ---------------------------------------------------------------- successive reports

  /** Reports from w to end, each starting where the one before ended and true of the arrivals. */
  ghost predicate Tiles(a: Arrivals, w: int, fbs: seq<Feedback>, end: int) {
    if fbs == [] then w == end
    else
      var f := fbs[|fbs| - 1];
      && Tiles(a, w, fbs[..|fbs| - 1], f.base)
      && f.symbols != [] && end == f.base + |f.symbols|
      && Tells(a, f.base, f.reference * 64000, f.symbols, f.deltas)
  }

  /** Number k is covered by report f. */
  predicate Covers(f: Feedback, k: int) { f.base <= k < f.base + |f.symbols| }

  lemma {:induction false} TellsAt(a: Arrivals, s: int, last: int, syms: seq<Symbol>, ds: seq<int>, i: nat)
    requires Tells(a, s, last, syms, ds) && i < |syms|
    ensures syms[i] == NONE <==> s + i !in a
    decreases |syms|
  {
    if i > 0 {
      if syms[0] == NONE { TellsAt(a, s + 1, last, syms[1..], ds, i - 1); }
      else { TellsAt(a, s + 1, last + 250 * ds[0], syms[1..], ds[1..], i - 1); }
    }
  }

  lemma {:induction false} TilesSpan(a: Arrivals, w: int, fbs: seq<Feedback>, end: int)
    requires Tiles(a, w, fbs, end)
    ensures w <= end && forall i :: 0 <= i < |fbs| ==> w <= fbs[i].base && fbs[i].base + |fbs[i].symbols| <= end
  {
    if fbs != [] { TilesSpan(a, w, fbs[..|fbs| - 1], fbs[|fbs| - 1].base); }
  }

  /** MAIN: every number of the window is in exactly one report, and marked there as arrived if
      and only if it did. */
  lemma {:induction false} EachOnce(a: Arrivals, w: int, fbs: seq<Feedback>, end: int, k: int) returns (i: nat)
    requires Tiles(a, w, fbs, end) && w <= k < end
    ensures i < |fbs| && Covers(fbs[i], k) && (fbs[i].symbols[k - fbs[i].base] == NONE <==> k !in a)
    ensures forall j :: 0 <= j < |fbs| && j != i ==> !Covers(fbs[j], k)
  {
    var (init, f) := (fbs[..|fbs| - 1], fbs[|fbs| - 1]);
    TilesSpan(a, w, init, f.base);
    if k >= f.base {
      i := |fbs| - 1;
      TellsAt(a, f.base, f.reference * 64000, f.symbols, f.deltas, k - f.base);
      forall j | 0 <= j < |fbs| && j != i ensures !Covers(fbs[j], k) { assert fbs[j] == init[j]; }
    } else {
      i := EachOnce(a, w, init, f.base, k);
      forall j | 0 <= j < |fbs| && j != i ensures !Covers(fbs[j], k) { if j < |init| { assert fbs[j] == init[j]; } }
    }
  }

  // ---------------------------------------------------------------- as it runs

  method TrimLoop(all: seq<Symbol>) returns (syms: seq<Symbol>)
    ensures syms == Trim(all)
  {
    syms := all;
    while syms != [] && syms[|syms| - 1] == NONE
      invariant Trim(syms) == Trim(all)
      decreases |syms|
    {
      syms := syms[..|syms| - 1];
    }
  }

  class Receiver {
    var arrivals: Arrivals
    var last: Option<int>
    var window: Option<int>
    var count: nat
    var newest: int

    function Now(): State
      reads this
    {
      State(arrivals, last, window, count, newest)
    }

    ghost predicate Valid()
      reads this
    {
      Ok(Now())
    }

    constructor ()
      ensures Valid() && Now() == Start
    {
      arrivals, last, window, count, newest := map[], None, None, 0, 0;
    }

    method OnPacket(n: int, at: int)
      requires Valid()
      modifies this
      ensures Valid() && Now() == Record(old(Now()), n, at)
    {
      RecordOk(Now(), n, at);
      var u := Unwrap(last, n);
      if last.None? || u > last.value { last := Some(u); }
      if u !in arrivals { arrivals := arrivals[u := at]; }
      if at > newest { newest := at; }
      if window.None? || u < window.value { window := Some(u); }
      arrivals := Keep(arrivals, newest - KEEP, window.value);
    }

    /** The loop over the numbers of the window. */
    method Scan(first: int, max: int) returns (syms: seq<Symbol>, ds: seq<int>)
      requires window.Some? && first in arrivals
      ensures (syms, ds) == Walk(arrivals, window.value, max, arrivals[first] / 64000 * 64000, 65535)
    {
      syms, ds := [], [];
      var t := arrivals[first] / 64000 * 64000;
      var s := window.value;
      ghost var whole := Walk(arrivals, s, max, t, 65535);
      assert [] + whole.0 == whole.0 && [] + whole.1 == whole.1;
      while s <= max && |syms| < 65535
        invariant |syms| <= 65535
        invariant whole == (var (x, y) := Walk(arrivals, s, max, t, 65535 - |syms|); (syms + x, ds + y))
        decreases 65535 - |syms|
      {
        ghost var (x, y) := Walk(arrivals, s, max, t, 65535 - |syms|);
        if s !in arrivals {
          assert syms + x == (syms + [NONE]) + x[1..];
          syms := syms + [NONE];
        } else {
          var d := Quarter(arrivals[s], t);
          if !Fits(d) {
            assert syms + [] == syms && ds + [] == ds;
            return;
          }
          assert syms + x == (syms + [SymbolOf(d)]) + x[1..] && ds + y == (ds + [d]) + y[1..];
          syms, ds := syms + [SymbolOf(d)], ds + [d];
          t := t + d * 250;
        }
        s := s + 1;
      }
      assert syms + [] == syms && ds + [] == ds;
    }

    method Build() returns (fb: Option<Feedback>)
      requires Valid()
      modifies this
      ensures Valid()
      ensures fb.Some? <==> Pending(old(Now()))
      ensures fb.None? ==> Now() == old(Now())
      ensures fb.Some? ==> Now() == Reported(old(Now()), fb.value)
                           && fb == Report(old(Now()), FirstFrom(old(arrivals), old(window.value), old(last.value)), old(last.value))
    {
      fb := None;
      if window.None? { return; }
      PendingIs(Now());
      if window.value > last.value { return; }
      var f := FirstFrom(arrivals, window.value, last.value);
      ReportTiles(Now(), f);
      var syms, ds := Scan(f, last.value);
      syms := TrimLoop(syms);
      fb := Some(Feedback(window.value, arrivals[f] / 64000, count, syms, ds));
      count := (count + 1) % 256;
      window := Some(window.value + |syms|);
    }

    /** The drain loop: it ends, with nothing pending, and its reports tile the window. */
    method Drain() returns (fbs: seq<Feedback>)
      requires Valid()
      modifies this
      ensures Valid() && !Pending(Now()) && arrivals == old(arrivals) && last == old(last)
      ensures old(window).Some? ==> window.Some? && Tiles(arrivals, old(window.value), fbs, window.value)
                                    && forall k :: k in arrivals ==> k < window.value
    {
      fbs := [];
      while true
        invariant Valid() && arrivals == old(arrivals) && last == old(last)
        invariant window.Some? <==> old(window).Some?
        invariant window.Some? ==> Tiles(arrivals, old(window.value), fbs, window.value)
        decreases if window.Some? then last.value + 1 - window.value else 0
      {
        ghost var was := Now();
        if window.Some? {
          PendingIs(was);
          if Pending(was) { ReportTiles(was, FirstFrom(arrivals, window.value, last.value)); }
        }
        var fb := Build();
        if fb.None? { return; }
        assert (fbs + [fb.value])[..|fbs|] == fbs;
        fbs := fbs + [fb.value];
      }
    }
  }
}
