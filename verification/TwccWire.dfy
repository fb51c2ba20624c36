/** Feedback on the wire: section 3.1 of draft-holmer-rmcat-transport-wide-cc-extensions-01. */
module TwccWire {
  import opened Wrappers
  import opened Twcc

  const SENDER_SSRC := 1

  function Be16(n: int): Bytes { [n / 256 % 256, n % 256] }

  function Get16(b: Bytes): (r: int)
    requires |b| >= 2
    ensures 0 <= r < 65536
  {
    b[0] as int * 256 + b[1]
  }

  lemma Back16(n: int, tail: Bytes)
    ensures Get16(Be16(n) + tail) == n % 65536 && (Be16(n) + tail)[2..] == tail
  {
    var b := Be16(n) + tail;
    assert b[0] == n / 256 % 256 && b[1] == n % 256;
  }

  // ---------------------------------------------------------------- writing

  /** Length of the run of equal symbols at the front, at most 8191, given that n of it are seen. */
  function RunFrom(s: seq<Symbol>, n: nat): (r: nat)
    requires 0 < n <= |s| && n <= 8191 && forall i :: 0 <= i < n ==> s[i] == s[0]
    ensures n <= r <= |s| && r <= 8191 && (forall i :: 0 <= i < r ==> s[i] == s[0])
    ensures r == |s| || r == 8191 || s[r] != s[0]
    decreases |s| - n
  {
    if n < |s| && s[n] == s[0] && n < 8191 then RunFrom(s, n + 1) else n
  }

  function Run(s: seq<Symbol>): (r: nat)
    requires s != []
    ensures 0 < r <= |s| && r <= 8191 && (forall i :: 0 <= i < r ==> s[i] == s[0])
    ensures r == |s| || r == 8191 || s[r] != s[0]
  {
    RunFrom(s, 1)
  }

  /** A run-length chunk: two bits of symbol, thirteen of length. */
  function Chunk(x: Symbol, n: nat): Bytes { Be16(ChunkOf(x, n)) }

  function ChunkOf(x: Symbol, n: nat): int { x as int * 8192 + n }

  function Chunks(s: seq<Symbol>): Bytes
    decreases |s|
  {
    if s == [] then [] else Chunk(s[0], Run(s)) + Chunks(s[Run(s)..])
  }

  method RunLength(s: seq<Symbol>, i: nat) returns (n: nat)
    requires i < |s|
    ensures n == Run(s[i..])
  {
    n := 1;
    while i + n < |s| && s[i + n] == s[i] && n < 8191
      invariant 0 < n <= 8191 && i + n <= |s| && forall k :: 0 <= k < n ==> s[i..][k] == s[i..][0]
      invariant RunFrom(s[i..], n) == Run(s[i..])
      decreases |s| - n
    {
      n := n + 1;
    }
  }

  lemma Shift(a: Bytes, b: Bytes, c: Bytes)
    ensures a + (b + c) == (a + b) + c
  {
  }

  /** The bytes once all symbols from i on are written behind r. */
  ghost function Written(r: Bytes, s: seq<Symbol>, i: nat): Bytes
    requires i <= |s|
  {
    r + Chunks(s[i..])
  }

  lemma WrittenNext(r: Bytes, s: seq<Symbol>, i: nat, n: nat)
    requires i < |s| && n == Run(s[i..])
    ensures Written(r, s, i) == Written(r + Chunk(s[i], n), s, i + n)
  {
    assert s[i..][n..] == s[i + n..];
    Shift(r, Chunk(s[i], n), Chunks(s[i + n..]));
  }

  lemma WrittenEnds(r: Bytes, s: seq<Symbol>)
    ensures Written(r, s, 0) == r + Chunks(s) && Written(r, s, |s|) == r
  {
    assert s[0..] == s && s[|s|..] == [];
    assert r + [] == r;
  }

  /** One chunk, of the longest run from i on. */
  method WriteChunk(b: Bytes, s: seq<Symbol>, i: nat) returns (r: Bytes, k: nat)
    requires i < |s|
    ensures i < k <= |s| && Written(r, s, k) == Written(b, s, i)
  {
    var n := RunLength(s, i);
    WrittenNext(b, s, i, n);
    r, k := b + Chunk(s[i], n), i + n;
  }

  /** The loop that writes chunks. */
  method WriteChunks(b: Bytes, s: seq<Symbol>) returns (r: Bytes)
    ensures r == b + Chunks(s)
  {
    r := b;
    var i := 0;
    while i < |s|
      invariant i <= |s| && Written(r, s, i) == Written(b, s, 0)
    {
      r, i := WriteChunk(r, s, i);
    }
    WrittenEnds(r, s);
    WrittenEnds(b, s);
  }

  /** One byte for a small delta, two for a large one. */
  function Deltas(s: seq<Symbol>, ds: seq<int>): Bytes
    decreases |s|
  {
    if s == [] then []
    else if s[0] == SMALL && ds != [] then [ds[0] % 256] + Deltas(s[1..], ds[1..])
    else if s[0] == LARGE && ds != [] then Be16(ds[0]) + Deltas(s[1..], ds[1..])
    else Deltas(s[1..], ds)
  }

  function Fixed(media: int, f: Feedback): (r: Bytes)
    ensures |r| == 16
  {
    Be32(SENDER_SSRC) + Be32(media) + Be16(f.base) + Be16(|f.symbols|) + Be32(f.reference % 16777216 * 256 + f.count % 256)
  }

  function Pad(n: nat): (r: Bytes)
    ensures (n + |r|) % 4 == 0 && |r| < 4
  {
    if n % 4 == 0 then [] else if n % 4 == 1 then [0, 0, 3] else if n % 4 == 2 then [0, 2] else [1]
  }

  function Rest(f: Feedback): Bytes { Chunks(f.symbols) + Deltas(f.symbols, f.deltas) }

  /** The packet after its first word. */
  function Body(media: int, f: Feedback): (r: Bytes)
    ensures |r| % 4 == 0 && |Rest(f)| + 16 <= |r| < |Rest(f)| + 20
  {
    Fixed(media, f) + (Rest(f) + Pad(|Rest(f)|))
  }

  /** Version, padding flag and format, type, length in words less one. */
  function Build(media: int, f: Feedback): Bytes {
    Framed(First(f), Words(Body(media, f)), Body(media, f))
  }

  function First(f: Feedback): (r: Byte)
    ensures r / 64 == 2 && r % 32 == 15
  {
    if |Rest(f)| % 4 != 0 then 175 else 143
  }

  function Words(body: Bytes): (n: nat)
    requires |body| % 4 == 0
    ensures 4 * n == |body|
  {
    |body| / 4
  }

  function Framed(first: Byte, words: nat, body: Bytes): Bytes { [first, 205] + (Be16(words) + body) }

  // ---------------------------------------------------------------- reading

  datatype Packet = Packet(fmt: int, pt: int, body: Bytes)

  function Split(b: Bytes): seq<Packet>
    decreases |b|
  {
    if |b| < 4 || b[0] / 64 != 2 then []
    else
      var len := (Get16(b[2..]) + 1) * 4;
      if len > |b| then [] else [Packet(b[0] % 32, b[1], b[4..len])] + Split(b[len..])
  }

  function Pow2(k: nat): (p: nat)
    ensures p > 0
  {
    if k == 0 then 1 else 2 * Pow2(k - 1)
  }

  /** The symbols of one chunk: a run, or a vector of one- or two-bit symbols; room of them at most. */
  function ChunkSymbols(c: int, room: nat): (r: seq<Symbol>)
    requires 0 <= c < 65536
    ensures |r| <= room
  {
    if c < 32768 then seq(Min(c % 8192, room), _ => c / 8192)
    else if c < 49152 then seq(Min(14, room), k requires 0 <= k < 14 => c / Pow2(13 - k) % 2)
    else seq(Min(7, room), k requires 0 <= k < 7 => c / Pow2(12 - 2 * k) % 4)
  }

  function TakeSymbols(b: Bytes, count: nat): Option<(seq<Symbol>, Bytes)>
    decreases |b|
  {
    if count == 0 then Some(([], b))
    else if |b| < 2 then None
    else
      var got := ChunkSymbols(Get16(b), count);
      var (syms, rest) :- TakeSymbols(b[2..], count - |got|);
      Some((got + syms, rest))
  }

  function TakeTimes(b: Bytes, s: seq<Symbol>, t: int): Option<seq<Option<int>>>
    decreases |s|
  {
    if s == [] then Some([])
    else if s[0] == SMALL then
      if b == [] then None else
      var at := t + b[0] as int * 250;
      var rest :- TakeTimes(b[1..], s[1..], at);
      Some([Option.Some(at)] + rest)
    else if s[0] == LARGE then
      if |b| < 2 then None else
      var at := t + Signed(Get16(b)) * 250;
      var rest :- TakeTimes(b[2..], s[1..], at);
      Some([Option.Some(at)] + rest)
    else
      var rest :- TakeTimes(b, s[1..], t);
      Some([Option.None] + rest)
  }

  /** Twenty-four bits as a signed number. */
  function Reference(n: int): int { if n >= 8388608 then n - 16777216 else n }

  function Parse(body: Bytes): Option<(int, seq<Option<int>>)> {
    if |body| < 16 then None
    else
      var reference := Reference(body[12] as int * 65536 + body[13] as int * 256 + body[14]);
      var (syms, rest) :- TakeSymbols(body[16..], Get16(body[10..]));
      var times :- TakeTimes(rest, syms, reference * 64000);
      Some((Get16(body[8..]), times))
  }

  /** The loop over packets. */
  method SplitLoop(b: Bytes) returns (out: seq<Packet>)
    ensures out == Split(b)
  {
    out := [];
    var rest := b;
    while |rest| >= 4
      invariant out + Split(rest) == Split(b)
      decreases |rest|
    {
      if rest[0] / 64 != 2 { return; }
      var len := (Get16(rest[2..]) + 1) * 4;
      if len > |rest| { return; }
      var p := Packet(rest[0] % 32, rest[1], rest[4..len]);
      assert out + ([p] + Split(rest[len..])) == (out + [p]) + Split(rest[len..]);
      out, rest := out + [p], rest[len..];
    }
  }

  /** What is read in the end, with syms read and b left. */
  ghost function Reading(syms: seq<Symbol>, b: Bytes, count: nat): Option<(seq<Symbol>, Bytes)>
    requires |syms| <= count
  {
    match TakeSymbols(b, count - |syms|)
    case None => None
    case Some(p) => Some((syms + p.0, p.1))
  }

  lemma ReadingNext(syms: seq<Symbol>, b: Bytes, count: nat, got: seq<Symbol>)
    requires |b| >= 2 && |syms| < count && got == ChunkSymbols(Get16(b), count - |syms|)
    ensures Reading(syms, b, count) == Reading(syms + got, b[2..], count)
  {
    var more := TakeSymbols(b[2..], count - |syms + got|);
    if more.Some? { assert syms + (got + more.value.0) == (syms + got) + more.value.0; }
  }

  lemma ReadingStarts(b: Bytes, count: nat)
    ensures Reading([], b, count) == TakeSymbols(b, count)
  {
    var more := TakeSymbols(b, count);
    if more.Some? { assert [] + more.value.0 == more.value.0; }
  }

  lemma ReadingEnds(syms: seq<Symbol>, b: Bytes)
    ensures Reading(syms, b, |syms|) == Some((syms, b))
  {
    assert syms + [] == syms;
  }

  /** One chunk. */
  method ReadChunk(syms: seq<Symbol>, b: Bytes, count: nat) returns (more: seq<Symbol>)
    requires |b| >= 2 && |syms| < count
    ensures |more| <= count && Reading(more, b[2..], count) == Reading(syms, b, count)
  {
    var got := ChunkSymbols(Get16(b), count - |syms|);
    ReadingNext(syms, b, count, got);
    more := syms + got;
  }

  /** The loop over chunks. */
  method ReadSymbols(b: Bytes, count: nat) returns (r: Option<(seq<Symbol>, Bytes)>)
    ensures r == TakeSymbols(b, count)
  {
    var syms: seq<Symbol> := [];
    var rest := b;
    ReadingStarts(b, count);
    while |syms| < count
      invariant |syms| <= count && Reading(syms, rest, count) == TakeSymbols(b, count)
      decreases |rest|
    {
      if |rest| < 2 { return None; }
      syms := ReadChunk(syms, rest, count);
      rest := rest[2..];
    }
    ReadingEnds(syms, rest);
    r := Some((syms, rest));
  }

  // ---------------------------------------------------------------- there and back

  ghost predicate Plain(s: seq<Symbol>) { forall x :: x in s ==> x <= LARGE }

  function Repeat(x: Symbol, n: nat): seq<Symbol> { seq(n, _ => x) }

  lemma RunSymbols(x: Symbol, n: nat, room: nat)
    requires x <= LARGE && 0 < n <= 8191 && n <= room
    ensures var c := ChunkOf(x, n); 0 <= c < 65536 && ChunkSymbols(c, room) == Repeat(x, n)
  {
    var c := ChunkOf(x, n);
    assert c / 8192 == x && c % 8192 == n;
  }

  lemma RunBack(x: Symbol, n: nat, room: nat, rest: Bytes)
    requires x <= LARGE && 0 < n <= 8191 && n <= room
    ensures var b := Chunk(x, n) + rest; b[2..] == rest && |b| >= 2 && ChunkSymbols(Get16(b), room) == Repeat(x, n)
  {
    RunSymbols(x, n, room);
    Back16(ChunkOf(x, n), rest);
    assert Get16(Chunk(x, n) + rest) == ChunkOf(x, n);
  }

  lemma TakeOne(b: Bytes, head: seq<Symbol>, more: seq<Symbol>, tail: Bytes)
    requires |b| >= 2 && head != [] && ChunkSymbols(Get16(b), |head| + |more|) == head
    requires TakeSymbols(b[2..], |more|) == Some((more, tail))
    ensures TakeSymbols(b, |head| + |more|) == Some((head + more, tail))
  {
  }

  lemma {:induction false} ChunksBack(s: seq<Symbol>, tail: Bytes)
    requires Plain(s)
    ensures TakeSymbols(Chunks(s) + tail, |s|) == Some((s, tail))
    decreases |s|
  {
    if s == [] {
      assert Chunks(s) + tail == tail;
    } else {
      var n := Run(s);
      var (head, more) := (s[..n], s[n..]);
      RunSplits(s, n);
      ChunksBack(more, tail);
      RunBack(s[0], n, |s|, Chunks(more) + tail);
      Shift(Chunk(s[0], n), Chunks(more), tail);
      TakeOne(Chunk(s[0], n) + (Chunks(more) + tail), head, more, tail);
    }
  }

  lemma RunSplits(s: seq<Symbol>, n: nat)
    requires Plain(s) && s != [] && n == Run(s)
    ensures s[..n] + s[n..] == s && s[..n] == Repeat(s[0], n) && s[0] <= LARGE && Plain(s[n..])
  {
    assert s[0] in s;
    forall x | x in s[n..] ensures x <= LARGE { assert x in s; }
  }

  /** The times that symbols and deltas stand for. */
  function Times(s: seq<Symbol>, ds: seq<int>, t: int): seq<Option<int>>
    decreases |s|
  {
    if s == [] then []
    else if s[0] != NONE && ds != [] then [Option.Some(t + 250 * ds[0])] + Times(s[1..], ds[1..], t + 250 * ds[0])
    else [Option.None] + Times(s[1..], ds, t)
  }

  lemma SignedBack(d: int)
    requires Fits(d)
    ensures Signed(d % 65536) == d
  {
  }

  /** Whatever time u the reader starts from. */
  lemma {:induction false} DeltasBack(a: Arrivals, s: int, t: int, syms: seq<Symbol>, ds: seq<int>, tail: Bytes, u: int)
    requires Tells(a, s, t, syms, ds)
    ensures TakeTimes(Deltas(syms, ds) + tail, syms, u) == Some(Times(syms, ds, u))
    decreases |syms|
  {
    if syms != [] {
      if syms[0] == NONE {
        DeltasBack(a, s + 1, t, syms[1..], ds, tail, u);
      } else {
        DeltasBack(a, s + 1, t + 250 * ds[0], syms[1..], ds[1..], tail, u + 250 * ds[0]);
        DeltaBack(syms, ds, u, Deltas(syms[1..], ds[1..]), tail);
      }
    }
  }

  /** One delta, in front of the rest. */
  lemma DeltaBack(syms: seq<Symbol>, ds: seq<int>, t: int, more: Bytes, tail: Bytes)
    requires syms != [] && ds != [] && Fits(ds[0]) && syms[0] == SymbolOf(ds[0]) && more == Deltas(syms[1..], ds[1..])
    requires TakeTimes(more + tail, syms[1..], t + 250 * ds[0]) == Some(Times(syms[1..], ds[1..], t + 250 * ds[0]))
    ensures TakeTimes(Deltas(syms, ds) + tail, syms, t) == Some(Times(syms, ds, t))
  {
    var (d, rest) := (ds[0], Times(syms[1..], ds[1..], t + 250 * ds[0]));
    if syms[0] == SMALL {
      TakeSmall([d % 256] + more + tail, more + tail, syms, t, d, rest);
    } else {
      TakeLarge(Be16(d) + more + tail, more + tail, syms, t, d, rest);
    }
  }

  lemma TakeSmall(b: Bytes, more: Bytes, syms: seq<Symbol>, t: int, d: int, rest: seq<Option<int>>)
    requires syms != [] && syms[0] == SMALL && 0 <= d <= 255 && b == [d % 256] + more
    requires TakeTimes(more, syms[1..], t + 250 * d) == Some(rest)
    ensures TakeTimes(b, syms, t) == Some([Option.Some(t + 250 * d)] + rest)
  {
    assert b[1..] == more;
  }

  lemma TakeLarge(b: Bytes, more: Bytes, syms: seq<Symbol>, t: int, d: int, rest: seq<Option<int>>)
    requires syms != [] && syms[0] == LARGE && Fits(d) && b == Be16(d) + more
    requires TakeTimes(more, syms[1..], t + 250 * d) == Some(rest)
    ensures TakeTimes(b, syms, t) == Some([Option.Some(t + 250 * d)] + rest)
  {
    Back16(d, more);
    SignedBack(d);
  }

  lemma {:induction false} TellsPlain(a: Arrivals, s: int, t: int, syms: seq<Symbol>, ds: seq<int>)
    requires Tells(a, s, t, syms, ds)
    ensures Plain(syms)
    decreases |syms|
  {
    if syms != [] {
      if syms[0] == NONE { TellsPlain(a, s + 1, t, syms[1..], ds); } else { TellsPlain(a, s + 1, t + 250 * ds[0], syms[1..], ds[1..]); }
      assert forall x :: x in syms ==> x == syms[0] || x in syms[1..];
    }
  }

  /** MAIN: decoded times are within 125 microseconds of the arrivals, however many came before. */
  lemma {:induction false} NoDrift(a: Arrivals, s: int, t: int, syms: seq<Symbol>, ds: seq<int>, i: nat)
    requires Tells(a, s, t, syms, ds) && i < |syms|
    ensures |Times(syms, ds, t)| == |syms|
    ensures Times(syms, ds, t)[i].None? <==> s + i !in a
    ensures Times(syms, ds, t)[i].Some? ==> -125 <= Times(syms, ds, t)[i].value - a[s + i] <= 125
    decreases |syms|
  {
    TimesLength(syms, ds, t);
    if syms[0] == NONE {
      if i > 0 { NoDrift(a, s + 1, t, syms[1..], ds, i - 1); }
    } else if i > 0 {
      NoDrift(a, s + 1, t + 250 * ds[0], syms[1..], ds[1..], i - 1);
    } else {
      QuarterNear(a[s], t);
    }
  }

  lemma QuarterNear(t: int, last: int)
    ensures -125 <= last + 250 * Quarter(t, last) - t <= 125
  {
  }

  lemma {:induction false} TimesLength(s: seq<Symbol>, ds: seq<int>, t: int)
    ensures |Times(s, ds, t)| == |s|
    decreases |s|
  {
    if s != [] {
      if s[0] != NONE && ds != [] { TimesLength(s[1..], ds[1..], t + 250 * ds[0]); } else { TimesLength(s[1..], ds, t); }
    }
  }

  // ---------------------------------------------------------------- length

  function Unit(x: Symbol): nat { if x == SMALL then 1 else if x == LARGE then 2 else 0 }

  function Size(s: seq<Symbol>): nat { if s == [] then 0 else Unit(s[0]) + Size(s[1..]) }

  lemma {:induction false} DeltasSize(s: seq<Symbol>, ds: seq<int>)
    ensures |Deltas(s, ds)| <= Size(s)
    decreases |s|
  {
    if s != [] {
      if s[0] != NONE && s[0] <= LARGE && ds != [] { DeltasSize(s[1..], ds[1..]); } else { DeltasSize(s[1..], ds); }
    }
  }

  lemma {:induction false} SizeRun(s: seq<Symbol>, n: nat)
    requires s != [] && n <= |s| && forall i :: 0 <= i < n ==> s[i] == s[0]
    ensures Size(s) == n * Unit(s[0]) + Size(s[n..])
    decreases n
  {
    if n > 0 {
      assert s[1..][n - 1..] == s[n..];
      if n > 1 { SizeRun(s[1..], n - 1); }
    }
  }

  /** Alternating large and small deltas are the worst: three and a half bytes each. */
  lemma {:induction false} SizeBound(s: seq<Symbol>)
    ensures 2 * (|Chunks(s)| + Size(s)) <= 7 * |s| + (if s != [] && s[0] == LARGE then 1 else 0)
    decreases |s|
  {
    if s != [] {
      var n := Run(s);
      SizeRun(s, n);
      SizeBound(s[n..]);
    }
  }

  lemma BodyWords(media: int, f: Feedback)
    requires |f.symbols| <= 65535
    ensures |Body(media, f)| < 4 * 65535
  {
    SizeBound(f.symbols);
    DeltasSize(f.symbols, f.deltas);
    assert |Rest(f)| <= |Chunks(f.symbols)| + Size(f.symbols);
  }

  lemma SplitFirst(first: Byte, words: nat, body: Bytes, more: Bytes)
    requires first / 64 == 2 && |body| == 4 * words && words < 65535
    ensures Split(Framed(first, words, body) + more) == [Packet(first % 32, 205, body)] + Split(more)
  {
    var b := Framed(first, words, body) + more;
    FramedParts(first, words, body, more);
    assert Get16(b[2..]) == words;
  }

  lemma FramedParts(first: Byte, words: nat, body: Bytes, more: Bytes)
    requires |body| == 4 * words && words < 65535
    ensures var b := Framed(first, words, body) + more;
            var len := (words + 1) * 4;
            && |b| == len + |more| && b[0] == first && b[1] == 205
            && Get16(b[2..]) == words && b[4..len] == body && b[len..] == more
  {
    var b := Framed(first, words, body) + more;
    assert b[2..] == Be16(words) + (body + more);
    Back16(words, body + more);
  }

  /** Every packet built is split off whole, whatever follows it: its length always fits. */
  lemma SplitBack(media: int, f: Feedback, more: Bytes)
    requires |f.symbols| <= 65535
    ensures Split(Build(media, f) + more) == [Packet(15, 205, Body(media, f))] + Split(more)
  {
    BodyWords(media, f);
    SplitFirst(First(f), Words(Body(media, f)), Body(media, f), more);
  }

  // ---------------------------------------------------------------- the whole way

  lemma FixedBack(media: int, f: Feedback, rest: Bytes)
    requires |f.symbols| <= 65535
    ensures var b := Fixed(media, f) + rest;
            && |b| >= 16 && b[16..] == rest
            && Get16(b[8..]) == f.base % 65536 && Get16(b[10..]) == |f.symbols|
            && b[12] as int * 65536 + b[13] as int * 256 + b[14] == f.reference % 16777216
  {
    var b := Fixed(media, f) + rest;
    var m := f.reference % 16777216;
    var last := Be32(m * 256 + f.count % 256) + rest;
    assert b[8..] == Be16(f.base) + (Be16(|f.symbols|) + last);
    assert b[10..] == Be16(|f.symbols|) + last;
    Back16(f.base, Be16(|f.symbols|) + last);
    Back16(|f.symbols|, last);
    High24(m, f.count % 256);
    assert b[12] == last[0] && b[13] == last[1] && b[14] == last[2];
  }

  /** How far off, in microseconds, the times read back are: the reference is cut to 24 signed bits. */
  function Wrap(reference: int): int { (Reference(reference % 16777216) - reference) * 64000 }

  predicate Fits24(reference: int) { -8388608 <= reference < 8388608 }

  /** A reference that fits comes back; any other is off by a multiple of about twelve days. */
  lemma ReferenceBack(r: int)
    ensures Wrap(r) == 0 <==> Fits24(r)
    ensures Wrap(r) % (16777216 * 64000) == 0
  {
    var k := (Reference(r % 16777216) - r) / 16777216;
    assert Reference(r % 16777216) - r == k * 16777216;
    assert Wrap(r) == k * (16777216 * 64000);
  }

  lemma High24(m: int, c: int)
    requires 0 <= m < 16777216 && 0 <= c < 256
    ensures var b := Be32(m * 256 + c); b[0] as int * 65536 + b[1] as int * 256 + b[2] == m
  {
    var n := m * 256 + c;
    assert n / 256 == m && n / 65536 == m / 256 && n / 16777216 == m / 65536;
  }

  lemma ParseSteps(b: Bytes, reference: int, syms: seq<Symbol>, rest: Bytes, times: seq<Option<int>>)
    requires |b| >= 16 && Reference(b[12] as int * 65536 + b[13] as int * 256 + b[14]) == reference
    requires TakeSymbols(b[16..], Get16(b[10..])) == Some((syms, rest))
    requires TakeTimes(rest, syms, reference * 64000) == Some(times)
    ensures Parse(b) == Some((Get16(b[8..]), times))
  {
  }

  /** Any bytes that start with the fields, the chunks and the deltas of f, and some reference. */
  lemma ParseAny(a: Arrivals, b: Bytes, f: Feedback, pad: Bytes, reference: int)
    requires Tells(a, f.base, f.reference * 64000, f.symbols, f.deltas)
    requires |b| >= 16 && b[16..] == Chunks(f.symbols) + (Deltas(f.symbols, f.deltas) + pad)
    requires Get16(b[8..]) == f.base % 65536 && Get16(b[10..]) == |f.symbols|
    requires Reference(b[12] as int * 65536 + b[13] as int * 256 + b[14]) == reference
    ensures Parse(b) == Some((f.base % 65536, Times(f.symbols, f.deltas, reference * 64000)))
  {
    var t := f.reference * 64000;
    TellsPlain(a, f.base, t, f.symbols, f.deltas);
    ChunksBack(f.symbols, Deltas(f.symbols, f.deltas) + pad);
    DeltasBack(a, f.base, t, f.symbols, f.deltas, pad, reference * 64000);
    ParseSteps(b, reference, f.symbols, Deltas(f.symbols, f.deltas) + pad, Times(f.symbols, f.deltas, reference * 64000));
  }

  lemma ParseBack(a: Arrivals, media: int, f: Feedback)
    requires Tells(a, f.base, f.reference * 64000, f.symbols, f.deltas) && |f.symbols| <= 65535
    ensures Parse(Body(media, f))
            == Some((f.base % 65536, Times(f.symbols, f.deltas, f.reference * 64000 + Wrap(f.reference))))
  {
    var (pad, reference) := (Pad(|Rest(f)|), Reference(f.reference % 16777216));
    FixedBack(media, f, Rest(f) + pad);
    Shift(Chunks(f.symbols), Deltas(f.symbols, f.deltas), pad);
    ParseAny(a, Fixed(media, f) + (Rest(f) + pad), f, pad, reference);
    assert reference * 64000 == f.reference * 64000 + Wrap(f.reference);
  }

  /** Entry i says None exactly if number s + i did not arrive, and otherwise when it did plus err,
      to within 125 microseconds. */
  ghost predicate OffAt(a: Arrivals, s: int, times: seq<Option<int>>, err: int, i: nat)
    requires i < |times|
  {
    if times[i].None? then s + i !in a else s + i in a && -125 <= times[i].value - err - a[s + i] <= 125
  }

  ghost predicate Off(a: Arrivals, s: int, times: seq<Option<int>>, err: int) {
    forall i :: 0 <= i < |times| ==> OffAt(a, s, times, err, i)
  }

  ghost predicate Accurate(a: Arrivals, s: int, times: seq<Option<int>>) { Off(a, s, times, 0) }

  /** The four bytes at i as a number. */
  function Word(b: Bytes, i: nat): int
    requires i + 4 <= |b|
  {
    b[i] as int * 16777216 + b[i + 1] as int * 65536 + b[i + 2] as int * 256 + b[i + 3]
  }

  /** A number below 2^32 from its four bytes. */
  lemma WordBytes(n: int)
    requires 0 <= n < 0x1_0000_0000
    ensures n / 16777216 % 256 * 16777216 + n / 65536 % 256 * 65536 + n / 256 % 256 * 256 + n % 256 == n
  {
    var (a, b, c) := (n / 16777216, n / 65536, n / 256);
    assert c / 256 == b && b / 256 == a && a < 256;
    assert c % 256 == c - 256 * b && b % 256 == b - 256 * a && n % 256 == n - 256 * c && a % 256 == a;
  }

  lemma WordAt(head: Bytes, n: int, tail: Bytes)
    requires 0 <= n < 0x1_0000_0000
    ensures var b := head + Be32(n) + tail; |head| + 4 <= |b| && Word(b, |head|) == n
  {
    var (b, i, w) := (head + Be32(n) + tail, |head|, Be32(n));
    assert b[i] == w[0] && b[i + 1] == w[1] && b[i + 2] == w[2] && b[i + 3] == w[3];
    WordIs(b, i, w, n);
  }

  lemma WordIs(b: Bytes, i: nat, w: Bytes, n: int)
    requires 0 <= n < 0x1_0000_0000 && w == Be32(n) && i + 4 <= |b|
    requires b[i] == w[0] && b[i + 1] == w[1] && b[i + 2] == w[2] && b[i + 3] == w[3]
    ensures Word(b, i) == n
  {
    WordBytes(n);
  }

  /** MAIN: whoever reads the packet finds the reporter's number, then the number of the medium, then the count of
      this report; and where the first byte says so, the last byte how much to leave away. */
  lemma HeadBack(media: int, f: Feedback)
    requires 0 <= media < 0x1_0000_0000 && f.count < 256
    ensures var b := Body(media, f);
            && Word(b, 0) == 1 && Word(b, 4) == media && b[15] == f.count
            && (First(f) / 32 % 2 == 1 <==> |b| > 16 + |Rest(f)|)
            && (First(f) / 32 % 2 == 1 ==> b[|b| - 1] > 0 && |b| - b[|b| - 1] == 16 + |Rest(f)|)
  {
    var ref := f.reference % 16777216 * 256 + f.count % 256;
    var (mid, more) := (Be16(f.base) + Be16(|f.symbols|), Rest(f) + Pad(|Rest(f)|));
    assert Body(media, f) == Be32(1) + Be32(media) + mid + Be32(ref) + more;
    HeadWords(Body(media, f), media, mid, ref, more);
    CountByte(f.reference % 16777216, f.count);
    PadBack(Fixed(media, f), Rest(f), Body(media, f));
  }

  lemma CountByte(reference: int, count: nat)
    requires count < 256
    ensures (reference * 256 + count % 256) % 256 == count
  {
  }

  lemma HeadWords(b: Bytes, media: int, mid: Bytes, ref: int, more: Bytes)
    requires 0 <= media < 0x1_0000_0000 && |mid| == 4 && b == Be32(1) + Be32(media) + mid + Be32(ref) + more
    ensures |b| >= 16 && Word(b, 0) == 1 && Word(b, 4) == media && b[15] == ref % 256
  {
    assert b == [] + Be32(1) + (Be32(media) + mid + Be32(ref) + more);
    WordAt([], 1, Be32(media) + mid + Be32(ref) + more);
    assert b == Be32(1) + Be32(media) + (mid + Be32(ref) + more);
    WordAt(Be32(1), media, mid + Be32(ref) + more);
    assert b[15] == Be32(ref)[3];
  }

  lemma PadBack(fixed: Bytes, rest: Bytes, b: Bytes)
    requires |fixed| == 16 && b == fixed + (rest + Pad(|rest|))
    ensures |b| == 16 + |rest| + |Pad(|rest|)| && (|rest| % 4 != 0 <==> |b| > 16 + |rest|)
    ensures |rest| % 4 != 0 ==> b[|b| - 1] > 0 && |b| - b[|b| - 1] == 16 + |rest|
  {
    var pad := Pad(|rest|);
    if pad != [] { assert b[|b| - 1] == pad[|pad| - 1]; }
  }

  /** MAIN: a report made from any reachable state, written, split off and parsed, gives back the
      window's base, says None exactly of the numbers that did not arrive, and of every other its
      arrival to within 125 microseconds, plus the wrap of the reference, the same for all. So the
      times are accurate if and only if the reference fits in 24 signed bits. */
  lemma RoundTrip(r: State, f: int, media: int) returns (fb: Feedback, times: seq<Option<int>>)
    requires Ok(r) && IsFirst(r, f)
    ensures Report(r, f, r.last.value) == Some(fb)
    ensures Split(Build(media, fb)) == [Packet(15, 205, Body(media, fb))]
    ensures Parse(Body(media, fb)) == Some((r.window.value % 65536, times)) && |times| == |fb.symbols|
    ensures Off(r.arrivals, r.window.value, times, Wrap(r.arrivals[f] / 64000))
    ensures Accurate(r.arrivals, r.window.value, times) <==> Fits24(r.arrivals[f] / 64000)
  {
    fb := TrueReport(r, f);
    times := Decodes(r.arrivals, media, fb);
    AccurateExactly(r.arrivals, fb.base, fb.reference, fb.symbols, fb.deltas, times);
  }

  /** It does not fit from 2^23 times 64 milliseconds on, a little over six days: the first packet
      of a receiver, if it arrives then, is reported at a wrong time. */
  lemma LateIsWrong(n: int, at: int, media: int) returns (fb: Feedback, times: seq<Option<int>>)
    requires at >= 8388608 * 64000
    ensures var r := Record(Start, n, at);
            && Ok(r) && IsFirst(r, n) && Report(r, n, r.last.value) == Some(fb)
            && Parse(Body(media, fb)) == Some((n % 65536, times)) && !Accurate(r.arrivals, n, times)
  {
    var r := Record(Start, n, at);
    OneArrival(n, at, r);
    fb, times := RoundTrip(r, n, media);
  }

  lemma OneArrival(n: int, at: int, r: State)
    requires at >= 0 && r == Record(Start, n, at)
    ensures Ok(r) && IsFirst(r, n) && r.window == Some(n) && r.arrivals == map[n := at]
  {
    RecordOk(Start, n, at);
  }

  lemma AccurateExactly(a: Arrivals, s: int, reference: int, syms: seq<Symbol>, ds: seq<int>, times: seq<Option<int>>)
    requires syms != [] && syms[|syms| - 1] != NONE && Tells(a, s, reference * 64000, syms, ds)
    requires |times| == |syms| && Off(a, s, times, Wrap(reference))
    ensures Accurate(a, s, times) <==> Fits24(reference)
  {
    ReferenceBack(reference);
    TellsAt(a, s, reference * 64000, syms, ds, |syms| - 1);
    OffOnce(a, s, times, Wrap(reference), |times| - 1);
  }

  /** Times off by that much are accurate only if that is nothing. */
  lemma OffOnce(a: Arrivals, s: int, times: seq<Option<int>>, err: int, i: nat)
    requires Off(a, s, times, err) && i < |times| && s + i in a && err % (16777216 * 64000) == 0
    ensures Accurate(a, s, times) <==> err == 0
  {
    assert OffAt(a, s, times, err, i);
    if Accurate(a, s, times) { assert OffAt(a, s, times, 0, i); }
  }

  lemma TrueReport(r: State, f: int) returns (fb: Feedback)
    requires Ok(r) && IsFirst(r, f)
    ensures Report(r, f, r.last.value) == Some(fb) && 0 < |fb.symbols| <= 65535 && fb.symbols[|fb.symbols| - 1] != NONE
    ensures fb.base == r.window.value && fb.reference == r.arrivals[f] / 64000
    ensures Tells(r.arrivals, fb.base, fb.reference * 64000, fb.symbols, fb.deltas)
  {
    ReportTiles(r, f);
    fb := Report(r, f, r.last.value).value;
  }

  lemma Decodes(a: Arrivals, media: int, f: Feedback) returns (times: seq<Option<int>>)
    requires Tells(a, f.base, f.reference * 64000, f.symbols, f.deltas) && |f.symbols| <= 65535
    ensures Split(Build(media, f)) == [Packet(15, 205, Body(media, f))]
    ensures Parse(Body(media, f)) == Some((f.base % 65536, times)) && |times| == |f.symbols|
    ensures Off(a, f.base, times, Wrap(f.reference))
  {
    times := Times(f.symbols, f.deltas, f.reference * 64000 + Wrap(f.reference));
    ParseBack(a, media, f);
    SplitWhole(media, f);
    AllOff(a, f.base, f.reference * 64000, f.symbols, f.deltas, Wrap(f.reference));
  }

  lemma SplitWhole(media: int, f: Feedback)
    requires |f.symbols| <= 65535
    ensures Split(Build(media, f)) == [Packet(15, 205, Body(media, f))]
  {
    SplitBack(media, f, []);
    assert Build(media, f) + [] == Build(media, f);
  }

  /** A reader that starts later reads every time later by as much. */
  lemma {:induction false} TimesLater(syms: seq<Symbol>, ds: seq<int>, t: int, err: int, i: nat)
    requires i < |syms|
    ensures |Times(syms, ds, t)| == |syms| && |Times(syms, ds, t + err)| == |syms|
    ensures var (was, now) := (Times(syms, ds, t)[i], Times(syms, ds, t + err)[i]);
            (now.None? <==> was.None?) && (now.Some? ==> now.value == was.value + err)
    decreases |syms|
  {
    TimesLength(syms, ds, t);
    TimesLength(syms, ds, t + err);
    if i > 0 {
      if syms[0] != NONE && ds != [] {
        TimesLater(syms[1..], ds[1..], t + 250 * ds[0], err, i - 1);
        assert t + 250 * ds[0] + err == t + err + 250 * ds[0];
      } else {
        TimesLater(syms[1..], ds, t, err, i - 1);
      }
    }
  }

  lemma AllOff(a: Arrivals, s: int, t: int, syms: seq<Symbol>, ds: seq<int>, err: int)
    requires Tells(a, s, t, syms, ds)
    ensures |Times(syms, ds, t + err)| == |syms| && Off(a, s, Times(syms, ds, t + err), err)
  {
    TimesLength(syms, ds, t + err);
    var times := Times(syms, ds, t + err);
    forall i | 0 <= i < |times| ensures OffAt(a, s, times, err, i) {
      NoDrift(a, s, t, syms, ds, i);
      TimesLater(syms, ds, t, err, i);
    }
  }
}
