/** The hand-written binary encoding of mesh messages and its decoder.

    An encoder writes in front of a tail and a decoder reads from the front and
    returns what is left, so a decoder undoes its encoder whatever the tail is. */
module MeshWire {
  import opened Wrappers
  import opened MeshMsg

  // ---------------------------------------------------------------- text

  predicate Tail(b: Byte) { 0x80 <= b <= 0xBF }

  /** Width of the well-formed UTF-8 sequence at the front of s, 0 if there is none. */
  function Width(s: Bytes): (w: nat)
    ensures w <= |s|
  {
    if s == [] then 0
    else if s[0] < 0x80 then 1
    else if 0xC2 <= s[0] <= 0xDF then (if |s| >= 2 && Tail(s[1]) then 2 else 0)
    else if 0xE0 <= s[0] <= 0xEF then
      (if |s| >= 3 && Tail(s[1]) && Tail(s[2]) && (s[0] == 0xE0 ==> s[1] >= 0xA0) && (s[0] == 0xED ==> s[1] <= 0x9F)
       then 3 else 0)
    else if 0xF0 <= s[0] <= 0xF4 then
      (if |s| >= 4 && Tail(s[1]) && Tail(s[2]) && Tail(s[3]) && (s[0] == 0xF0 ==> s[1] >= 0x90) && (s[0] == 0xF4 ==> s[1] <= 0x8F)
       then 4 else 0)
    else 0
  }

  predicate Utf8(s: Bytes)
    decreases |s|
  {
    s == [] || (Width(s) > 0 && Utf8(s[Width(s)..]))
  }

  /** Text is carried as its bytes; Proper below says that they are UTF-8. */
  type Text = Bytes
  type M = Msg<Text>

  // ---------------------------------------------------------------- variable-length numbers

  /** Numbers that still fit when k groups of seven bits were read already. */
  function Limit(k: nat): nat
    requires k <= 9
    decreases 9 - k
  {
    if k == 9 then 2 else 128 * Limit(k + 1)
  }

  lemma {:induction false} LimitAtLeast(k: nat)
    requires k <= 9
    ensures Limit(k) >= if k == 9 then 2 else 128
    decreases 9 - k
  {
    if k < 9 { LimitAtLeast(k + 1); }
  }

  lemma LimitIsU64()
    ensures Limit(0) == 0x1_0000_0000_0000_0000
  {
    assert Limit(8) == 256;
    assert Limit(7) == 32768;
    assert Limit(6) == 4194304;
    assert Limit(5) == 536870912;
    assert Limit(4) == 68719476736;
    assert Limit(3) == 8796093022208;
    assert Limit(2) == 1125899906842624;
    assert Limit(1) == 144115188075855872;
  }

  function PutVar(v: nat, tail: Bytes): Bytes
    decreases v
  {
    if v < 128 then [v] + tail else [128 + v % 128] + PutVar(v / 128, tail)
  }

  /** The tenth group contributes a single bit. */
  function Group(b: Byte, k: nat): nat { if k == 9 then b % 2 else b % 128 }

  function VarFrom(s: Bytes, k: nat): (r: Option<(nat, Bytes)>)
    requires k <= 9
    ensures r.Some? ==> r.value.0 < Limit(k) && |r.value.1| < |s|
    decreases |s|
  {
    if s == [] then None
    else if s[0] < 128 then LimitAtLeast(k); Some((Group(s[0], k), s[1..]))
    else if k == 9 then None
    else
      var (v, rest) :- VarFrom(s[1..], k + 1);
      Some((Group(s[0], k) + 128 * v, rest))
  }

  function Var(s: Bytes): (r: Option<(U64, Bytes)>)
    ensures r.Some? ==> |r.value.1| < |s|
  {
    LimitIsU64();
    var (v, rest) :- VarFrom(s, 0);
    Some((v, rest))
  }

  lemma {:induction false} VarUndoesPut(v: nat, k: nat, tail: Bytes)
    requires k <= 9 && v < Limit(k)
    ensures VarFrom(PutVar(v, tail), k) == Some((v, tail))
    decreases 9 - k
  {
    if v < 128 {
      assert ([v] + tail)[1..] == tail;
    } else {
      VarUndoesPut(v / 128, k + 1, tail);
      var s := PutVar(v, tail);
      assert s[1..] == PutVar(v / 128, tail);
      assert s[0] % 128 == v % 128;
    }
  }

  lemma {:induction false} VarStable(s: Bytes, k: nat, x: Bytes)
    requires k <= 9 && VarFrom(s, k).Some?
    ensures VarFrom(s + x, k) == Some((VarFrom(s, k).value.0, VarFrom(s, k).value.1 + x))
    decreases 9 - k
  {
    assert (s + x)[1..] == s[1..] + x;
    if s[0] >= 128 { VarStable(s[1..], k + 1, x); }
  }

  /** The encoder as it runs: a loop that appends to a buffer. */
  method PutVarLoop(b: Bytes, v0: U64) returns (r: Bytes)
    ensures r == b + PutVar(v0, [])
  {
    r := b;
    var v := v0;
    while true
      invariant 0 <= v && r + PutVar(v, []) == b + PutVar(v0, [])
      decreases v
    {
      var byte := v % 128;
      if v / 128 == 0 {
        r := r + [byte];
        return;
      }
      r := r + [byte + 128];
      v := v / 128;
    }
  }

  /** What the decoder comes to, with v read so far and w the weight of the next group. */
  ghost function VarRest(s: Bytes, k: nat, v: nat, w: nat): Option<(nat, Bytes)>
    requires k <= 9
  {
    match VarFrom(s, k)
    case None => None
    case Some(p) => Some((v + w * p.0, p.1))
  }

  lemma VarRestNext(s: Bytes, k: nat, v: nat, w: nat)
    requires k < 9 && s != [] && s[0] >= 128
    ensures VarRest(s, k, v, w) == VarRest(s[1..], k + 1, v + w * Group(s[0], k), w * 128)
  {
    var tail := VarFrom(s[1..], k + 1);
    if tail.Some? { Distribute(v, w, Group(s[0], k), tail.value.0); }
  }

  lemma VarRestLast(s: Bytes, k: nat, v: nat, w: nat)
    requires k <= 9 && s != [] && s[0] < 128
    ensures VarRest(s, k, v, w) == Some((v + w * Group(s[0], k), s[1..]))
  {
  }

  lemma VarRestFirst(s: Bytes)
    ensures VarRest(s, 0, 0, 1) == VarFrom(s, 0)
  {
  }

  /** The decoder as it runs: groups are accumulated from the low end. */
  method VarLoop(s: Bytes) returns (r: Option<(nat, Bytes)>)
    ensures r == VarFrom(s, 0)
  {
    var v, k, rest, weight := 0, 0, s, 1;
    VarRestFirst(s);
    while k < 10
      invariant k <= 10 && 0 <= v && 0 <= weight
      invariant VarFrom(s, 0) == if k < 10 then VarRest(rest, k, v, weight) else None
    {
      if rest == [] { return None; }
      var g := Group(rest[0], k);
      if rest[0] < 128 {
        VarRestLast(rest, k, v, weight);
        return Some((v + weight * g, rest[1..]));
      }
      if k < 9 { VarRestNext(rest, k, v, weight); }
      v, rest, k, weight := v + weight * g, rest[1..], k + 1, weight * 128;
    }
    r := None;
  }

  lemma Distribute(v: nat, w: nat, g: nat, t: nat)
    ensures v + w * (g + 128 * t) == v + w * g + w * 128 * t
  {
  }

  // ---------------------------------------------------------------- bytes, text, lists

  /** A length is refused when fewer bytes than that are left. */
  function Len(s: Bytes): (r: Option<(nat, Bytes)>)
    ensures r.Some? ==> r.value.0 <= |r.value.1| < |s|
  {
    var (n, rest) :- Var(s);
    if n <= |rest| then Some((n, rest)) else None
  }

  function PutBytes(v: Bytes, tail: Bytes): Bytes { PutVar(|v|, v + tail) }

  function TakeBytes(s: Bytes): (r: Option<(Bytes, Bytes)>)
    ensures r.Some? ==> |r.value.1| < |s|
  {
    var (n, rest) :- Len(s);
    Some((rest[..n], rest[n..]))
  }

  function Str(s: Bytes): (r: Option<(Text, Bytes)>)
    ensures r.Some? ==> |r.value.1| < |s|
  {
    var (v, rest) :- TakeBytes(s);
    if Utf8(v) then Some((v, rest)) else None
  }

  function PutPair(p: Peer<Text>, tail: Bytes): Bytes { PutBytes(p.node, PutBytes(p.addr, tail)) }

  function Pair(s: Bytes): Option<(Peer<Text>, Bytes)> {
    var (k, rest) :- Str(s);
    var (v, rest2) :- Str(rest);
    Some((Peer(k, v), rest2))
  }

  function PutAll<T>(put: (T, Bytes) -> Bytes, l: seq<T>, tail: Bytes): Bytes {
    if l == [] then tail else put(l[0], PutAll(put, l[1..], tail))
  }

  function TakeAll<T>(take: Bytes -> Option<(T, Bytes)>, s: Bytes, n: nat): Option<(seq<T>, Bytes)>
    decreases n
  {
    if n == 0 then Some(([], s)) else
    var (x, rest) :- take(s);
    var (l, rest2) :- TakeAll(take, rest, n - 1);
    Some(([x] + l, rest2))
  }

  /** A list is its length and its elements. */
  function PutList<T>(put: (T, Bytes) -> Bytes, l: seq<T>, tail: Bytes): Bytes { PutVar(|l|, PutAll(put, l, tail)) }

  function TakeList<T>(take: Bytes -> Option<(T, Bytes)>, s: Bytes): Option<(seq<T>, Bytes)> {
    var (n, rest) :- Len(s);
    TakeAll(take, rest, n)
  }

  /** What fits in memory: every length is a machine word. */
  predicate Fits(n: nat) { n < 0x1_0000_0000_0000_0000 }

  predicate IsText(s: Bytes) { Utf8(s) && Fits(|s|) }

  lemma VarBack(v: nat, tail: Bytes)
    requires Fits(v)
    ensures Var(PutVar(v, tail)) == Some((v, tail))
  {
    LimitIsU64();
    VarUndoesPut(v, 0, tail);
  }

  lemma BytesBack(v: Bytes, tail: Bytes)
    requires Fits(|v|)
    ensures TakeBytes(PutBytes(v, tail)) == Some((v, tail))
  {
    VarBack(|v|, v + tail);
    assert (v + tail)[..|v|] == v && (v + tail)[|v|..] == tail;
  }

  lemma StrBack(v: Text, tail: Bytes)
    requires IsText(v)
    ensures Str(PutBytes(v, tail)) == Some((v, tail))
  {
    BytesBack(v, tail);
  }

  lemma {:induction false} PutVarLonger(v: nat, tail: Bytes)
    ensures |PutVar(v, tail)| > |tail|
    decreases v
  {
    if v >= 128 { PutVarLonger(v / 128, tail); }
  }

  lemma PutBytesLonger(v: Bytes, tail: Bytes)
    ensures |PutBytes(v, tail)| > |tail|
  {
    PutVarLonger(|v|, v + tail);
  }

  lemma {:induction false} AllBack<T>(put: (T, Bytes) -> Bytes, take: Bytes -> Option<(T, Bytes)>, l: seq<T>, tail: Bytes)
    requires forall x, t :: x in l ==> take(put(x, t)) == Some((x, t)) && |put(x, t)| > |t|
    ensures TakeAll(take, PutAll(put, l, tail), |l|) == Some((l, tail))
    ensures |PutAll(put, l, tail)| >= |l| + |tail|
  {
    if l != [] {
      AllBack(put, take, l[1..], tail);
      assert l == [l[0]] + l[1..];
    }
  }

  lemma ListBack<T>(put: (T, Bytes) -> Bytes, take: Bytes -> Option<(T, Bytes)>, l: seq<T>, tail: Bytes)
    requires Fits(|l|)
    requires forall x, t :: x in l ==> take(put(x, t)) == Some((x, t)) && |put(x, t)| > |t|
    ensures TakeList(take, PutList(put, l, tail)) == Some((l, tail))
  {
    VarBack(|l|, PutAll(put, l, tail));
    AllBack(put, take, l, tail);
  }

  lemma StrsBack(l: seq<Text>, tail: Bytes)
    requires Fits(|l|) && forall x :: x in l ==> IsText(x)
    ensures TakeList(Str, PutList(PutBytes, l, tail)) == Some((l, tail))
  {
    forall x, t | x in l ensures Str(PutBytes(x, t)) == Some((x, t)) && |PutBytes(x, t)| > |t| {
      StrBack(x, t);
      PutBytesLonger(x, t);
    }
    ListBack(PutBytes, Str, l, tail);
  }

  ghost predicate PairsFit(l: seq<Peer<Text>>) { forall x :: x in l ==> IsText(x.node) && IsText(x.addr) }

  lemma PairBack(p: Peer<Text>, tail: Bytes)
    requires IsText(p.node) && IsText(p.addr)
    ensures Pair(PutPair(p, tail)) == Some((p, tail)) && |PutPair(p, tail)| > |tail|
  {
    StrBack(p.addr, tail);
    StrBack(p.node, PutBytes(p.addr, tail));
    PutBytesLonger(p.addr, tail);
    PutBytesLonger(p.node, PutBytes(p.addr, tail));
  }

  lemma PairsBack(l: seq<Peer<Text>>, tail: Bytes)
    requires Fits(|l|) && PairsFit(l)
    ensures TakeList(Pair, PutList(PutPair, l, tail)) == Some((l, tail))
  {
    forall x, t | x in l ensures Pair(PutPair(x, t)) == Some((x, t)) && |PutPair(x, t)| > |t| {
      PairBack(x, t);
    }
    ListBack(PutPair, Pair, l, tail);
  }

  // ---------------------------------------------------------------- messages

  function RoleCode(r: Role): Byte { match r case Router => 0 case Client => 1 }

  function KindCode(k: DeclKind): Byte { match k case Token => 0 case Sub => 1 case Qabl => 2 }

  function EvtCode(k: TokenEvtKind): Byte { match k case Put => 0 case Delete => 1 case BatchEnd => 2 }

  function ReasonCode(r: CloseReason): Byte {
    match r
    case Shutdown => 0
    case Expired => 1
    case Fenced => 2
    case Replaced => 3
    case Refused => 4
    case Duplicate => 5
    case Protocol => 6
    case Io => 7
  }

  function Flag(b: bool): Byte { if b then 1 else 0 }

  function Fields(h: Hello<Text>): Bytes {
    PutBytes(h.node, PutVar(h.boot, PutVar(h.sno, PutVar(h.leaseMs,
             PutList(PutBytes, h.listen, PutList(PutPair, h.peers, []))))))
  }

  function Tag(m: M): Byte {
    match m
    case Greet(_) => 0
    case Close(_) => 1
    case KeepAlive => 2
    case DeclareIt(_, _, _) => 3
    case Undeclare(_, _) => 4
    case DeclareDone => 5
    case TokenSub(_, _, _) => 6
    case TokenUnsub(_) => 7
    case TokenEvt(_, _, _) => 8
    case Peers(_) => 9
    case PutIt(_, _) => 10
    case Ask(_, _, _, _) => 11
    case Reply(_, _, _, _) => 12
    case Final(_) => 13
  }

  function Payload(m: M): Bytes {
    match m
    case Greet(h) => [h.proto, RoleCode(h.role)] + Fields(h)
    case Close(r) => [ReasonCode(r)]
    case KeepAlive => []
    case DeclareIt(kind, id, expr) => [KindCode(kind)] + PutVar(id, PutBytes(expr, []))
    case Undeclare(kind, id) => [KindCode(kind)] + PutVar(id, [])
    case DeclareDone => []
    case TokenSub(id, expr, history) => PutVar(id, PutBytes(expr, [Flag(history)]))
    case TokenUnsub(id) => PutVar(id, [])
    case TokenEvt(id, evt, key) => PutVar(id, [EvtCode(evt)] + PutBytes(key, []))
    case Peers(p) => PutList(PutPair, p, [])
    case PutIt(key, payload) => PutBytes(key, PutBytes(payload, []))
    case Ask(qid, expr, payload, t) => PutVar(qid, PutBytes(expr, PutBytes(payload, PutVar(t, []))))
    case Reply(qid, key, ok, payload) => PutVar(qid, PutBytes(key, [Flag(ok)] + PutBytes(payload, [])))
    case Final(qid) => PutVar(qid, [])
  }

  function Encode(m: M): Bytes { [Tag(m)] + Payload(m) }

  function U8(s: Bytes): Option<(Byte, Bytes)> { if s == [] then None else Some((s[0], s[1..])) }

  function Small(s: Bytes): Option<(U32, Bytes)> {
    var (n, rest) :- Var(s);
    if n < 0x1_0000_0000 then Some((n, rest)) else None
  }

  function Kind(s: Bytes): Option<(DeclKind, Bytes)> {
    var (c, rest) :- U8(s);
    if c == 0 then Some((DeclKind.Token, rest)) else if c == 1 then Some((DeclKind.Sub, rest))
    else if c == 2 then Some((DeclKind.Qabl, rest)) else None
  }

  function Evt(s: Bytes): Option<(TokenEvtKind, Bytes)> {
    var (c, rest) :- U8(s);
    if c == 0 then Some((TokenEvtKind.Put, rest)) else if c == 1 then Some((TokenEvtKind.Delete, rest))
    else if c == 2 then Some((TokenEvtKind.BatchEnd, rest)) else None
  }

  function RoleOf(s: Bytes): Option<(Role, Bytes)> {
    var (c, rest) :- U8(s);
    if c == 0 then Some((Role.Router, rest)) else if c == 1 then Some((Role.Client, rest)) else None
  }

  /** Unknown codes all mean an I/O failure. */
  function ReasonOf(c: Byte): CloseReason {
    if c == 0 then Shutdown else if c == 1 then Expired else if c == 2 then Fenced else if c == 3 then Replaced
    else if c == 4 then Refused else if c == 5 then Duplicate else if c == 6 then Protocol else Io
  }

  function Ident(s: Bytes): Option<((Text, U64, U64), Bytes)> {
    var (node, s1) :- Str(s);
    var (boot, s2) :- Var(s1);
    var (sno, s3) :- Var(s2);
    Some(((node, boot, sno), s3))
  }

  function HelloRest(proto: Byte, role: Role, s: Bytes): Option<(M, Bytes)> {
    var (id, s1) :- Ident(s);
    var (lease, s2) :- Small(s1);
    var (listen, s3) :- TakeList(Str, s2);
    var (peers, s4) :- TakeList(Pair, s3);
    Some((Greet(Hello(proto, role, id.0, id.1, id.2, lease, listen, peers)), s4))
  }

  function HelloBody(s: Bytes): Option<(M, Bytes)> {
    var (proto, s1) :- U8(s);
    var (role, s2) :- RoleOf(s1);
    HelloRest(proto, role, s2)
  }

  function CloseBody(s: Bytes): Option<(M, Bytes)> { var (c, r) :- U8(s); Some((Close(ReasonOf(c)), r)) }

  function DeclareBody(s: Bytes): Option<(M, Bytes)> {
    var (kind, s1) :- Kind(s);
    var (id, s2) :- Var(s1);
    var (expr, s3) :- Str(s2);
    Some((DeclareIt(kind, id, expr), s3))
  }

  function UndeclareBody(s: Bytes): Option<(M, Bytes)> {
    var (kind, s1) :- Kind(s);
    var (id, s2) :- Var(s1);
    Some((Undeclare(kind, id), s2))
  }

  function TokenSubBody(s: Bytes): Option<(M, Bytes)> {
    var (id, s1) :- Var(s);
    var (expr, s2) :- Str(s1);
    var (h, s3) :- U8(s2);
    Some((TokenSub(id, expr, h != 0), s3))
  }

  function TokenUnsubBody(s: Bytes): Option<(M, Bytes)> { var (id, r) :- Var(s); Some((TokenUnsub(id), r)) }

  function TokenEvtBody(s: Bytes): Option<(M, Bytes)> {
    var (id, s1) :- Var(s);
    var (evt, s2) :- Evt(s1);
    var (key, s3) :- Str(s2);
    Some((TokenEvt(id, evt, key), s3))
  }

  function PeersBody(s: Bytes): Option<(M, Bytes)> { var (p, r) :- TakeList(Pair, s); Some((Peers(p), r)) }

  function PutBody(s: Bytes): Option<(M, Bytes)> {
    var (key, s1) :- Str(s);
    var (payload, s2) :- TakeBytes(s1);
    Some((PutIt(key, payload), s2))
  }

  function AskBody(s: Bytes): Option<(M, Bytes)> {
    var (qid, s1) :- Var(s);
    var (expr, s2) :- Str(s1);
    var (payload, s3) :- TakeBytes(s2);
    var (t, s4) :- Small(s3);
    Some((Ask(qid, expr, payload, t), s4))
  }

  function ReplyBody(s: Bytes): Option<(M, Bytes)> {
    var (qid, s1) :- Var(s);
    var (key, s2) :- Str(s1);
    var (ok, s3) :- U8(s2);
    var (payload, s4) :- TakeBytes(s3);
    Some((Reply(qid, key, ok != 0, payload), s4))
  }

  function FinalBody(s: Bytes): Option<(M, Bytes)> { var (qid, r) :- Var(s); Some((Final(qid), r)) }

  function Body(tag: Byte, s: Bytes): Option<(M, Bytes)> {
    match tag
    case 0 => HelloBody(s)
    case 1 => CloseBody(s)
    case 2 => Some((KeepAlive, s))
    case 3 => DeclareBody(s)
    case 4 => UndeclareBody(s)
    case 5 => Some((DeclareDone, s))
    case 6 => TokenSubBody(s)
    case 7 => TokenUnsubBody(s)
    case 8 => TokenEvtBody(s)
    case 9 => PeersBody(s)
    case 10 => PutBody(s)
    case 11 => AskBody(s)
    case 12 => ReplyBody(s)
    case 13 => FinalBody(s)
    case _ => None
  }

  function Parse(s: Bytes): Option<(M, Bytes)> { if s == [] then None else Body(s[0], s[1..]) }

  /** A message is decoded only if nothing is left over. */
  function Decode(s: Bytes): Option<M> {
    var (m, rest) :- Parse(s);
    if rest == [] then Some(m) else None
  }

  /** What every message in memory is: its texts are UTF-8 and its lengths machine words. */
  ghost predicate Proper(m: M) {
    match m
    case Greet(h) => IsText(h.node) && Fits(|h.listen|) && Fits(|h.peers|) && PairsFit(h.peers)
                     && forall x :: x in h.listen ==> IsText(x)
    case DeclareIt(_, _, expr) => IsText(expr)
    case TokenSub(_, expr, _) => IsText(expr)
    case TokenEvt(_, _, key) => IsText(key)
    case Peers(p) => Fits(|p|) && PairsFit(p)
    case PutIt(key, payload) => IsText(key) && Fits(|payload|)
    case Ask(_, expr, payload, _) => IsText(expr) && Fits(|payload|)
    case Reply(_, key, _, payload) => IsText(key) && Fits(|payload|)
    case _ => true
  }

  lemma IdentBack(node: Text, boot: U64, sno: U64, tail: Bytes)
    requires IsText(node)
    ensures Ident(PutBytes(node, PutVar(boot, PutVar(sno, tail)))) == Some(((node, boot, sno), tail))
  {
    StrBack(node, PutVar(boot, PutVar(sno, tail)));
    VarBack(boot, PutVar(sno, tail));
    VarBack(sno, tail);
  }

  lemma HelloRestBack(h: Hello<Text>)
    requires Proper(Greet(h))
    ensures HelloRest(h.proto, h.role, Fields(h)) == Some((Greet(h), []))
  {
    var t2 := PutList(PutPair, h.peers, []);
    var t1 := PutList(PutBytes, h.listen, t2);
    IdentBack(h.node, h.boot, h.sno, PutVar(h.leaseMs, t1));
    VarBack(h.leaseMs, t1);
    StrsBack(h.listen, t2);
    PairsBack(h.peers, []);
  }

  lemma HelloHead(proto: Byte, role: Role, f: Bytes)
    ensures U8([proto, RoleCode(role)] + f) == Some((proto, [RoleCode(role)] + f))
    ensures RoleOf([RoleCode(role)] + f) == Some((role, f))
  {
    assert ([proto, RoleCode(role)] + f)[1..] == [RoleCode(role)] + f;
    assert ([RoleCode(role)] + f)[1..] == f;
  }

  lemma HelloBack(h: Hello<Text>)
    requires Proper(Greet(h))
    ensures HelloBody([h.proto, RoleCode(h.role)] + Fields(h)) == Some((Greet(h), []))
  {
    HelloHead(h.proto, h.role, Fields(h));
    HelloRestBack(h);
  }

  lemma CloseBack(r: CloseReason)
    ensures CloseBody([ReasonCode(r)]) == Some((Close(r), []))
  {
    assert [ReasonCode(r)][1..] == [];
  }

  lemma DeclareBack(kind: DeclKind, id: U64, expr: Text)
    requires IsText(expr)
    ensures DeclareBody([KindCode(kind)] + PutVar(id, PutBytes(expr, []))) == Some((DeclareIt(kind, id, expr), []))
  {
    var t := PutVar(id, PutBytes(expr, []));
    VarBack(id, PutBytes(expr, []));
    StrBack(expr, []);
    assert ([KindCode(kind)] + t)[1..] == t;
  }

  lemma UndeclareBack(kind: DeclKind, id: U64)
    ensures UndeclareBody([KindCode(kind)] + PutVar(id, [])) == Some((Undeclare(kind, id), []))
  {
    VarBack(id, []);
    assert ([KindCode(kind)] + PutVar(id, []))[1..] == PutVar(id, []);
  }

  lemma TokenSubBack(id: U64, expr: Text, history: bool)
    requires IsText(expr)
    ensures TokenSubBody(PutVar(id, PutBytes(expr, [Flag(history)]))) == Some((TokenSub(id, expr, history), []))
  {
    var t := [Flag(history)];
    VarBack(id, PutBytes(expr, t));
    StrBack(expr, t);
    assert t[1..] == [];
  }

  lemma TokenEvtBack(id: U64, evt: TokenEvtKind, key: Text)
    requires IsText(key)
    ensures TokenEvtBody(PutVar(id, [EvtCode(evt)] + PutBytes(key, []))) == Some((TokenEvt(id, evt, key), []))
  {
    var t := [EvtCode(evt)] + PutBytes(key, []);
    VarBack(id, t);
    StrBack(key, []);
    assert t[1..] == PutBytes(key, []);
  }

  lemma PutBack(key: Text, payload: Bytes)
    requires IsText(key) && Fits(|payload|)
    ensures PutBody(PutBytes(key, PutBytes(payload, []))) == Some((PutIt(key, payload), []))
  {
    StrBack(key, PutBytes(payload, []));
    BytesBack(payload, []);
  }

  lemma AskBack(qid: U64, expr: Text, payload: Bytes, t: U32)
    requires IsText(expr) && Fits(|payload|)
    ensures AskBody(PutVar(qid, PutBytes(expr, PutBytes(payload, PutVar(t, []))))) == Some((Ask(qid, expr, payload, t), []))
  {
    var t2 := PutBytes(payload, PutVar(t, []));
    VarBack(qid, PutBytes(expr, t2));
    StrBack(expr, t2);
    BytesBack(payload, PutVar(t, []));
    VarBack(t, []);
  }

  lemma ReplyBack(qid: U64, key: Text, ok: bool, payload: Bytes)
    requires IsText(key) && Fits(|payload|)
    ensures ReplyBody(PutVar(qid, PutBytes(key, [Flag(ok)] + PutBytes(payload, [])))) == Some((Reply(qid, key, ok, payload), []))
  {
    var t2 := [Flag(ok)] + PutBytes(payload, []);
    VarBack(qid, PutBytes(key, t2));
    StrBack(key, t2);
    BytesBack(payload, []);
    assert t2[1..] == PutBytes(payload, []);
  }

  lemma ParseCons(tag: Byte, s: Bytes)
    ensures Parse([tag] + s) == Body(tag, s)
  {
    assert ([tag] + s)[1..] == s;
  }

  // The parsers of these four are read back on the whole payload first and found by their tag after that.

  lemma PeersPayload(m: M)
    requires Proper(m) && m.Peers?
    ensures PeersBody(Payload(m)) == Some((m, []))
  {
    PairsBack(m.peers, []);
  }

  lemma PeersTagged(s: Bytes, m: M)
    requires PeersBody(s) == Some((m, []))
    ensures Body(9, s) == Some((m, []))
  {
  }

  lemma PeersMsgBack(m: M)
    requires Proper(m) && m.Peers?
    ensures Body(Tag(m), Payload(m)) == Some((m, []))
  {
    PeersPayload(m);
    PeersTagged(Payload(m), m);
  }

  lemma PutPayload(m: M)
    requires Proper(m) && m.PutIt?
    ensures PutBody(Payload(m)) == Some((m, []))
  {
    PutBack(m.key, m.payload);
  }

  lemma PutTagged(s: Bytes, m: M)
    requires PutBody(s) == Some((m, []))
    ensures Body(10, s) == Some((m, []))
  {
  }

  lemma PutMsgBack(m: M)
    requires Proper(m) && m.PutIt?
    ensures Body(Tag(m), Payload(m)) == Some((m, []))
  {
    PutPayload(m);
    PutTagged(Payload(m), m);
  }

  lemma AskPayload(m: M)
    requires Proper(m) && m.Ask?
    ensures AskBody(Payload(m)) == Some((m, []))
  {
    AskBack(m.qid, m.expr, m.payload, m.timeoutMs);
  }

  lemma AskTagged(s: Bytes, m: M)
    requires AskBody(s) == Some((m, []))
    ensures Body(11, s) == Some((m, []))
  {
  }

  lemma AskMsgBack(m: M)
    requires Proper(m) && m.Ask?
    ensures Body(Tag(m), Payload(m)) == Some((m, []))
  {
    AskPayload(m);
    AskTagged(Payload(m), m);
  }

  lemma ReplyPayload(m: M)
    requires Proper(m) && m.Reply?
    ensures ReplyBody(Payload(m)) == Some((m, []))
  {
    ReplyBack(m.qid, m.key, m.ok, m.payload);
  }

  lemma ReplyTagged(s: Bytes, m: M)
    requires ReplyBody(s) == Some((m, []))
    ensures Body(12, s) == Some((m, []))
  {
  }

  lemma ReplyMsgBack(m: M)
    requires Proper(m) && m.Reply?
    ensures Body(Tag(m), Payload(m)) == Some((m, []))
  {
    ReplyPayload(m);
    ReplyTagged(Payload(m), m);
  }

  lemma SetupBack(m: M)
    requires Proper(m) && (m.Greet? || m.Close? || m.DeclareIt? || m.Undeclare? || m.TokenSub? || m.TokenEvt?)
    ensures Body(Tag(m), Payload(m)) == Some((m, []))
  {
    match m
    case Greet(h) => HelloBack(h);
    case Close(r) => CloseBack(r);
    case DeclareIt(kind, id, expr) => DeclareBack(kind, id, expr);
    case Undeclare(kind, id) => UndeclareBack(kind, id);
    case TokenSub(id, expr, history) => TokenSubBack(id, expr, history);
    case TokenEvt(id, evt, key) => TokenEvtBack(id, evt, key);
  }

  /** Messages that are an id and nothing else. */
  lemma IdBack(m: M)
    requires m.TokenUnsub? || m.Final?
    ensures Body(Tag(m), Payload(m)) == Some((m, []))
  {
    match m
    case TokenUnsub(id) => VarBack(id, []);
    case Final(qid) => VarBack(qid, []);
  }

  lemma BodyBack(m: M)
    requires Proper(m)
    ensures Body(Tag(m), Payload(m)) == Some((m, []))
  {
    match m
    case KeepAlive =>
    case DeclareDone =>
    case TokenUnsub(_) => IdBack(m);
    case Final(_) => IdBack(m);
    case Peers(_) => PeersMsgBack(m);
    case PutIt(_, _) => PutMsgBack(m);
    case Ask(_, _, _, _) => AskMsgBack(m);
    case Reply(_, _, _, _) => ReplyMsgBack(m);
    case _ => SetupBack(m);
  }

  lemma ParseBack(m: M)
    requires Proper(m)
    ensures Parse(Encode(m)) == Some((m, []))
  {
    BodyBack(m);
    ParseCons(Tag(m), Payload(m));
  }

  /** Decoding undoes encoding, for every message. */
  lemma DecodeEncode(m: M)
    requires Proper(m)
    ensures Decode(Encode(m)) == Some(m)
  {
    ParseBack(m);
  }

  // ---------------------------------------------------------------- prefix freedom

  /** The result of a decoder with x left over in addition. */
  function More<T>(r: Option<(T, Bytes)>, x: Bytes): Option<(T, Bytes)> {
    match r
    case None => None
    case Some(p) => Some((p.0, p.1 + x))
  }

  lemma U8Stable(s: Bytes, x: Bytes)
    requires s != []
    ensures U8(s + x) == More(U8(s), x)
  {
    assert (s + x)[1..] == s[1..] + x;
  }

  lemma LenStable(s: Bytes, x: Bytes)
    requires Len(s).Some?
    ensures Var(s + x) == More(Var(s), x) && Len(s + x) == More(Len(s), x)
  {
    VarStable(s, 0, x);
  }

  lemma BytesStable(s: Bytes, x: Bytes)
    requires TakeBytes(s).Some?
    ensures TakeBytes(s + x) == More(TakeBytes(s), x)
  {
    LenStable(s, x);
    var (n, rest) := Len(s).value;
    assert (rest + x)[..n] == rest[..n] && (rest + x)[n..] == rest[n..] + x;
  }

  ghost predicate Steady<T(!new)>(take: Bytes -> Option<(T, Bytes)>, x: Bytes) {
    forall s :: SteadyAt(take, s, x)
  }

  ghost predicate SteadyAt<T(!new)>(take: Bytes -> Option<(T, Bytes)>, s: Bytes, x: Bytes) {
    take(s).Some? ==> take(s + x) == More(take(s), x)
  }

  lemma AllNext<T(!new)>(take: Bytes -> Option<(T, Bytes)>, s: Bytes, n: nat, x: Bytes, first: T, rest: Bytes)
    requires n > 0 && take(s) == Some((first, rest)) && take(s + x) == Some((first, rest + x))
    requires TakeAll(take, rest, n - 1).Some? && TakeAll(take, rest + x, n - 1) == More(TakeAll(take, rest, n - 1), x)
    ensures TakeAll(take, s + x, n) == More(TakeAll(take, s, n), x)
  {
  }

  lemma {:induction false} AllStable<T(!new)>(take: Bytes -> Option<(T, Bytes)>, s: Bytes, n: nat, x: Bytes)
    requires Steady(take, x) && TakeAll(take, s, n).Some?
    ensures TakeAll(take, s + x, n) == More(TakeAll(take, s, n), x)
    decreases n
  {
    if n > 0 {
      var (first, rest) := take(s).value;
      assert SteadyAt(take, s, x);
      AllStable(take, rest, n - 1, x);
      AllNext(take, s, n, x, first, rest);
    }
  }

  lemma ListStable<T(!new)>(take: Bytes -> Option<(T, Bytes)>, s: Bytes, x: Bytes)
    requires Steady(take, x) && TakeList(take, s).Some?
    ensures TakeList(take, s + x) == More(TakeList(take, s), x)
  {
    LenStable(s, x);
    AllStable(take, Len(s).value.1, Len(s).value.0, x);
  }

  lemma StrStable(s: Bytes, x: Bytes)
    requires Str(s).Some?
    ensures Str(s + x) == More(Str(s), x)
  {
    BytesStable(s, x);
  }

  lemma SmallStable(s: Bytes, x: Bytes)
    requires Var(s).Some?
    ensures Var(s + x) == More(Var(s), x) && (Small(s).Some? ==> Small(s + x) == More(Small(s), x))
  {
    VarStable(s, 0, x);
  }

  lemma IdentStable(s: Bytes, x: Bytes)
    requires Ident(s).Some?
    ensures Ident(s + x) == More(Ident(s), x)
  {
    StrStable(s, x);
    var s1 := Str(s).value.1;
    SmallStable(s1, x);
    SmallStable(Var(s1).value.1, x);
  }

  lemma StrsStable(s: Bytes, x: Bytes)
    requires TakeList(Str, s).Some?
    ensures TakeList(Str, s + x) == More(TakeList(Str, s), x)
  {
    forall t ensures SteadyAt(Str, t, x) { if Str(t).Some? { StrStable(t, x); } }
    ListStable(Str, s, x);
  }

  lemma PairStable(s: Bytes, x: Bytes)
    requires Pair(s).Some?
    ensures Pair(s + x) == More(Pair(s), x)
  {
    StrStable(s, x);
    StrStable(Str(s).value.1, x);
  }

  lemma PairsStable(s: Bytes, x: Bytes)
    requires TakeList(Pair, s).Some?
    ensures TakeList(Pair, s + x) == More(TakeList(Pair, s), x)
  {
    forall t ensures SteadyAt(Pair, t, x) { if Pair(t).Some? { PairStable(t, x); } }
    ListStable(Pair, s, x);
  }

  lemma HelloRestStable(proto: Byte, role: Role, s: Bytes, x: Bytes)
    requires HelloRest(proto, role, s).Some?
    ensures HelloRest(proto, role, s + x) == More(HelloRest(proto, role, s), x)
  {
    IdentStable(s, x);
    var s1 := Ident(s).value.1;
    SmallStable(s1, x);
    var s2 := Small(s1).value.1;
    StrsStable(s2, x);
    PairsStable(TakeList(Str, s2).value.1, x);
  }

  lemma HelloStable(s: Bytes, x: Bytes)
    requires HelloBody(s).Some?
    ensures HelloBody(s + x) == More(HelloBody(s), x)
  {
    U8Stable(s, x);
    var (proto, s1) := U8(s).value;
    U8Stable(s1, x);
    var (role, s2) := RoleOf(s1).value;
    HelloRestStable(proto, role, s2, x);
  }

  lemma DeclareStable(s: Bytes, x: Bytes)
    requires DeclareBody(s).Some?
    ensures DeclareBody(s + x) == More(DeclareBody(s), x)
  {
    U8Stable(s, x);
    var s1 := Kind(s).value.1;
    SmallStable(s1, x);
    StrStable(Var(s1).value.1, x);
  }

  lemma UndeclareStable(s: Bytes, x: Bytes)
    requires UndeclareBody(s).Some?
    ensures UndeclareBody(s + x) == More(UndeclareBody(s), x)
  {
    U8Stable(s, x);
    SmallStable(Kind(s).value.1, x);
  }

  lemma TokenSubStable(s: Bytes, x: Bytes)
    requires TokenSubBody(s).Some?
    ensures TokenSubBody(s + x) == More(TokenSubBody(s), x)
  {
    SmallStable(s, x);
    var s1 := Var(s).value.1;
    StrStable(s1, x);
    U8Stable(Str(s1).value.1, x);
  }

  lemma TokenEvtStable(s: Bytes, x: Bytes)
    requires TokenEvtBody(s).Some?
    ensures TokenEvtBody(s + x) == More(TokenEvtBody(s), x)
  {
    SmallStable(s, x);
    var s1 := Var(s).value.1;
    U8Stable(s1, x);
    StrStable(Evt(s1).value.1, x);
  }

  lemma PutStable(s: Bytes, x: Bytes)
    requires PutBody(s).Some?
    ensures PutBody(s + x) == More(PutBody(s), x)
  {
    StrStable(s, x);
    BytesStable(Str(s).value.1, x);
  }

  lemma AskStable(s: Bytes, x: Bytes)
    requires AskBody(s).Some?
    ensures AskBody(s + x) == More(AskBody(s), x)
  {
    SmallStable(s, x);
    var s1 := Var(s).value.1;
    StrStable(s1, x);
    var s2 := Str(s1).value.1;
    BytesStable(s2, x);
    SmallStable(TakeBytes(s2).value.1, x);
  }

  lemma ReplyStable(s: Bytes, x: Bytes)
    requires ReplyBody(s).Some?
    ensures ReplyBody(s + x) == More(ReplyBody(s), x)
  {
    SmallStable(s, x);
    var s1 := Var(s).value.1;
    StrStable(s1, x);
    var s2 := Str(s1).value.1;
    U8Stable(s2, x);
    BytesStable(U8(s2).value.1, x);
  }

  lemma BodyStable(tag: Byte, s: Bytes, x: Bytes)
    requires Body(tag, s).Some?
    ensures Body(tag, s + x) == More(Body(tag, s), x)
  {
    match tag
    case 0 => HelloStable(s, x);
    case 1 => U8Stable(s, x);
    case 2 =>
    case 3 => DeclareStable(s, x);
    case 4 => UndeclareStable(s, x);
    case 5 =>
    case 6 => TokenSubStable(s, x);
    case 7 => SmallStable(s, x);
    case 8 => TokenEvtStable(s, x);
    case 9 => PairsStable(s, x);
    case 10 => PutStable(s, x);
    case 11 => AskStable(s, x);
    case 12 => ReplyStable(s, x);
    case 13 => SmallStable(s, x);
  }

  lemma ParseStable(s: Bytes, x: Bytes)
    requires Parse(s).Some?
    ensures Parse(s + x) == More(Parse(s), x)
  {
    assert (s + x)[1..] == s[1..] + x;
    BodyStable(s[0], s[1..], x);
  }

  /** No strict extension and no strict prefix of an encoding decodes. */
  lemma PrefixFree(m: M, x: Bytes, n: nat)
    requires Proper(m) && x != [] && n < |Encode(m)|
    ensures Decode(Encode(m) + x) == None && Decode(Encode(m)[..n]) == None
  {
    var e := Encode(m);
    ParseBack(m);
    ParseStable(e, x);
    assert [] + x == x;
    var (head, last) := (e[..n], e[n..]);
    assert head + last == e && last != [];
    if Parse(head).Some? { ParseStable(head, last); }
  }
}
