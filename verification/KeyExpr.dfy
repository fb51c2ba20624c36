/** Key expressions: '/'-separated chunks, '*' for one chunk and '**' for any number.
    The scanning functions are tied to what the expressions mean. */
module KeyExpr {

  predicate Forbidden(c: char) { c == '$' || c == '?' || c == '#' }

  predicate Has(s: string, c: char) { c in s }

  /** Index of the first '/', or the length. */
  function Slash(s: string): (i: nat)
    ensures i <= |s| && (i < |s| ==> s[i] == '/') && forall k :: 0 <= k < i ==> s[k] != '/'
  {
    if s == "" || s[0] == '/' then 0 else 1 + Slash(s[1..])
  }

  function Head(s: string): string { s[..Slash(s)] }

  function Rest(s: string): string { if Slash(s) < |s| then s[Slash(s) + 1..] else "" }

  predicate ChunkOk(c: string) {
    && c != "" && !Has(c, '/') && (forall x :: x in c ==> !Forbidden(x))
    && (Has(c, '*') ==> c == "*" || c == "**")
  }

  /** A well-formed expression, or what is left of one after some chunks: no empty chunk,
      no wildcard inside a chunk, no two double wildcards in a row. */
  predicate Good(s: string)
    decreases |s|
  {
    s == "" || (
      && ChunkOk(Head(s))
      && (Slash(s) < |s| ==> Rest(s) != "")
      && !(Head(s) == "**" && Rest(s) != "" && Head(Rest(s)) == "**")
      && Good(Rest(s)))
  }

  predicate Concrete(s: string) { !Has(s, '*') }

  function Chunks(s: string): seq<string>
    decreases |s|
  {
    if s == "" then [] else [Head(s)] + Chunks(Rest(s))
  }

  // ---------------------------------------------------------------- meaning

  /** The chunk list k is named by the chunk list e. */
  predicate Matches(e: seq<string>, k: seq<string>)
    decreases |e| + |k|
  {
    if e == [] then k == []
    else if e[0] == "**" then Matches(e[1..], k) || (k != [] && Matches(e, k[1..]))
    else k != [] && (e[0] == "*" || e[0] == k[0]) && Matches(e[1..], k[1..])
  }

  ghost predicate IsKey(k: seq<string>) { forall c :: c in k ==> ChunkOk(c) && !Has(c, '*') }

  /** Some key, possibly the empty one, is named by both. */
  ghost predicate Meets(a: seq<string>, b: seq<string>) {
    exists k :: IsKey(k) && Matches(a, k) && Matches(b, k)
  }

  /** Every key named by r is named by l. */
  ghost predicate Covers(l: seq<string>, r: seq<string>) {
    forall k :: IsKey(k) && Matches(r, k) ==> Matches(l, k)
  }

  /** `Good` on chunk lists. */
  predicate GoodChunks(e: seq<string>) {
    e == [] || (ChunkOk(e[0]) && !(e[0] == "**" && |e| > 1 && e[1] == "**") && GoodChunks(e[1..]))
  }

  lemma {:induction false} GoodMeansGoodChunks(s: string)
    requires Good(s)
    ensures GoodChunks(Chunks(s)) && (s == "" <==> Chunks(s) == [])
    ensures s == "**" <==> Chunks(s) == ["**"]
    decreases |s|
  {
    if s != "" {
      GoodMeansGoodChunks(Rest(s));
      var e := Chunks(s);
      assert e[1..] == Chunks(Rest(s));
      if Rest(s) != "" { assert e[1] == Head(Rest(s)); }
      if Rest(s) == "" { assert Head(s) == s; }
      if s == "**" { assert Slash(s) == 2; }
    }
  }

  /** A concrete chunk that a chunk pattern names. */
  function Instance(c: string): string { if Has(c, '*') then "x" else c }

  lemma InstanceOk(c: string)
    requires ChunkOk(c)
    ensures ChunkOk(Instance(c)) && !Has(Instance(c), '*')
  {
  }

  /** Every expression names some key. */
  lemma {:induction false} Inhabited(e: seq<string>) returns (k: seq<string>)
    requires GoodChunks(e)
    ensures IsKey(k) && Matches(e, k)
  {
    if e == [] {
      k := [];
    } else {
      var k' := Inhabited(e[1..]);
      if e[0] == "**" {
        k := k';
      } else {
        InstanceOk(e[0]);
        k := [Instance(e[0])] + k';
        assert k[1..] == k';
      }
    }
  }

  lemma {:induction false} EmptyKey(e: seq<string>)
    requires GoodChunks(e)
    ensures Matches(e, []) <==> e == [] || e == ["**"]
  {
    if e != [] && e[0] == "**" {
      EmptyKey(e[1..]);
      if |e| > 1 { assert e[1..][0] == e[1]; } else { assert e == ["**"]; }
    }
  }

  /** A double wildcard takes in any key. */
  lemma {:induction false} DoubleNamesAll(k: seq<string>)
    ensures Matches(["**"], k)
  {
    if k == [] {
      assert Matches(["**"][1..], []);
    } else {
      DoubleNamesAll(k[1..]);
    }
  }

  lemma MeetsComm(a: seq<string>, b: seq<string>)
    ensures Meets(a, b) <==> Meets(b, a)
  {
  }

  lemma MeetsEmpty(a: seq<string>, b: seq<string>)
    requires a == [] && GoodChunks(b)
    ensures Meets(a, b) <==> b == [] || b == ["**"]
  {
    EmptyKey(b);
    if Matches(b, []) { assert IsKey([]) && Matches(a, []); }
  }

  lemma MeetsDouble(b: seq<string>)
    requires GoodChunks(b)
    ensures Meets(["**"], b)
  {
    var k := Inhabited(b);
    DoubleNamesAll(k);
  }

  lemma {:induction false} DoubleStepKey(a: seq<string>, b: seq<string>, k: seq<string>)
    requires a != [] && a[0] == "**" && b != []
    requires IsKey(k) && Matches(a, k) && Matches(b, k)
    ensures Meets(a, b[1..]) || Meets(a[1..], b)
    decreases |k|
  {
    if !Matches(a[1..], k) {
      var k' := k[1..];
      assert IsKey(k');
      if b[0] == "**" && !Matches(b[1..], k) {
        DoubleStepKey(a, b, k');
      }
    }
  }

  lemma MeetsDoubleStep(a: seq<string>, b: seq<string>)
    requires a != [] && a[0] == "**" && b != [] && GoodChunks(b)
    ensures Meets(a, b) <==> Meets(a, b[1..]) || Meets(a[1..], b)
  {
    if Meets(a, b) {
      var k :| IsKey(k) && Matches(a, k) && Matches(b, k);
      DoubleStepKey(a, b, k);
    }
    if Meets(a, b[1..]) {
      var k :| IsKey(k) && Matches(a, k) && Matches(b[1..], k);
      if b[0] != "**" {
        InstanceOk(b[0]);
        var k1 := [Instance(b[0])] + k;
        assert k1[1..] == k;
        assert IsKey(k1) && Matches(a, k1) && Matches(b, k1);
      }
    }
    if Meets(a[1..], b) {
      var k :| IsKey(k) && Matches(a[1..], k) && Matches(b, k);
      assert Matches(a, k);
    }
  }

  predicate ChunksMeet(c: string, d: string) { c == d || c == "*" || d == "*" }

  lemma MeetsSingleStep(a: seq<string>, b: seq<string>)
    requires a != [] && b != [] && GoodChunks(a) && GoodChunks(b) && a[0] != "**" && b[0] != "**"
    ensures Meets(a, b) <==> ChunksMeet(a[0], b[0]) && Meets(a[1..], b[1..])
  {
    if Meets(a, b) {
      var k :| IsKey(k) && Matches(a, k) && Matches(b, k);
      assert IsKey(k[1..]) && Matches(a[1..], k[1..]) && Matches(b[1..], k[1..]);
    }
    if ChunksMeet(a[0], b[0]) && Meets(a[1..], b[1..]) {
      var k :| IsKey(k) && Matches(a[1..], k) && Matches(b[1..], k);
      InstanceOk(a[0]);
      InstanceOk(b[0]);
      var c := if a[0] == "*" then Instance(b[0]) else a[0];
      var k1 := [c] + k;
      assert k1[1..] == k;
      assert IsKey(k1) && Matches(a, k1) && Matches(b, k1);
    }
  }

  // ---------------------------------------------------------------- intersects

  function Intersects(a: string, b: string): bool
    decreases |a| + |b|, 1
  {
    a == b || Scan(a, b)
  }

  function Scan(a: string, b: string): bool
    decreases |a| + |b|, 0
  {
    if a != "" && b != "" then
      if Head(a) == "**" then Rest(a) == "" || Intersects(a, Rest(b)) || Intersects(Rest(a), b)
      else if Head(b) == "**" then Rest(b) == "" || Intersects(Rest(a), b) || Intersects(a, Rest(b))
      else ChunksMeet(Head(a), Head(b)) && Scan(Rest(a), Rest(b))
    else (a == "" || a == "**") && (b == "" || b == "**")
  }

  /** The scan as it runs: a loop over common chunks with recursion at double wildcards. */
  method IntersectsScan(a0: string, b0: string) returns (r: bool)
    ensures r == Intersects(a0, b0)
    decreases |a0| + |b0|
  {
    if a0 == b0 { return true; }
    var a, b := a0, b0;
    while a != "" && b != ""
      invariant |a| + |b| <= |a0| + |b0|
      invariant Intersects(a0, b0) == Scan(a, b)
      decreases |a| + |b|
    {
      var c1, r1, c2, r2 := Head(a), Rest(a), Head(b), Rest(b);
      if c1 == "**" {
        if r1 == "" { return true; }
        r := IntersectsScan(a, r2);
        if !r { r := IntersectsScan(r1, b); }
        return;
      }
      if c2 == "**" {
        if r2 == "" { return true; }
        r := IntersectsScan(r1, b);
        if !r { r := IntersectsScan(a, r2); }
        return;
      }
      if ChunksMeet(c1, c2) {
        a, b := r1, r2;
      } else {
        return false;
      }
    }
    r := (a == "" || a == "**") && (b == "" || b == "**");
  }

  lemma {:induction false} ScanExact(a: string, b: string)
    requires Good(a) && Good(b)
    ensures Scan(a, b) <==> Meets(Chunks(a), Chunks(b))
    decreases |a| + |b|, 0
  {
    GoodMeansGoodChunks(a);
    GoodMeansGoodChunks(b);
    var A, B := Chunks(a), Chunks(b);
    if a != "" && b != "" {
      assert A[1..] == Chunks(Rest(a)) && B[1..] == Chunks(Rest(b));
      if Head(a) == "**" {
        GoodMeansGoodChunks(Rest(a));
        if Rest(a) == "" { assert A == ["**"]; MeetsDouble(B); } else {
          MeetsDoubleStep(A, B);
          IntersectsMeets(a, Rest(b));
          IntersectsMeets(Rest(a), b);
        }
      } else if Head(b) == "**" {
        GoodMeansGoodChunks(Rest(b));
        MeetsComm(A, B);
        if Rest(b) == "" { assert B == ["**"]; MeetsDouble(A); } else {
          MeetsDoubleStep(B, A);
          MeetsComm(A[1..], B);
          MeetsComm(A, B[1..]);
          IntersectsMeets(Rest(a), b);
          IntersectsMeets(a, Rest(b));
        }
      } else {
        MeetsSingleStep(A, B);
        ScanExact(Rest(a), Rest(b));
      }
    } else if a == "" {
      MeetsEmpty(A, B);
    } else {
      MeetsComm(A, B);
      MeetsEmpty(B, A);
    }
  }

  lemma {:induction false} IntersectsMeets(a: string, b: string)
    requires Good(a) && Good(b)
    ensures Intersects(a, b) <==> Meets(Chunks(a), Chunks(b))
    decreases |a| + |b|, 1
  {
    ScanExact(a, b);
    if a == b {
      GoodMeansGoodChunks(a);
      var k := Inhabited(Chunks(a));
    }
  }

  predicate ValidExpr(s: string) { s != "" && Good(s) }

  /** A concrete key as publishers use it. */
  predicate ValidKey(s: string) { ValidExpr(s) && Concrete(s) }

  /** The check as it runs, chunk by chunk. */
  method Valid(e: string) returns (ok: bool)
    ensures ok == ValidExpr(e)
  {
    if e == "" || exists c :: c in e && Forbidden(c) {
      assert e != "" ==> !Good(e) by { if e != "" && Good(e) { GoodAllowed(e); } }
      return false;
    }
    var prevDouble, rest := false, e;
    while true
      invariant forall c :: c in rest ==> !Forbidden(c)
      invariant ValidExpr(e) == (rest != "" && Good(rest) && !(prevDouble && Head(rest) == "**"))
      decreases |rest|
    {
      var c := Head(rest);
      if c == "" || (Has(c, '*') && c != "*" && c != "**") { return false; }
      var double := c == "**";
      if double && prevDouble { return false; }
      prevDouble := double;
      if Slash(rest) == |rest| { return true; }
      rest := Rest(rest);
    }
  }

  lemma {:induction false} GoodAllowed(s: string)
    requires Good(s)
    ensures forall c :: c in s ==> !Forbidden(c)
    decreases |s|
  {
    if s != "" {
      GoodAllowed(Rest(s));
      SplitsBack(s);
    }
  }

  function Joined(k: seq<string>): string {
    if k == [] then "" else if |k| == 1 then k[0] else k[0] + "/" + Joined(k[1..])
  }

  lemma {:induction false} JoinedKey(k: seq<string>)
    requires IsKey(k)
    ensures Good(Joined(k)) && Concrete(Joined(k)) && Chunks(Joined(k)) == k && (k != [] ==> Joined(k) != "")
  {
    if k != [] {
      assert k[0] in k;
      assert IsKey(k[1..]);
      JoinedKey(k[1..]);
      var s := Joined(k);
      if |k| == 1 {
        assert Slash(s) == |s|;
        assert Head(s) == s;
        assert k == [k[0]];
      } else {
        assert s[|k[0]|] == '/' && s[..|k[0]|] == k[0];
        assert Slash(s) == |k[0]| by {
          assert forall i :: 0 <= i < |k[0]| ==> s[i] == k[0][i] && k[0][i] in k[0];
        }
        assert Rest(s) == Joined(k[1..]);
        assert k == [k[0]] + k[1..];
        assert Head(Rest(s)) == k[1] by { assert Chunks(Rest(s))[0] == k[1..][0]; }
      }
    }
  }

  lemma {:induction false} ConcreteChunks(s: string)
    requires Good(s) && Concrete(s)
    ensures IsKey(Chunks(s))
    decreases |s|
  {
    if s != "" {
      assert Concrete(Rest(s)) && Concrete(Head(s));
      ConcreteChunks(Rest(s));
    }
  }

  /** For valid expressions `Intersects` says exactly whether some concrete key matches both. */
  lemma IntersectsExact(a: string, b: string)
    requires ValidExpr(a) && ValidExpr(b)
    ensures Intersects(a, b) <==>
              exists key :: ValidKey(key) && Matches(Chunks(a), Chunks(key)) && Matches(Chunks(b), Chunks(key))
  {
    IntersectsMeets(a, b);
    GoodMeansGoodChunks(a);
    GoodMeansGoodChunks(b);
    if Meets(Chunks(a), Chunks(b)) {
      var k :| IsKey(k) && Matches(Chunks(a), k) && Matches(Chunks(b), k);
      if k == [] {
        EmptyKey(Chunks(a));
        EmptyKey(Chunks(b));
        k := ["x"];
        DoubleNamesAll(k);
      }
      JoinedKey(k);
      var key := Joined(k);
      assert ValidKey(key) && Matches(Chunks(a), Chunks(key)) && Matches(Chunks(b), Chunks(key));
    }
    forall key | ValidKey(key) && Matches(Chunks(a), Chunks(key)) && Matches(Chunks(b), Chunks(key))
      ensures Meets(Chunks(a), Chunks(b))
    {
      ConcreteChunks(key);
    }
  }

  // ---------------------------------------------------------------- includes

  function Includes(l: string, r: string): bool
    decreases |l| + |r|, 1
  {
    l == r || IncScan(l, r)
  }

  function IncScan(l: string, r: string): bool
    decreases |l| + |r|, 0
  {
    if Head(l) == "**" then
      Rest(l) == "" || Includes(Rest(l), r) || (Rest(r) != "" && IncScan(l, Rest(r)))
    else if Head(r) == "" || Head(r) == "**" || !(Head(l) == Head(r) || Head(l) == "*") then false
    else if Rest(l) == "" then Rest(r) == ""
    else IncScan(Rest(l), Rest(r))
  }

  method IncludesScan(l0: string, r0: string) returns (ok: bool)
    ensures ok == Includes(l0, r0)
    decreases |l0| + |r0|
  {
    if l0 == r0 { return true; }
    var l, r := l0, r0;
    while true
      invariant |l| + |r| <= |l0| + |r0|
      invariant Includes(l0, r0) == IncScan(l, r)
      decreases |l| + |r|
    {
      var lc, lr := Head(l), Rest(l);
      if lc == "**" {
        if lr == "" { return true; }
        ok := IncludesScan(lr, r);
        if ok { return; }
        var rr := Rest(r);
        if rr == "" { return false; }
        r := rr;
      } else {
        var rc, rr := Head(r), Rest(r);
        if rc == "" || rc == "**" || !(lc == rc || lc == "*") { return false; }
        if lr == "" { return rr == ""; }
        l, r := lr, rr;
      }
    }
  }

  /** A leading double wildcard absorbs one more chunk, or any run of chunks. */
  lemma {:induction false} Absorb(l: seq<string>, r: seq<string>, k: seq<string>)
    requires l != [] && l[0] == "**" && r != [] && IsKey(k) && Matches(r, k) && Covers(l, r[1..])
    ensures Matches(l, k)
    decreases |k|
  {
    if r[0] == "**" {
      if Matches(r[1..], k) {
        assert Matches(l, k);
      } else {
        assert IsKey(k[1..]);
        Absorb(l, r, k[1..]);
      }
    } else {
      assert IsKey(k[1..]);
      assert Matches(l, k[1..]);
    }
  }

  lemma {:induction false} IncScanSound(l: string, r: string)
    requires Good(l) && Good(r) && IncScan(l, r) && l != ""
    ensures Covers(Chunks(l), Chunks(r))
    decreases |l| + |r|, 0
  {
    var L, R := Chunks(l), Chunks(r);
    assert L[1..] == Chunks(Rest(l));
    if Head(l) == "**" {
      if Rest(l) == "" {
        forall k ensures Matches(L, k) { assert L == ["**"]; DoubleNamesAll(k); }
      } else if Includes(Rest(l), r) {
        IncludesSound(Rest(l), r);
        forall k | IsKey(k) && Matches(R, k) ensures Matches(L, k) { assert Matches(L[1..], k); }
      } else {
        IncScanSound(l, Rest(r));
        assert r != "";
        assert R[1..] == Chunks(Rest(r));
        forall k | IsKey(k) && Matches(R, k) ensures Matches(L, k) { Absorb(L, R, k); }
      }
    } else {
      assert r != "";
      assert R[1..] == Chunks(Rest(r));
      if Rest(l) != "" { IncScanSound(Rest(l), Rest(r)); }
      forall k | IsKey(k) && Matches(R, k) ensures Matches(L, k) {
        assert IsKey(k[1..]) && Matches(R[1..], k[1..]);
        if Rest(l) == "" { assert k[1..] == []; }
      }
    }
  }

  /** If `Includes` says yes, every key of r is a key of l. */
  lemma {:induction false} IncludesSound(l: string, r: string)
    requires Good(l) && Good(r) && Includes(l, r) && l != ""
    ensures Covers(Chunks(l), Chunks(r))
    decreases |l| + |r|, 1
  {
    if l != r { IncScanSound(l, r); }
  }

  lemma {:induction false} IncScanComplete(l: string, key: string)
    requires Good(l) && l != "" && Good(key) && Concrete(key) && Matches(Chunks(l), Chunks(key))
    requires key == "" ==> l == "**"
    ensures IncScan(l, key)
    decreases |l| + |key|
  {
    var L, K := Chunks(l), Chunks(key);
    GoodMeansGoodChunks(l);
    assert L[1..] == Chunks(Rest(l));
    assert Concrete(Rest(key)) && Concrete(Head(key));
    GoodMeansGoodChunks(Rest(l));
    GoodMeansGoodChunks(key);
    GoodMeansGoodChunks(Rest(key));
    if Head(l) == "**" {
      if Rest(l) != "" {
        EmptyKey(L);
        EmptyKey(L[1..]);
        assert L[0] == "**" && |L| > 1 && L[1] == L[1..][0];
        assert key != "" && K[1..] == Chunks(Rest(key));
        if Matches(L[1..], K) {
          IncScanComplete(Rest(l), key);
        } else {
          IncScanComplete(l, Rest(key));
        }
      }
    } else {
      assert key != "" && K[1..] == Chunks(Rest(key));
      if Rest(l) != "" {
        if Rest(key) == "" { EmptyKey(L[1..]); }
        IncScanComplete(Rest(l), Rest(key));
      }
    }
  }

  /** On a concrete right side `Includes` is exact: it says whether l names the key. */
  lemma IncludesExact(l: string, key: string)
    requires ValidExpr(l) && ValidKey(key)
    ensures Includes(l, key) <==> Matches(Chunks(l), Chunks(key))
  {
    ConcreteChunks(key);
    if Includes(l, key) {
      SelfMatch(Chunks(key));
      IncludesSound(l, key);
    }
    if Matches(Chunks(l), Chunks(key)) { IncScanComplete(l, key); }
  }

  lemma {:induction false} SelfMatch(k: seq<string>)
    requires IsKey(k)
    ensures Matches(k, k)
  {
    if k != [] {
      assert k[0] in k && IsKey(k[1..]);
      assert k[0] != "**" by { assert "**"[0] == '*'; }
      SelfMatch(k[1..]);
    }
  }

  lemma {:induction false} OnlyItself(k: seq<string>, m: seq<string>)
    requires IsKey(k) && Matches(k, m)
    ensures k == m
  {
    if k != [] {
      assert k[0] in k && IsKey(k[1..]);
      assert k[0] != "**" by { assert "**"[0] == '*'; }
      assert k[0] != "*" by { assert "*"[0] == '*'; }
      OnlyItself(k[1..], m[1..]);
      assert k == [k[0]] + k[1..] && m == [m[0]] + m[1..];
    }
  }

  lemma CutAt(s: string, i: nat)
    requires i < |s| && s[i] == '/'
    ensures s == s[..i] + "/" + s[i + 1..]
  {
  }

  lemma SplitsBack(s: string)
    requires s != "" && (Slash(s) < |s| ==> Rest(s) != "")
    ensures s == if Rest(s) == "" then Head(s) else Head(s) + "/" + Rest(s)
  {
    if Slash(s) < |s| { CutAt(s, Slash(s)); }
  }

  lemma {:induction false} ChunksDetermine(a: string, b: string)
    requires Good(a) && Good(b) && Chunks(a) == Chunks(b)
    ensures a == b
    decreases |a|
  {
    if a != "" {
      var e := Chunks(a);
      assert e[0] == Head(a) == Head(b);
      assert e[1..] == Chunks(Rest(a)) == Chunks(Rest(b));
      ChunksDetermine(Rest(a), Rest(b));
      SplitsBack(a);
      SplitsBack(b);
    }
  }

  /** Two concrete expressions intersect only if they are the same key. */
  lemma ConcreteIntersects(a: string, b: string)
    requires ValidKey(a) && ValidKey(b)
    ensures Intersects(a, b) <==> a == b
  {
    if Intersects(a, b) {
      IntersectsExact(a, b);
      var key :| ValidKey(key) && Matches(Chunks(a), Chunks(key)) && Matches(Chunks(b), Chunks(key));
      ConcreteChunks(a);
      ConcreteChunks(b);
      OnlyItself(Chunks(a), Chunks(key));
      OnlyItself(Chunks(b), Chunks(key));
      ChunksDetermine(a, b);
    }
  }
}
