/** Full tracks: each round leaves exactly the best-ranked candidates of each kind on rows,
    each on one, and a second round with the same candidates changes no row. */
module SubFull {
  import opened Wrappers
  import opened SubTable
  import opened SubSlots

  // ---------------------------------------------------------------- sorting

  ghost predicate Order(lt: (Cand, Cand) -> bool) {
    && (forall a, b :: lt(a, b) ==> !lt(b, a))
    && (forall a, b, c :: !lt(a, b) && !lt(b, c) ==> !lt(a, c))
  }

  ghost predicate Sorted(s: seq<Cand>, lt: (Cand, Cand) -> bool) { forall i, j :: 0 <= i < j < |s| ==> !lt(s[j], s[i]) }

  lemma {:induction false} InsertOk(c: Cand, s: seq<Cand>, lt: (Cand, Cand) -> bool)
    requires Order(lt) && Sorted(s, lt)
    ensures Sorted(Insert(c, s, lt), lt) && multiset(Insert(c, s, lt)) == multiset(s) + multiset{c}
  {
    if s != [] {
      if lt(c, s[0]) {
        InFront(c, s, lt);
      } else {
        InsertOk(c, s[1..], lt);
        var t := Insert(c, s[1..], lt);
        assert s == [s[0]] + s[1..];
        forall x | x in t ensures !lt(x, s[0]) {
          assert x in multiset(t);
          if x != c { LaterIn(s, lt, x); }
        }
        Headed(s[0], t, lt);
      }
    }
  }

  lemma InFront(c: Cand, s: seq<Cand>, lt: (Cand, Cand) -> bool)
    requires Order(lt) && Sorted(s, lt) && s != [] && lt(c, s[0])
    ensures Sorted([c] + s, lt)
  {
    forall x | x in s ensures !lt(x, c) {
      var k :| 0 <= k < |s| && s[k] == x;
      if k > 0 { assert !lt(s[k], s[0]) && !lt(s[0], c); }
    }
    Headed(c, s, lt);
  }

  lemma LaterIn(s: seq<Cand>, lt: (Cand, Cand) -> bool, x: Cand)
    requires Sorted(s, lt) && s != [] && x in s[1..]
    ensures !lt(x, s[0])
  {
    var k :| 0 <= k < |s[1..]| && s[1..][k] == x;
    assert s[k + 1] == x;
  }

  lemma Headed(c: Cand, t: seq<Cand>, lt: (Cand, Cand) -> bool)
    requires Sorted(t, lt) && forall x :: x in t ==> !lt(x, c)
    ensures Sorted([c] + t, lt)
  {
    var r := [c] + t;
    forall i, j | 0 <= i < j < |r| ensures !lt(r[j], r[i]) {
      assert r[j] == t[j - 1] && r[j] in t;
      if i > 0 { assert r[i] == t[i - 1]; }
    }
  }

  lemma {:induction false} SortOk(s: seq<Cand>, lt: (Cand, Cand) -> bool)
    requires Order(lt)
    ensures Sorted(Sort(s, lt), lt) && multiset(Sort(s, lt)) == multiset(s) && |Sort(s, lt)| == |s|
  {
    if s != [] {
      SortOk(s[..|s| - 1], lt);
      InsertOk(s[|s| - 1], Sort(s[..|s| - 1], lt), lt);
      assert s == s[..|s| - 1] + [s[|s| - 1]];
    }
    assert |multiset(Sort(s, lt))| == |Sort(s, lt)| && |multiset(s)| == |s|;
  }

  lemma BeforeIsOrder(rows: Rows, kind: Kind, waiting: map<nat, nat>, now: nat)
    ensures Order(Earlier(rows, kind, waiting, now))
  {
  }

  // ---------------------------------------------------------------- the target

  /** Full candidates have a track each. */
  ghost predicate TracksDiffer(cs: seq<Cand>) { forall i, j :: 0 <= i < j < |cs| ==> cs[i].key.track != cs[j].key.track }

  ghost predicate IsLoaded(rows: Rows, kind: Kind, key: Key) { exists i :: 0 <= i < |rows| && Holds(rows[i], kind, key) }

  lemma {:induction false} LoadedAtIs(rows: Rows, kind: Kind, key: Key)
    ensures LoadedAt(rows, kind, key).Some? <==> IsLoaded(rows, kind, key)
  {
    if rows != [] {
      LoadedAtIs(rows[1..], kind, key);
      if IsLoaded(rows[1..], kind, key) {
        var i :| 0 <= i < |rows[1..]| && Holds(rows[1..][i], kind, key);
        assert Holds(rows[i + 1], kind, key);
      }
      if IsLoaded(rows, kind, key) {
        var i :| 0 <= i < |rows| && Holds(rows[i], kind, key);
        if i > 0 { assert Holds(rows[1..][i - 1], kind, key); }
      }
    }
  }

  /** t holds the best of desired: at most FULL of them, all if they fit, and none left out comes
      before one taken. */
  ghost predicate IsTop(t: seq<Cand>, desired: seq<Cand>, lt: (Cand, Cand) -> bool) {
    && |t| == (if |desired| <= FULL then |desired| else FULL)
    && (forall a :: a in t ==> a in desired)
    && (forall a, b :: a in t && b in desired && b !in t ==> !lt(b, a))
    && TracksDiffer(t)
  }

  /** Same elements, so again no two with one track. */
  lemma PermutedDiffer(s: seq<Cand>, t: seq<Cand>)
    requires TracksDiffer(s) && multiset(s) == multiset(t)
    ensures TracksDiffer(t)
  {
    forall i, j | 0 <= i < j < |t| ensures t[i].key.track != t[j].key.track {
      var (a, b) := (t[i], t[j]);
      if a.key.track == b.key.track {
        assert a in multiset(s) && b in multiset(s);
        var x :| 0 <= x < |s| && s[x] == a;
        var y :| 0 <= y < |s| && s[y] == b;
        assert a == b;
        OnlyOnce(s, a);
        TwiceCounts(t, i, j);
      }
    }
  }

  lemma {:induction false} OnlyOnce(s: seq<Cand>, a: Cand)
    requires TracksDiffer(s)
    ensures multiset(s)[a] <= 1
  {
    if s != [] {
      OnlyOnce(s[1..], a);
      assert s == [s[0]] + s[1..];
    }
  }

  lemma TwiceCounts(t: seq<Cand>, i: nat, j: nat)
    requires i < j < |t| && t[i] == t[j]
    ensures multiset(t)[t[i]] >= 2
  {
    assert t == t[..j] + t[j..];
    assert t[i] in t[..j] && t[i] in t[j..];
  }

  lemma TargetIsTop(rows: Rows, kind: Kind, waiting: map<nat, nat>, desired: seq<Cand>, now: nat)
    requires TracksDiffer(desired)
    ensures IsTop(Target(rows, kind, waiting, desired, now), desired, Earlier(rows, kind, waiting, now))
  {
    var lt := Earlier(rows, kind, waiting, now);
    BeforeIsOrder(rows, kind, waiting, now);
    SortOk(desired, lt);
    TopOfSorted(desired, Sort(desired, lt), lt);
  }

  lemma TopOfSorted(desired: seq<Cand>, s: seq<Cand>, lt: (Cand, Cand) -> bool)
    requires TracksDiffer(desired) && Sorted(s, lt) && multiset(s) == multiset(desired) && |s| == |desired|
    ensures IsTop(if |s| <= FULL then s else s[..FULL], desired, lt)
  {
    var t := if |s| <= FULL then s else s[..FULL];
    PermutedDiffer(desired, s);
    forall a | a in t ensures a in desired { assert a in s; assert a in multiset(s); }
    forall a, b | a in t && b in desired && b !in t ensures !lt(b, a) {
      assert b in multiset(desired);
      assert b in s;
      var i :| 0 <= i < |t| && t[i] == a;
      var j :| 0 <= j < |s| && s[j] == b;
    }
  }

  // ---------------------------------------------------------------- rows of full tracks

  /** No track is on two full rows. */
  ghost predicate FullDiffer(rows: Rows) {
    forall i, j :: 0 <= i < j < |rows| && rows[i].class_.Full? && rows[j].class_.Full? && rows[i].track.Some? && rows[j].track.Some? ==>
      rows[i].track.value.track != rows[j].track.value.track
  }

  /** No track is on two full rows of the kind. */
  ghost predicate KindDiffer(rows: Rows, kind: Kind) {
    forall i, j :: 0 <= i < j < |rows| && Busy(rows[i], kind) && Busy(rows[j], kind) ==>
      rows[i].track.value.track != rows[j].track.value.track
  }

  function Tracks(rows: Rows, kind: Kind): set<nat> {
    set i | 0 <= i < |rows| && IsFull(rows[i], kind) && rows[i].track.Some? :: rows[i].track.value.track
  }

  predicate Busy(r: Row, kind: Kind) { IsFull(r, kind) && r.track.Some? }

  function BusyOf(kind: Kind): Row -> bool { (r: Row) => Busy(r, kind) }

  lemma {:induction false} TracksCount(rows: Rows, kind: Kind)
    requires KindDiffer(rows, kind)
    ensures |Tracks(rows, kind)| == Count(rows, BusyOf(kind))
  {
    if rows != [] {
      var rest := rows[1..];
      forall i | 0 <= i < |rest| ensures rest[i] == rows[i + 1] { }
      TracksCount(rest, kind);
      TracksCons(rows, kind);
    }
  }

  lemma TracksCons(rows: Rows, kind: Kind)
    requires rows != [] && KindDiffer(rows, kind)
    ensures var (r, rest) := (rows[0], rows[1..]);
            if Busy(r, kind)
            then Tracks(rows, kind) == Tracks(rest, kind) + {r.track.value.track} && r.track.value.track !in Tracks(rest, kind)
            else Tracks(rows, kind) == Tracks(rest, kind)
  {
    var (r, rest) := (rows[0], rows[1..]);
    forall n ensures n in Tracks(rows, kind) <==> n in Tracks(rest, kind) || (Busy(r, kind) && n == r.track.value.track) {
      if n in Tracks(rest, kind) {
        var i :| 0 <= i < |rest| && IsFull(rest[i], kind) && rest[i].track.Some? && rest[i].track.value.track == n;
        assert rows[i + 1] == rest[i];
      }
      if n in Tracks(rows, kind) {
        var i :| 0 <= i < |rows| && IsFull(rows[i], kind) && rows[i].track.Some? && rows[i].track.value.track == n;
        if i > 0 { assert rest[i - 1] == rows[i]; }
      }
    }
    forall i | 0 <= i < |rest| ensures rest[i] == rows[i + 1] { }
  }

  function TrackSet(cs: seq<Cand>): set<nat> { set i | 0 <= i < |cs| :: cs[i].key.track }

  lemma {:induction false} TrackSetSize(cs: seq<Cand>)
    ensures |TrackSet(cs)| <= |cs|
  {
    if cs != [] {
      TrackSetSize(cs[1..]);
      forall i | 0 <= i < |cs[1..]| ensures cs[1..][i] == cs[i + 1] { }
      assert TrackSet(cs) == TrackSet(cs[1..]) + {cs[0].key.track};
    }
  }

  lemma SmallerSet(a: set<nat>, b: set<nat>, x: nat)
    requires a <= b - {x} && x in b
    ensures |a| < |b|
  {
    Subset(a, b - {x});
  }

  lemma {:induction false} Subset(a: set<nat>, b: set<nat>)
    requires a <= b
    ensures |a| <= |b|
    decreases |a|
  {
    if x :| x in a { Subset(a - {x}, b - {x}); }
  }

  /** Full rows of the kind hold targets only. */
  ghost predicate Within(rows: Rows, kind: Kind, all: seq<Cand>) {
    forall i :: 0 <= i < |rows| && Busy(rows[i], kind) ==> Among(all, rows[i].track.value)
  }

  /** No full row of the other kind holds a target. */
  ghost predicate Clear(rows: Rows, kind: Kind, all: seq<Cand>) {
    forall i :: 0 <= i < |rows| && rows[i].class_.Full? && rows[i].kind != kind && rows[i].track.Some? ==> !Among(all, rows[i].track.value)
  }

  /** There is room for all the full rows of the kind that may still come. */
  ghost predicate Slack(e: Env, rows: Rows, kind: Kind) {
    |rows| + FULL - Count(rows, FullOf(kind)) <= e.Limit()
  }

  ghost predicate LoadOk(rows: Rows, kind: Kind, all: seq<Cand>) {
    KindDiffer(rows, kind) && Within(rows, kind, all) && Count(rows, FullOf(kind)) <= FULL
  }

  /** A target without a row finds all full rows busy only if there are fewer than FULL. */
  lemma Pigeonhole(rows: Rows, kind: Kind, all: seq<Cand>, c: Cand)
    requires KindDiffer(rows, kind) && Within(rows, kind, all) && |all| <= FULL && c in all && TracksDiffer(all) && !OnFull(rows, c.key)
    requires forall i :: 0 <= i < |rows| ==> !EmptyFull(rows[i], kind)
    ensures Count(rows, FullOf(kind)) < FULL
  {
    TracksCount(rows, kind);
    TrackSetSize(all);
    CountBoth(rows, kind);
    var k :| 0 <= k < |all| && all[k] == c;
    forall t | t in Tracks(rows, kind) ensures t in TrackSet(all) && t != c.key.track {
      var i :| 0 <= i < |rows| && IsFull(rows[i], kind) && rows[i].track.Some? && rows[i].track.value.track == t;
      OtherTrack(rows, kind, all, c, i);
      InTrackSet(all, rows[i].track.value);
    }
    assert c.key.track in TrackSet(all);
    SmallerSet(Tracks(rows, kind), TrackSet(all), c.key.track);
  }

  lemma InTrackSet(all: seq<Cand>, key: Key)
    requires Among(all, key)
    ensures key.track in TrackSet(all)
  {
  }

  lemma {:induction false} CountBoth(rows: Rows, kind: Kind)
    requires forall i :: 0 <= i < |rows| ==> !EmptyFull(rows[i], kind)
    ensures Count(rows, FullOf(kind)) == Count(rows, BusyOf(kind))
  {
    if rows != [] { CountBoth(rows[1..], kind); }
  }

  /** r is w with an empty full row of the kind at i, otherwise the same but for new rows of the kind. */
  ghost predicate Placed(e: Env, w: Work, r: Work, kind: Kind, i: nat) {
    && i < |r.rows| && EmptyFull(r.rows[i], kind)
    && |w.rows| <= |r.rows| && |r.rows| <= |w.rows| + 1
    && (forall j :: 0 <= j < |w.rows| && j != i ==> r.rows[j] == w.rows[j])
    && (i < |w.rows| ==> EmptyFull(w.rows[i], kind) && r.rows[i].mid == w.rows[i].mid)
    && (|r.rows| > |w.rows| ==> i == |w.rows| && r.rows[i].mid == e.Start() + |w.rows|)
    && (Count(w.rows, FullOf(kind)) <= FULL ==> Count(r.rows, FullOf(kind)) <= FULL)
    && (Slack(e, w.rows, kind) ==> Slack(e, r.rows, kind))
  }

  /** With slack there is always a place; without, the table is left as it is. */
  lemma PlaceOk(e: Env, w: Work, kind: Kind, all: seq<Cand>, c: Cand)
    requires LoadOk(w.rows, kind, all) && |all| <= FULL && c in all && TracksDiffer(all) && !OnFull(w.rows, c.key)
    ensures var (r, i) := Place(e, w, kind, c);
            if i.Some? then Placed(e, w, r, kind, i.value) else r == w && !Slack(e, w.rows, kind)
  {
    match Find(w.rows, (r: Row) => EmptyFull(r, kind) && r.codec == c.codec, 0)
    case Some(i) =>
    case None =>
      if Count(w.rows, FullOf(kind)) < FULL && |w.rows| < e.Limit() {
        AddPlaces(e, w, kind, c.codec);
      } else {
        var o := Oldest(w.rows, kind);
        if o.None? { Pigeonhole(w.rows, kind, all, c); } else { RetunePlaces(e, w, kind, c.codec, o.value); }
      }
  }

  lemma AddPlaces(e: Env, w: Work, kind: Kind, codec: Codec)
    requires Count(w.rows, FullOf(kind)) < FULL
    ensures Placed(e, w, AddRow(e, w, kind, Full, codec), kind, |w.rows|)
  {
    var a := AddRow(e, w, kind, Full, codec);
    CountAdd(w.rows, a.rows[|w.rows|], FullOf(kind));
  }

  lemma RetunePlaces(e: Env, w: Work, kind: Kind, codec: Codec, i: nat)
    requires i < |w.rows| && EmptyFull(w.rows[i], kind)
    ensures Placed(e, w, Retune(e, w, i, codec), kind, i)
  {
    CountSet(w.rows, i, Retune(e, w, i, codec).rows[i], FullOf(kind));
  }

  // ---------------------------------------------------------------- putting the targets up

  /** Only full rows of the kind differ; new rows are such rows; what was held is held. */
  ghost predicate Grown(e: Env, a: Rows, b: Rows, kind: Kind) {
    && |a| <= |b|
    && (forall i :: 0 <= i < |a| ==> b[i].mid == a[i].mid && b[i].class_ == a[i].class_ && b[i].kind == a[i].kind)
    && (forall i :: 0 <= i < |a| && !EmptyFull(a[i], kind) ==> b[i] == a[i])
    && (forall i :: |a| <= i < |b| ==> IsFull(b[i], kind) && b[i].mid == e.Start() + i)
  }

  lemma GrownTwice(e: Env, a: Rows, b: Rows, c: Rows, kind: Kind)
    requires Grown(e, a, b, kind) && Grown(e, b, c, kind)
    ensures Grown(e, a, c, kind)
  {
  }

  lemma LoadPlaced(e: Env, w: Work, r: Work, kind: Kind, i: nat, all: seq<Cand>, c: Cand, rev: nat, now: nat)
    requires LoadOk(w.rows, kind, all) && Placed(e, w, r, kind, i) && c in all && !OnFull(w.rows, c.key) && TracksDiffer(all)
    ensures var v := LoadAt(r, i, c, rev, now);
            && LoadOk(v.rows, kind, all) && Grown(e, w.rows, v.rows, kind) && Holds(v.rows[i], kind, c.key)
            && (Slack(e, w.rows, kind) ==> Slack(e, v.rows, kind))
  {
    var v := LoadAt(r, i, c, rev, now);
    CountSet(r.rows, i, v.rows[i], FullOf(kind));
    var k :| 0 <= k < |all| && all[k] == c;
    assert Among(all, c.key);
    forall j | 0 <= j < |v.rows| && j != i && Busy(v.rows[j], kind)
      ensures v.rows[j] == w.rows[j] && v.rows[j].track.value.track != c.key.track
    {
      assert v.rows[j] == w.rows[j];
      OtherTrack(w.rows, kind, all, c, j);
    }
  }

  /** A busy full row of the kind holds another track than a target that is on no row. */
  lemma OtherTrack(rows: Rows, kind: Kind, all: seq<Cand>, c: Cand, j: nat)
    requires Within(rows, kind, all) && c in all && !OnFull(rows, c.key) && TracksDiffer(all)
    requires j < |rows| && Busy(rows[j], kind)
    ensures rows[j].track.value.track != c.key.track
  {
    var k :| 0 <= k < |all| && all[k] == c;
    var m :| 0 <= m < |all| && all[m].key == rows[j].track.value;
    assert all[m].key == c.key ==> OnFull(rows, c.key);
  }

  /** Putting the targets up keeps the table in order; with slack, every target ends on a full row,
      of the kind unless one of the other kind had it already. */
  lemma {:induction false} LoadFullOk(e: Env, w: Work, waiting: map<nat, nat>, kind: Kind, all: seq<Cand>, ts: seq<Cand>,
                                      rev: nat, now: nat)
    requires LoadOk(w.rows, kind, all) && |all| <= FULL && TracksDiffer(all) && forall c :: c in ts ==> c in all
    ensures var r := LoadFull(e, w, waiting, kind, ts, rev, now).0;
            && LoadOk(r.rows, kind, all) && Grown(e, w.rows, r.rows, kind)
            && (Slack(e, w.rows, kind) ==> Slack(e, r.rows, kind) && forall c :: c in ts ==> OnFull(r.rows, c.key))
    decreases |ts|
  {
    if ts != [] {
      var (c, rest) := (ts[0], ts[1..]);
      assert c in ts;
      if OnFull(w.rows, c.key) {
        LoadFullOk(e, w, waiting - {c.key.track}, kind, all, rest, rev, now);
        StillOn(e, w.rows, LoadFull(e, w, waiting - {c.key.track}, kind, rest, rev, now).0.rows, kind, c.key);
      } else {
        var (r, i) := Place(e, w, kind, c);
        PlaceOk(e, w, kind, all, c);
        if i.None? {
          LoadFullOk(e, w, waiting, kind, all, rest, rev, now);
        } else {
          LoadPlaced(e, w, r, kind, i.value, all, c, rev, now);
          var v := LoadAt(r, i.value, c, rev, now);
          LoadFullOk(e, v, waiting - {c.key.track}, kind, all, rest, rev, now);
          var last := LoadFull(e, v, waiting - {c.key.track}, kind, rest, rev, now).0;
          assert OnFull(v.rows, c.key);
          StillOn(e, v.rows, last.rows, kind, c.key);
          GrownTwice(e, w.rows, v.rows, last.rows, kind);
        }
      }
      forall d | d in ts ensures d == c || d in rest { }
    }
  }

  lemma StillOn(e: Env, a: Rows, b: Rows, kind: Kind, key: Key)
    requires Grown(e, a, b, kind) && OnFull(a, key)
    ensures OnFull(b, key)
  {
    var i :| 0 <= i < |a| && a[i].class_.Full? && a[i].track == Some(key);
    assert b[i] == a[i];
  }

  /** A target on a full row, with none on rows of the other kind, is on one of the kind. */
  lemma HeldByKind(rows: Rows, kind: Kind, all: seq<Cand>, c: Cand)
    requires Clear(rows, kind, all) && c in all && OnFull(rows, c.key)
    ensures IsLoaded(rows, kind, c.key)
  {
    var i :| 0 <= i < |rows| && rows[i].class_.Full? && rows[i].track == Some(c.key);
    var k :| 0 <= k < |all| && all[k] == c;
    assert Among(all, c.key);
    assert Holds(rows[i], kind, c.key);
  }
}
