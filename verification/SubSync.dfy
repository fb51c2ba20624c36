/** A round as a whole: what it leaves, and that repeating it changes no row. */
module SubSync {
  import opened Wrappers
  import opened SubTable
  import opened SubSlots
  import opened SubFull
  import opened SubRounds

  // ---------------------------------------------------------------- what one part leaves to the others

  /** Rows outside q stay as they were, and rows in q, old and new, stay in q. */
  ghost predicate Untouched(a: Rows, b: Rows, q: Row -> bool) {
    && |a| <= |b|
    && (forall i :: 0 <= i < |a| ==> q(b[i]) == q(a[i]) && (!q(a[i]) ==> b[i] == a[i]))
    && (forall i :: |a| <= i < |b| ==> q(b[i]))
  }

  lemma UntouchedSlots(a: Rows, b: Rows, kind: Kind, cands: seq<Cand>)
    requires Untouched(a, b, FullOf(kind))
    ensures forall c: Cand :: Served(a, c) <==> Served(b, c)
    ensures AllWanted(cands, a) ==> AllWanted(cands, b)
    ensures SlotsUnique(a) ==> SlotsUnique(b)
  {
    forall c: Cand ensures Served(a, c) <==> Served(b, c) {
      if Served(a, c) {
        var i :| 0 <= i < |a| && OnSlot(a[i], c.kind, c.key.room);
        assert OnSlot(b[i], c.kind, c.key.room);
      }
    }
  }

  /** q has nothing to do with full rows of the kind. */
  ghost predicate Apart(q: Row -> bool, kind: Kind) { forall r :: IsFull(r, kind) ==> !q(r) }

  lemma UntouchedFull(a: Rows, b: Rows, q: Row -> bool, kind: Kind)
    requires Untouched(a, b, q) && Apart(q, kind)
    ensures forall key :: IsLoaded(a, kind, key) <==> IsLoaded(b, kind, key)
    ensures forall t :: Had(a, kind, t) <==> Had(b, kind, t)
    ensures Tracks(a, kind) == Tracks(b, kind)
  {
    forall i | 0 <= i < |b| && IsFull(b[i], kind) ensures i < |a| && a[i] == b[i] { }
    forall i | 0 <= i < |a| && IsFull(a[i], kind) ensures a[i] == b[i] { }
  }

  lemma {:induction false} UntouchedCount(a: Rows, b: Rows, q: Row -> bool, p: Row -> bool)
    requires Untouched(a, b, q) && forall r :: p(r) ==> !q(r)
    ensures Count(b, p) == Count(a, p)
    decreases |b|
  {
    if |b| == |a| {
      CountSame(a, b, p);
    } else {
      var init := b[..|b| - 1];
      assert b == init + [b[|b| - 1]];
      UntouchedCount(a, init, q, p);
      CountAdd(init, b[|b| - 1], p);
    }
  }

  lemma {:induction false} CountSplit(rows: Rows)
    ensures |rows| == Count(rows, IsSlot) + Count(rows, FullOf(Audio)) + Count(rows, FullOf(Video))
  {
    if rows != [] { CountSplit(rows[1..]); }
  }

  // ---------------------------------------------------------------- tables

  /** A table in order, each kind for itself: no track on two full rows of a kind, no room and kind on
      two slots, the limits, and the mids in sequence. */
  ghost predicate Ordered(e: Env, rows: Rows) {
    && KindDiffer(rows, Audio) && KindDiffer(rows, Video) && SlotsUnique(rows)
    && Count(rows, IsSlot) <= e.budget && Count(rows, FullOf(Audio)) <= FULL && Count(rows, FullOf(Video)) <= FULL
    && (forall i :: 0 <= i < |rows| ==> rows[i].mid == e.Start() + i)
  }

  /** A table between rounds: besides, no track is on full rows of both kinds. */
  ghost predicate TableOk(e: Env, rows: Rows) { Ordered(e, rows) && FullDiffer(rows) }

  lemma HasSlack(e: Env, rows: Rows, kind: Kind)
    requires e.budget + 2 * FULL <= e.Limit()
    requires Count(rows, IsSlot) <= e.budget && Count(rows, FullOf(Audio)) <= FULL && Count(rows, FullOf(Video)) <= FULL
    ensures Slack(e, rows, kind)
  {
    CountSplit(rows);
  }

  ghost predicate SlotsDone(e: Env, before: Rows, after: Rows, cands: seq<Cand>) {
    && SlotGrown(e, before, after) && SlotsUnique(after) && AllWanted(cands, after)
    && (forall c :: c in cands && c.class_.Slot? ==> Served(after, c))
    && Count(after, IsSlot) <= e.budget
  }

  lemma BaseOk(e: Env, rows: Rows, cands: seq<Cand>, rev: nat)
    requires SlotsUnique(rows)
    ensures var base := UnloadSlots(rows, cands, rev);
            && SlotsUnique(base) && AllWanted(cands, base) && SlotGrown(e, rows, base)
            && (forall c :: c in cands && c.class_.Slot? ==> (Served(base, c) <==> Served(rows, c)))
  {
    var base := UnloadSlots(rows, cands, rev);
    forall c | c in cands && c.class_.Slot? ensures Served(base, c) <==> Served(rows, c) { ServedSame(rows, cands, rev, c); }
    forall i, k, m | 0 <= i < |base| && OnSlot(base[i], k, m) ensures OnSlot(rows[i], k, m) { }
  }

  lemma SlotPartCounts(e: Env, s: State, cands: seq<Cand>, now: nat)
    requires SlotsUnique(s.rows) && Count(s.rows, IsSlot) <= e.budget && !Refuses(e, s, cands)
    ensures var (w, no) := SlotPart(e, s, cands, now); !no && Count(w.rows, IsSlot) <= e.budget
  {
    var rev := s.arev + 1;
    var base := UnloadSlots(s.rows, cands, rev);
    BaseOk(e, s.rows, cands, rev);
    UnloadFollows(s.rows, cands, rev);
    CountSame(s.rows, base, IsSlot);
    NeverRefused(e, s.rows, base, cands, {}, Work(base, s.pts), cands, rev, now);
  }

  lemma SlotPartOk(e: Env, s: State, cands: seq<Cand>, now: nat)
    requires Ordered(e, s.rows) && CandsDiffer(cands) && !Refuses(e, s, cands)
    ensures var (w, no) := SlotPart(e, s, cands, now); !no && SlotsDone(e, s.rows, w.rows, cands)
  {
    var rev := s.arev + 1;
    var base := UnloadSlots(s.rows, cands, rev);
    SlotPartCounts(e, s, cands, now);
    BaseOk(e, s.rows, cands, rev);
    SlotsFill(e, base, Work(base, s.pts), cands, rev, now);
    LoadSlotsGrow(e, base, Work(base, s.pts), cands, cands, rev, now);
    SlotGrownTwice(e, s.rows, base, SlotPart(e, s, cands, now).0.rows);
  }

  /** In order, with the slots as the candidates want them. */
  ghost predicate Half(e: Env, rows: Rows, cands: seq<Cand>) {
    && Ordered(e, rows) && AllWanted(cands, rows)
    && (forall c :: c in cands && c.class_.Slot? ==> Served(rows, c))
  }

  /** The slot part is out of the way of the full tracks. */
  lemma SlotPartLeaves(e: Env, rows: Rows, after: Rows, cands: seq<Cand>)
    requires Ordered(e, rows) && SlotsDone(e, rows, after, cands)
    ensures Untouched(rows, after, IsSlot) && Half(e, after, cands) && (FullDiffer(rows) ==> FullDiffer(after))
  {
    forall kind ensures Count(after, FullOf(kind)) == Count(rows, FullOf(kind)) { UntouchedCount(rows, after, IsSlot, FullOf(kind)); }
    forall i | 0 <= i < |after| && after[i].class_.Full? ensures i < |rows| && after[i] == rows[i] { }
  }

  lemma StartHalf(e: Env, s: State, cands: seq<Cand>, now: nat)
    requires Ordered(e, s.rows) && CandsDiffer(cands) && !Refuses(e, s, cands)
    ensures var (w, no) := SlotPart(e, s, cands, now);
            !no && Half(e, w.rows, cands) && Untouched(s.rows, w.rows, IsSlot) && (FullDiffer(s.rows) ==> FullDiffer(w.rows))
  {
    SlotPartOk(e, s, cands, now);
    SlotPartLeaves(e, s.rows, SlotPart(e, s, cands, now).0.rows, cands);
  }

  // ---------------------------------------------------------------- a whole round

  lemma PassUntouched(e: Env, a: Rows, b: Rows, kind: Kind)
    requires PassGrown(e, a, b, kind)
    ensures Untouched(a, b, FullOf(kind))
  {
  }

  /** A pass keeps the table in order and leaves only desired tracks of its kind. */
  lemma PassHalf(e: Env, w: Work, waiting: map<nat, nat>, cands: seq<Cand>, kind: Kind, rev: nat, now: nat)
    requires Half(e, w.rows, cands) && CandsDiffer(cands)
    ensures var r := FullPass(e, w, waiting, cands, kind, rev, now).0.rows;
            && Half(e, r, cands) && Within(r, kind, Desired(cands, kind)) && Untouched(w.rows, r, FullOf(kind))
  {
    var r := FullPass(e, w, waiting, cands, kind, rev, now).0.rows;
    PassOk(e, w, waiting, cands, kind, rev, now);
    PassDesired(r, kind, cands, Chosen(w.rows, waiting, cands, kind, rev, now).1);
    PassUntouched(e, w.rows, r, kind);
    UntouchedSlots(w.rows, r, kind, cands);
    PassOrdered(e, w.rows, r, kind);
  }

  lemma PassOrdered(e: Env, a: Rows, b: Rows, kind: Kind)
    requires Ordered(e, a) && PassGrown(e, a, b, kind) && KindDiffer(b, kind) && SlotsUnique(b) && Count(b, FullOf(kind)) <= FULL
    ensures Ordered(e, b)
  {
    var other := if kind.Audio? then Video else Audio;
    PassUntouched(e, a, b, kind);
    UntouchedCount(a, b, FullOf(kind), IsSlot);
    UntouchedCount(a, b, FullOf(kind), FullOf(other));
    forall i | 0 <= i < |b| && Busy(b[i], other) ensures i < |a| && b[i] == a[i] { }
  }

  /** Tracks desired as one kind are not desired as the other. */
  lemma OneKind(cands: seq<Cand>, a: Key, b: Key, kind: Kind, other: Kind)
    requires CandsDiffer(cands) && kind != other && Among(Desired(cands, kind), a) && Among(Desired(cands, other), b)
    ensures a.track != b.track
  {
    var (d, f) := (Desired(cands, kind), Desired(cands, other));
    var i :| 0 <= i < |d| && d[i].key == a;
    var j :| 0 <= j < |f| && f[j].key == b;
    DesiredIs(cands, kind, d[i]);
    DesiredIs(cands, other, f[j]);
    if a.track == b.track { OneCand(cands, d[i], f[j]); }
  }

  lemma BothDiffer(e: Env, rows: Rows, cands: seq<Cand>)
    requires Ordered(e, rows) && CandsDiffer(cands)
    requires Within(rows, Audio, Desired(cands, Audio)) && Within(rows, Video, Desired(cands, Video))
    ensures FullDiffer(rows)
  {
    forall i, j | 0 <= i < j < |rows| && rows[i].class_.Full? && rows[j].class_.Full? && rows[i].track.Some? && rows[j].track.Some?
      ensures rows[i].track.value.track != rows[j].track.value.track
    {
      assert Busy(rows[i], rows[i].kind) && Busy(rows[j], rows[j].kind);
      if rows[i].kind != rows[j].kind { OneKind(cands, rows[i].track.value, rows[j].track.value, rows[i].kind, rows[j].kind); }
    }
  }

  /** Rows of one kind that hold desired tracks only are no obstacle to the other kind. */
  lemma DesiredClear(rows: Rows, cands: seq<Cand>, kind: Kind, other: Kind, t: seq<Cand>)
    requires CandsDiffer(cands) && kind != other && Within(rows, other, Desired(cands, other))
    requires forall a :: a in t ==> a in Desired(cands, kind)
    ensures Clear(rows, kind, t)
  {
    forall i | 0 <= i < |rows| && rows[i].class_.Full? && rows[i].kind != kind && rows[i].track.Some?
      ensures !Among(t, rows[i].track.value)
    {
      assert Busy(rows[i], other);
      forall k | 0 <= k < |t| ensures t[k].key != rows[i].track.value {
        assert t[k] in t;
        var d := Desired(cands, kind);
        var m :| 0 <= m < |d| && d[m] == t[k];
        OneKind(cands, t[k].key, rows[i].track.value, kind, other);
      }
    }
  }

  lemma WithinUntouched(a: Rows, b: Rows, kind: Kind, q: Row -> bool, d: seq<Cand>)
    requires Untouched(a, b, q) && Apart(q, kind) && Within(a, kind, d)
    ensures Within(b, kind, d)
  {
    forall i | 0 <= i < |b| && Busy(b[i], kind) ensures Among(d, b[i].track.value) { assert i < |a| && a[i] == b[i]; }
  }

  lemma TopElsewhere(x: Rows, before: Rows, after: Rows, y: Rows, cands: seq<Cand>, kind: Kind, p: Row -> bool, q: Row -> bool)
    requires Apart(p, kind) && Apart(q, kind) && Untouched(x, before, p) && Untouched(after, y, q)
    ensures TopOnRows(x, y, cands, kind) <==> TopOnRows(before, after, cands, kind)
  {
    UntouchedFull(x, before, p, kind);
    UntouchedFull(after, y, q, kind);
  }

  /** Two parts that each leave a kind alone leave it alone together. */
  lemma HadElsewhere(x: Rows, y: Rows, z: Rows, after: Rows, cands: seq<Cand>, kind: Kind, p: Row -> bool, q: Row -> bool)
    requires TopOnRows(z, after, cands, kind) && Apart(p, kind) && Apart(q, kind) && Untouched(x, y, p) && Untouched(y, z, q)
    ensures TopOnRows(x, after, cands, kind)
  {
    UntouchedFull(x, y, p, kind);
    UntouchedFull(y, z, q, kind);
  }

  /** Both passes: the table is in order again, with desired tracks only. */
  lemma PassesKeep(e: Env, w: Work, waiting: map<nat, nat>, cands: seq<Cand>, rev: nat, now: nat)
    requires Half(e, w.rows, cands) && CandsDiffer(cands)
    ensures var v := Passes(e, w, waiting, cands, rev, now).0.rows;
            && Half(e, v, cands) && TableOk(e, v)
            && Within(v, Audio, Desired(cands, Audio)) && Within(v, Video, Desired(cands, Video))
  {
    var (a, wa) := FullPass(e, w, waiting, cands, Audio, rev, now);
    PassHalf(e, w, waiting, cands, Audio, rev, now);
    var v := FullPass(e, a, wa, cands, Video, rev, now).0;
    PassHalf(e, a, wa, cands, Video, rev, now);
    WithinUntouched(a.rows, v.rows, Audio, FullOf(Video), Desired(cands, Audio));
    BothDiffer(e, v.rows, cands);
  }

  /** The video pass never finds its targets on audio rows. */
  lemma VideoIsTop(e: Env, w: Work, waiting: map<nat, nat>, cands: seq<Cand>, rev: nat, now: nat)
    requires Half(e, w.rows, cands) && CandsDiffer(cands) && e.budget + 2 * FULL <= e.Limit()
    requires Within(w.rows, Audio, Desired(cands, Audio))
    ensures TopOnRows(w.rows, FullPass(e, w, waiting, cands, Video, rev, now).0.rows, cands, Video)
  {
    HasSlack(e, w.rows, Video);
    PassOk(e, w, waiting, cands, Video, rev, now);
    DesiredClear(w.rows, cands, Video, Audio, Chosen(w.rows, waiting, cands, Video, rev, now).1);
    PassTop(e, w, waiting, cands, Video, rev, now);
  }

  /** A chosen audio track that is on a video row is not put up, and so one of the best is missing. */
  lemma AudioNotTop(e: Env, w: Work, waiting: map<nat, nat>, cands: seq<Cand>, rev: nat, now: nat)
    requires Half(e, w.rows, cands) && FullDiffer(w.rows) && CandsDiffer(cands)
    requires !Clear(w.rows, Audio, Chosen(w.rows, waiting, cands, Audio, rev, now).1)
    ensures !TopOnRows(w.rows, FullPass(e, w, waiting, cands, Audio, rev, now).0.rows, cands, Audio)
  {
    var t := Chosen(w.rows, waiting, cands, Audio, rev, now).1;
    var r := FullPass(e, w, waiting, cands, Audio, rev, now).0.rows;
    PassOk(e, w, waiting, cands, Audio, rev, now);
    var i :| 0 <= i < |w.rows| && w.rows[i].class_.Full? && w.rows[i].kind != Audio
             && w.rows[i].track.Some? && Among(t, w.rows[i].track.value);
    var key := w.rows[i].track.value;
    assert Holds(w.rows[i], Video, key);
    AudioPassSkips(e, w, waiting, cands, key, rev, now);
    TrackSetExact(t);
    InTrackSet(t, key);
    TracksMiss(r, t, key);
    SmallerSet(Tracks(r, Audio), TrackSet(t), key.track);
  }

  lemma TracksMiss(rows: Rows, t: seq<Cand>, key: Key)
    requires Within(rows, Audio, t) && TracksDiffer(t) && Among(t, key) && !IsLoaded(rows, Audio, key)
    ensures Tracks(rows, Audio) <= TrackSet(t) - {key.track}
  {
    var k :| 0 <= k < |t| && t[k].key == key;
    forall n | n in Tracks(rows, Audio) ensures n in TrackSet(t) && n != key.track {
      var i :| 0 <= i < |rows| && IsFull(rows[i], Audio) && rows[i].track.Some? && rows[i].track.value.track == n;
      assert Busy(rows[i], Audio);
      var m :| 0 <= m < |t| && t[m].key == rows[i].track.value;
      assert !Holds(rows[i], Audio, key);
    }
  }

  /** The audio pass leaves the best if and only if none of the chosen is on a video row. */
  lemma AudioTopExactly(e: Env, w: Work, waiting: map<nat, nat>, cands: seq<Cand>, rev: nat, now: nat)
    requires Half(e, w.rows, cands) && FullDiffer(w.rows) && CandsDiffer(cands) && e.budget + 2 * FULL <= e.Limit()
    ensures TopOnRows(w.rows, FullPass(e, w, waiting, cands, Audio, rev, now).0.rows, cands, Audio)
            <==> Clear(w.rows, Audio, Chosen(w.rows, waiting, cands, Audio, rev, now).1)
  {
    if Clear(w.rows, Audio, Chosen(w.rows, waiting, cands, Audio, rev, now).1) {
      HasSlack(e, w.rows, Audio);
      PassTop(e, w, waiting, cands, Audio, rev, now);
    } else {
      AudioNotTop(e, w, waiting, cands, rev, now);
    }
  }

  lemma PassesTop(e: Env, x: Rows, w: Work, waiting: map<nat, nat>, cands: seq<Cand>, rev: nat, now: nat)
    requires Half(e, w.rows, cands) && FullDiffer(w.rows) && CandsDiffer(cands) && e.budget + 2 * FULL <= e.Limit()
    requires Untouched(x, w.rows, IsSlot)
    ensures var v := Passes(e, w, waiting, cands, rev, now).0.rows;
            && TopOnRows(x, v, cands, Video)
            && (TopOnRows(x, v, cands, Audio) <==> Clear(w.rows, Audio, Chosen(w.rows, waiting, cands, Audio, rev, now).1))
  {
    var (a, wa) := FullPass(e, w, waiting, cands, Audio, rev, now);
    PassHalf(e, w, waiting, cands, Audio, rev, now);
    AudioTopExactly(e, w, waiting, cands, rev, now);
    var v := FullPass(e, a, wa, cands, Video, rev, now).0;
    PassHalf(e, a, wa, cands, Video, rev, now);
    VideoIsTop(e, a, wa, cands, rev, now);
    TopElsewhere(x, w.rows, a.rows, v.rows, cands, Audio, IsSlot, FullOf(Video));
    HadElsewhere(x, w.rows, a.rows, v.rows, cands, Video, IsSlot, FullOf(Audio));
  }

  lemma SyncIs(e: Env, s: State, cands: seq<Cand>, now: nat)
    requires !Refuses(e, s, cands) && !SlotPart(e, s, cands, now).1
    ensures var v := Passes(e, SlotPart(e, s, cands, now).0, s.waiting, cands, s.arev + 1, now).0;
            var (r, no) := Sync(e, s, cands, now);
            !no && r.rows == v.rows && r.pts == v.pts && r.arev == if v.rows != s.rows then s.arev + 1 else s.arev
  {
    var w := SlotPart(e, s, cands, now).0;
    var (v, left) := Passes(e, w, s.waiting, cands, s.arev + 1, now);
    AssignIs(e, s, cands, now, w, v, left);
  }

  // ---------------------------------------------------------------- the choice does not depend on slots

  lemma {:induction false} LoadedAtSame(a: Rows, b: Rows, kind: Kind, key: Key)
    requires |a| <= |b| && (forall i :: 0 <= i < |a| ==> IsFull(a[i], kind) == IsFull(b[i], kind) && (IsFull(a[i], kind) ==> a[i] == b[i]))
    requires forall i :: |a| <= i < |b| ==> !IsFull(b[i], kind)
    ensures LoadedAt(a, kind, key) == LoadedAt(b, kind, key)
    decreases |b|
  {
    if b != [] { LoadedAtSame(if a == [] then [] else a[1..], b[1..], kind, key); }
  }

  lemma RehomeSame(a: Rows, b: Rows, cands: seq<Cand>, kind: Kind, rev: nat, key: Key)
    requires Untouched(a, b, IsSlot)
    ensures LoadedAt(Rehome(a, cands, kind, rev), kind, key) == LoadedAt(Rehome(b, cands, kind, rev), kind, key)
  {
    LoadedAtSame(Rehome(a, cands, kind, rev), Rehome(b, cands, kind, rev), kind, key);
  }

  lemma {:induction false} WaitsSame(a: Rows, b: Rows, kind: Kind, waiting: map<nat, nat>, d: seq<Cand>, now: nat)
    requires forall key :: LoadedAt(a, kind, key) == LoadedAt(b, kind, key)
    ensures Waits(a, kind, waiting, d, now) == Waits(b, kind, waiting, d, now)
    decreases |d|
  {
    if d != [] {
      var c := d[0];
      var w := if LoadedAt(a, kind, c.key).Some? || c.key.track in waiting then waiting else waiting[c.key.track := now];
      WaitsSame(a, b, kind, w, d[1..], now);
    }
  }

  lemma {:induction false} InsertSame(c: Cand, s: seq<Cand>, f: (Cand, Cand) -> bool, g: (Cand, Cand) -> bool)
    requires forall x, y :: f(x, y) == g(x, y)
    ensures Insert(c, s, f) == Insert(c, s, g)
  {
    if s != [] { InsertSame(c, s[1..], f, g); }
  }

  lemma {:induction false} SortSame(s: seq<Cand>, f: (Cand, Cand) -> bool, g: (Cand, Cand) -> bool)
    requires forall x, y :: f(x, y) == g(x, y)
    ensures Sort(s, f) == Sort(s, g)
  {
    if s != [] {
      SortSame(s[..|s| - 1], f, g);
      InsertSame(s[|s| - 1], Sort(s[..|s| - 1], g), f, g);
    }
  }

  lemma ChoiceSame(a: Rows, b: Rows, waiting: map<nat, nat>, cands: seq<Cand>, kind: Kind, rev: nat, now: nat)
    requires Untouched(a, b, IsSlot)
    ensures Chosen(a, waiting, cands, kind, rev, now).1 == Chosen(b, waiting, cands, kind, rev, now).1
  {
    var (x, y, d) := (Rehome(a, cands, kind, rev), Rehome(b, cands, kind, rev), Desired(cands, kind));
    forall key ensures LoadedAt(x, kind, key) == LoadedAt(y, kind, key) { RehomeSame(a, b, cands, kind, rev, key); }
    WaitsSame(x, y, kind, waiting, d, now);
    var w := Waits(x, kind, waiting, d, now);
    SortSame(d, Earlier(x, kind, w, now), Earlier(y, kind, w, now));
  }

  lemma ClearSame(a: Rows, b: Rows, t: seq<Cand>)
    requires Untouched(a, b, IsSlot)
    ensures Clear(a, Audio, t) <==> Clear(b, Audio, t)
  {
    forall i | 0 <= i < |b| && b[i].class_.Full? ensures i < |a| && a[i] == b[i] { }
    forall i | 0 <= i < |a| && a[i].class_.Full? ensures a[i] == b[i] { }
  }

  // ---------------------------------------------------------------- what a round is for

  /** The full audio candidates that a round will choose. */
  function AudioChoice(s: State, cands: seq<Cand>, now: nat): seq<Cand> {
    Chosen(s.rows, s.waiting, cands, Audio, s.arev + 1, now).1
  }

  /** A full audio candidate that will be chosen is on a full video row. */
  ghost predicate Blocked(s: State, cands: seq<Cand>, now: nat) { !Clear(s.rows, Audio, AudioChoice(s, cands, now)) }

  /** Every slot candidate is on exactly one row and no other slot is loaded, no track is on two rows, and
      exactly the best-ranked full candidates of each kind are loaded. */
  ghost predicate Optimal(e: Env, before: Rows, after: Rows, cands: seq<Cand>) {
    && TableOk(e, after) && Half(e, after, cands)
    && TopOnRows(before, after, cands, Audio) && TopOnRows(before, after, cands, Video)
  }

  /** Every round keeps the table in order; one that is not refused leaves desired tracks only. */
  lemma RoundKeeps(e: Env, s: State, cands: seq<Cand>, now: nat)
    requires TableOk(e, s.rows) && CandsDiffer(cands)
    ensures var r := Sync(e, s, cands, now).0.rows;
            && TableOk(e, r)
            && (!Refuses(e, s, cands) ==>
                  Half(e, r, cands) && Within(r, Audio, Desired(cands, Audio)) && Within(r, Video, Desired(cands, Video)))
  {
    if Refuses(e, s, cands) {
      AllOrNothing(e, s, cands, now);
    } else {
      StartHalf(e, s, cands, now);
      SyncIs(e, s, cands, now);
      PassesKeep(e, SlotPart(e, s, cands, now).0, s.waiting, cands, s.arev + 1, now);
    }
  }

  lemma RoundTops(e: Env, s: State, cands: seq<Cand>, now: nat)
    requires TableOk(e, s.rows) && CandsDiffer(cands) && !Refuses(e, s, cands) && e.budget + 2 * FULL <= e.Limit()
    ensures var r := Sync(e, s, cands, now).0.rows;
            TopOnRows(s.rows, r, cands, Video) && (TopOnRows(s.rows, r, cands, Audio) <==> !Blocked(s, cands, now))
  {
    var w := SlotPart(e, s, cands, now).0;
    StartHalf(e, s, cands, now);
    SyncIs(e, s, cands, now);
    PassesTop(e, s.rows, w, s.waiting, cands, s.arev + 1, now);
    BlockedBySlots(s, w.rows, cands, now);
  }

  /** The slot part makes no difference to what blocks. */
  lemma BlockedBySlots(s: State, rows: Rows, cands: seq<Cand>, now: nat)
    requires Untouched(s.rows, rows, IsSlot)
    ensures Clear(rows, Audio, Chosen(rows, s.waiting, cands, Audio, s.arev + 1, now).1) <==> !Blocked(s, cands, now)
  {
    ChoiceSame(s.rows, rows, s.waiting, cands, Audio, s.arev + 1, now);
    ClearSame(s.rows, rows, AudioChoice(s, cands, now));
  }

  /** MAIN: for distinct candidates and a budget that leaves room for all full rows, a round that is not
      refused is optimal if and only if no full audio candidate it chooses is on a full video row. */
  lemma RoundIsOptimal(e: Env, s: State, cands: seq<Cand>, now: nat)
    requires TableOk(e, s.rows) && CandsDiffer(cands) && !Refuses(e, s, cands) && e.budget + 2 * FULL <= e.Limit()
    ensures Optimal(e, s.rows, Sync(e, s, cands, now).0.rows, cands) <==> !Blocked(s, cands, now)
  {
    RoundKeeps(e, s, cands, now);
    RoundTops(e, s, cands, now);
  }

  // ---------------------------------------------------------------- a second round

  /** The candidates loaded are as many as can be and outrank the others. */
  ghost predicate Settled(rows: Rows, cands: seq<Cand>, kind: Kind) {
    var d := Desired(cands, kind);
    && (forall key :: IsLoaded(rows, kind, key) ==> Among(d, key))
    && |Tracks(rows, kind)| == (if |d| <= FULL then |d| else FULL)
    && (forall a, b :: a in d && b in d && IsLoaded(rows, kind, a.key) && !IsLoaded(rows, kind, b.key) ==> a.rank >= b.rank)
  }

  lemma TracksWithin(rows: Rows, kind: Kind, d: seq<Cand>)
    requires forall key :: IsLoaded(rows, kind, key) ==> Among(d, key)
    ensures Tracks(rows, kind) <= TrackSet(d)
  {
    forall n | n in Tracks(rows, kind) ensures n in TrackSet(d) {
      var i :| 0 <= i < |rows| && IsFull(rows[i], kind) && rows[i].track.Some? && rows[i].track.value.track == n;
      assert IsLoaded(rows, kind, rows[i].track.value);
    }
  }

  /** A candidate's track is on rows if and only if the candidate is. */
  lemma TrackIsLoaded(rows: Rows, kind: Kind, cands: seq<Cand>, c: Cand)
    requires CandsDiffer(cands) && Settled(rows, cands, kind) && c in Desired(cands, kind)
    ensures c.key.track in Tracks(rows, kind) <==> IsLoaded(rows, kind, c.key)
  {
    var d := Desired(cands, kind);
    if c.key.track in Tracks(rows, kind) {
      var i :| 0 <= i < |rows| && IsFull(rows[i], kind) && rows[i].track.Some? && rows[i].track.value.track == c.key.track;
      assert IsLoaded(rows, kind, rows[i].track.value);
      var k :| 0 <= k < |d| && d[k].key == rows[i].track.value;
      DesiredIs(cands, kind, d[k]);
      DesiredIs(cands, kind, c);
      OneCand(cands, d[k], c);
    }
  }

  lemma SameSize(a: set<nat>, b: set<nat>)
    requires a <= b && |a| == |b|
    ensures a == b
  {
    assert |b - a| == 0;
  }

  /** If one that is loaded is passed over, all that are chosen are loaded. */
  lemma PassedOver(rows: Rows, kind: Kind, cands: seq<Cand>, t: seq<Cand>, waits: map<nat, nat>, now: nat, a: Cand)
    requires CandsDiffer(cands) && Settled(rows, cands, kind) && a in Desired(cands, kind) && IsLoaded(rows, kind, a.key) && a !in t
    requires IsTop(t, Desired(cands, kind), Earlier(rows, kind, waits, now))
    ensures TrackSet(t) <= Tracks(rows, kind) - {a.key.track}
  {
    forall n | n in TrackSet(t) ensures n in Tracks(rows, kind) && n != a.key.track {
      var k :| 0 <= k < |t| && t[k].key.track == n;
      var b := t[k];
      assert b in t;
      assert !Before(rows, kind, waits, now, a, b);
      LoadedAtIs(rows, kind, a.key);
      LoadedAtIs(rows, kind, b.key);
      TrackIsLoaded(rows, kind, cands, b);
      DesiredIs(cands, kind, a);
      DesiredIs(cands, kind, b);
      if n == a.key.track { OneCand(cands, a, b); }
    }
  }

  /** The best of a settled table are those on its rows. */
  lemma SettledTop(rows: Rows, kind: Kind, cands: seq<Cand>, t: seq<Cand>, waits: map<nat, nat>, now: nat)
    requires CandsDiffer(cands) && Settled(rows, cands, kind)
    requires IsTop(t, Desired(cands, kind), Earlier(rows, kind, waits, now))
    ensures Tracks(rows, kind) == TrackSet(t)
    ensures forall a :: a in Desired(cands, kind) && IsLoaded(rows, kind, a.key) ==> a in t
  {
    var d := Desired(cands, kind);
    TracksWithin(rows, kind, d);
    TrackSetExact(t);
    forall a | a in d && IsLoaded(rows, kind, a.key) ensures a in t {
      TrackIsLoaded(rows, kind, cands, a);
      if a !in t {
        PassedOver(rows, kind, cands, t, waits, now, a);
        SmallerSet(TrackSet(t), Tracks(rows, kind), a.key.track);
      }
    }
    forall n | n in Tracks(rows, kind) ensures n in TrackSet(t) {
      var i :| 0 <= i < |rows| && IsFull(rows[i], kind) && rows[i].track.Some? && rows[i].track.value.track == n;
      assert IsLoaded(rows, kind, rows[i].track.value);
      var k :| 0 <= k < |d| && d[k].key == rows[i].track.value;
      assert d[k] in t;
      var m :| 0 <= m < |t| && t[m] == d[k];
    }
    SameSize(Tracks(rows, kind), TrackSet(t));
  }

  /** All loaded already: nothing to put up. */
  lemma {:induction false} LoadFullIdle(e: Env, w: Work, waiting: map<nat, nat>, kind: Kind, ts: seq<Cand>, rev: nat, now: nat)
    requires forall c :: c in ts ==> OnFull(w.rows, c.key)
    ensures LoadFull(e, w, waiting, kind, ts, rev, now).0 == w
    decreases |ts|
  {
    if ts != [] {
      assert ts[0] in ts;
      LoadFullIdle(e, w, waiting - {ts[0].key.track}, kind, ts[1..], rev, now);
    }
  }

  lemma PassIdle(e: Env, w: Work, waiting: map<nat, nat>, cands: seq<Cand>, kind: Kind, rev: nat, now: nat)
    requires CandsDiffer(cands) && Settled(w.rows, cands, kind)
    ensures FullPass(e, w, waiting, cands, kind, rev, now).0 == w
  {
    var (rows, d) := (w.rows, Desired(cands, kind));
    RehomeIdle(rows, cands, kind, rev);
    var waits := Waits(rows, kind, waiting, d, now);
    var t := Target(rows, kind, waits, d, now);
    DesiredDiffer(cands, kind);
    TargetIsTop(rows, kind, waits, d, now);
    SettledTop(rows, kind, cands, t, waits, now);
    UnloadIdle(rows, kind, cands, t, rev);
    forall c | c in t ensures OnFull(rows, c.key) {
      TrackIsLoaded(rows, kind, cands, c);
      var k :| 0 <= k < |t| && t[k] == c;
      assert c.key.track in TrackSet(t);
      var i :| 0 <= i < |rows| && Holds(rows[i], kind, c.key);
    }
    LoadFullIdle(e, w, waits, kind, t, rev, now);
  }

  lemma RehomeIdle(rows: Rows, cands: seq<Cand>, kind: Kind, rev: nat)
    requires Settled(rows, cands, kind)
    ensures Rehome(rows, cands, kind, rev) == rows
  {
    forall i | 0 <= i < |rows| && Busy(rows[i], kind) ensures Known(cands, rows[i].track.value) {
      assert IsLoaded(rows, kind, rows[i].track.value);
      var d := Desired(cands, kind);
      var k :| 0 <= k < |d| && d[k].key == rows[i].track.value;
      DesiredIs(cands, kind, d[k]);
      var m :| 0 <= m < |cands| && cands[m] == d[k];
    }
  }

  lemma UnloadIdle(rows: Rows, kind: Kind, cands: seq<Cand>, t: seq<Cand>, rev: nat)
    requires Settled(rows, cands, kind) && forall a :: a in Desired(cands, kind) && IsLoaded(rows, kind, a.key) ==> a in t
    ensures UnloadOthers(rows, kind, t, rev) == rows
  {
    forall i | 0 <= i < |rows| && Busy(rows[i], kind) ensures Among(t, rows[i].track.value) {
      assert IsLoaded(rows, kind, rows[i].track.value);
      var d := Desired(cands, kind);
      var k :| 0 <= k < |d| && d[k].key == rows[i].track.value;
      assert d[k] in d;
      var m :| 0 <= m < |t| && t[m] == d[k];
    }
  }

  lemma {:induction false} SlotsIdle(e: Env, base: Rows, w: Work, cs: seq<Cand>, rev: nat, now: nat)
    requires forall c :: c in cs && c.class_.Slot? ==> Served(base, c)
    ensures LoadSlots(e, base, w, cs, rev, now) == (w, false)
    decreases |cs|
  {
    if cs != [] {
      assert cs[0] in cs;
      SlotsIdle(e, base, w, cs[1..], rev, now);
    }
  }

  lemma {:induction false} NothingFresh(rows: Rows, cands: seq<Cand>, cs: seq<Cand>, claimed: set<nat>)
    requires forall c :: c in cs && c.class_.Slot? ==> Served(rows, c)
    ensures FreshSlots(rows, cands, cs, claimed) == 0
    decreases |cs|
  {
    if cs != [] {
      assert cs[0] in cs;
      NothingFresh(rows, cands, cs[1..], claimed);
    }
  }

  /** After any round that was not refused the same candidates are neither refused nor blocked. */
  lemma NextIsFree(e: Env, s: State, cands: seq<Cand>, now: nat, later: nat)
    requires TableOk(e, s.rows) && CandsDiffer(cands) && !Refuses(e, s, cands)
    ensures var r := Sync(e, s, cands, now).0; TableOk(e, r.rows) && !Refuses(e, r, cands) && !Blocked(r, cands, later)
  {
    RoundKeeps(e, s, cands, now);
    FreeAgain(e, Sync(e, s, cands, now).0, cands, later);
  }

  lemma FreeAgain(e: Env, r: State, cands: seq<Cand>, later: nat)
    requires CandsDiffer(cands) && Within(r.rows, Video, Desired(cands, Video))
    requires forall c :: c in cands && c.class_.Slot? ==> Served(r.rows, c)
    ensures !Refuses(e, r, cands) && !Blocked(r, cands, later)
  {
    NothingFresh(r.rows, cands, cands, {});
    ChosenAre(r.rows, r.waiting, cands, Audio, r.arev + 1, later);
    DesiredClear(r.rows, cands, Audio, Video, AudioChoice(r, cands, later));
  }

  lemma Idle(e: Env, r: State, cands: seq<Cand>, now: nat)
    requires Half(e, r.rows, cands) && CandsDiffer(cands) && Settled(r.rows, cands, Audio) && Settled(r.rows, cands, Video)
    ensures var (again, no) := Sync(e, r, cands, now);
            !no && again.rows == r.rows && again.arev == r.arev && again.pts == r.pts
  {
    var rev := r.arev + 1;
    NothingFresh(r.rows, cands, cands, {});
    var base := UnloadSlots(r.rows, cands, rev);
    assert base == r.rows;
    var w := Work(r.rows, r.pts);
    SlotsIdle(e, base, w, cands, rev, now);
    SyncIs(e, r, cands, now);
    PassIdle(e, w, r.waiting, cands, Audio, rev, now);
    var wa := FullPass(e, w, r.waiting, cands, Audio, rev, now).1;
    PassIdle(e, w, wa, cands, Video, rev, now);
  }

  /** MAIN: after a round that was not blocked, a second one with the same candidates, at any time, changes
      no row and no revision. */
  lemma SecondRoundIdle(e: Env, s: State, cands: seq<Cand>, now: nat, later: nat)
    requires TableOk(e, s.rows) && CandsDiffer(cands) && !Refuses(e, s, cands) && e.budget + 2 * FULL <= e.Limit()
    requires !Blocked(s, cands, now)
    ensures var r := Sync(e, s, cands, now).0;
            var (again, no) := Sync(e, r, cands, later);
            !no && again.rows == r.rows && again.arev == r.arev && again.pts == r.pts
  {
    RoundIsOptimal(e, s, cands, now);
    Idle(e, Sync(e, s, cands, now).0, cands, later);
  }

  /** MAIN: whatever the first round was, the second with the same candidates is optimal and the third
      changes nothing: a track that changed its kind waits for one round at most. */
  lemma OptimalInTwo(e: Env, s: State, cands: seq<Cand>, n1: nat, n2: nat, n3: nat)
    requires TableOk(e, s.rows) && CandsDiffer(cands) && !Refuses(e, s, cands) && e.budget + 2 * FULL <= e.Limit()
    ensures var r1 := Sync(e, s, cands, n1).0;
            var (r2, no) := Sync(e, r1, cands, n2);
            var r3 := Sync(e, r2, cands, n3).0;
            !no && Optimal(e, r1.rows, r2.rows, cands) && r3.rows == r2.rows && r3.arev == r2.arev && r3.pts == r2.pts
  {
    var r1 := Sync(e, s, cands, n1).0;
    NextIsFree(e, s, cands, n1, n2);
    AllOrNothing(e, r1, cands, n2);
    RoundIsOptimal(e, r1, cands, n2);
    SecondRoundIdle(e, r1, cands, n2, n3);
  }

  // ---------------------------------------------------------------- a track on a row of the other kind

  /** Other targets do not put the key on an audio row. */
  lemma {:induction false} SkippedWhileOnVideo(e: Env, w: Work, waiting: map<nat, nat>, ts: seq<Cand>, key: Key, rev: nat, now: nat)
    requires IsLoaded(w.rows, Video, key) && !IsLoaded(w.rows, Audio, key)
    ensures var r := LoadFull(e, w, waiting, Audio, ts, rev, now).0; !IsLoaded(r.rows, Audio, key)
    decreases |ts|
  {
    if ts != [] {
      var c := ts[0];
      var i :| 0 <= i < |w.rows| && Holds(w.rows[i], Video, key);
      if OnFull(w.rows, c.key) {
        SkippedWhileOnVideo(e, w, waiting - {c.key.track}, ts[1..], key, rev, now);
      } else {
        var (v, n) := Place(e, w, Audio, c);
        assert Holds(v.rows[i], Video, key);
        assert c.key != key;
        if n.Some? {
          var x := LoadAt(v, n.value, c, rev, now);
          assert Holds(x.rows[i], Video, key);
          SkippedWhileOnVideo(e, x, waiting - {c.key.track}, ts[1..], key, rev, now);
        } else {
          SkippedWhileOnVideo(e, v, waiting, ts[1..], key, rev, now);
        }
      }
    }
  }

  lemma AudioPassSkips(e: Env, w: Work, waiting: map<nat, nat>, cands: seq<Cand>, key: Key, rev: nat, now: nat)
    requires FullDiffer(w.rows) && IsLoaded(w.rows, Video, key)
    ensures !IsLoaded(FullPass(e, w, waiting, cands, Audio, rev, now).0.rows, Audio, key)
  {
    var (next, t) := Chosen(w.rows, waiting, cands, Audio, rev, now);
    var left := UnloadOthers(next, Audio, t, rev);
    var i :| 0 <= i < |w.rows| && Holds(w.rows[i], Video, key);
    assert Holds(left[i], Video, key);
    forall j | 0 <= j < |left| ensures !Holds(left[j], Audio, key) { }
    SkippedWhileOnVideo(e, w.(rows := left), Waits(next, Audio, waiting, Desired(cands, Audio), now), t, key, rev, now);
  }
}
