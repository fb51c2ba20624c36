/** Whole rounds of the assignment table. */
module SubRounds {
  import opened Wrappers
  import opened SubTable
  import opened SubSlots
  import opened SubFull

  // ---------------------------------------------------------------- hypotheses

  /** Full candidates have a track each; slot candidates differ in room or kind. */
  ghost predicate CandsDiffer(cands: seq<Cand>) {
    && SlotsDiffer(cands)
    && forall i, j :: 0 <= i < j < |cands| && cands[i].class_.Full? && cands[j].class_.Full? ==> cands[i].key.track != cands[j].key.track
  }

  // ---------------------------------------------------------------- desired candidates

  lemma {:induction false} DesiredIs(cands: seq<Cand>, kind: Kind, c: Cand)
    ensures c in Desired(cands, kind) <==> c in cands && c.class_.Full? && c.kind == kind && !c.paused
  {
    if cands != [] {
      DesiredIs(cands[1..], kind, c);
      assert c in cands <==> c == cands[0] || c in cands[1..];
    }
  }

  lemma {:induction false} DesiredDiffer(cands: seq<Cand>, kind: Kind)
    requires CandsDiffer(cands)
    ensures TracksDiffer(Desired(cands, kind))
  {
    if cands != [] {
      var rest := cands[1..];
      assert CandsDiffer(rest) by { forall i | 0 <= i < |rest| ensures rest[i] == cands[i + 1] { } }
      DesiredDiffer(rest, kind);
      var d := Desired(rest, kind);
      forall j | 0 <= j < |d| && cands[0].class_.Full? ensures d[j].key.track != cands[0].key.track {
        DesiredIs(rest, kind, d[j]);
        assert d[j] in rest;
        var k :| 0 <= k < |rest| && rest[k] == d[j];
        assert cands[k + 1] == d[j];
      }
    }
  }

  /** Two full candidates with one track are one. */
  lemma OneCand(cands: seq<Cand>, a: Cand, b: Cand)
    requires CandsDiffer(cands) && a in cands && b in cands && a.class_.Full? && b.class_.Full? && a.key.track == b.key.track
    ensures a == b
  {
    var i :| 0 <= i < |cands| && cands[i] == a;
    var j :| 0 <= j < |cands| && cands[j] == b;
  }

  // ---------------------------------------------------------------- one pass

  /** The table had the track on a full row of the kind. */
  ghost predicate Had(rows: Rows, kind: Kind, track: nat) {
    exists i :: 0 <= i < |rows| && Busy(rows[i], kind) && rows[i].track.value.track == track
  }

  /** Following moved tracks changes rooms, not tracks, and after it a desired candidate is loaded
      exactly if its track was. */
  lemma RehomeLoads(rows: Rows, cands: seq<Cand>, kind: Kind, rev: nat, c: Cand)
    requires CandsDiffer(cands) && c in Desired(cands, kind)
    ensures IsLoaded(Rehome(rows, cands, kind, rev), kind, c.key) <==> Had(rows, kind, c.key.track)
  {
    var next := Rehome(rows, cands, kind, rev);
    DesiredIs(cands, kind, c);
    if IsLoaded(next, kind, c.key) {
      var i :| 0 <= i < |next| && Holds(next[i], kind, c.key);
      assert Busy(rows[i], kind) && rows[i].track.value.track == c.key.track;
    }
    if Had(rows, kind, c.key.track) {
      var i :| 0 <= i < |rows| && Busy(rows[i], kind) && rows[i].track.value.track == c.key.track;
      RehomedTo(rows[i], cands, kind, rev, c);
      assert Holds(next[i], kind, c.key);
    }
  }

  lemma {:induction false} MovedFinds(cands: seq<Cand>, kind: Kind, c: Cand)
    requires c in cands && c.class_.Full? && c.kind == kind && !c.paused
    ensures Moved(cands, kind, c.key.track).Some?
  {
    if cands[0] != c {
      assert c in cands[1..];
      MovedFinds(cands[1..], kind, c);
    }
  }

  lemma RehomedTo(r: Row, cands: seq<Cand>, kind: Kind, rev: nat, c: Cand)
    requires CandsDiffer(cands) && c in cands && c.class_.Full? && c.kind == kind && !c.paused
    requires Busy(r, kind) && r.track.value.track == c.key.track
    ensures Holds(RehomeIf(cands, kind, r, rev), kind, c.key)
  {
    MovedFinds(cands, kind, c);
    OneCand(cands, Moved(cands, kind, c.key.track).value, c);
    if Known(cands, r.track.value) {
      var k :| 0 <= k < |cands| && cands[k].class_.Full? && cands[k].key == r.track.value;
      OneCand(cands, cands[k], c);
    }
  }

  /** Rows other than full ones of the kind stay; new rows are full ones of the kind. */
  ghost predicate PassGrown(e: Env, a: Rows, b: Rows, kind: Kind) {
    && |a| <= |b|
    && (forall i :: 0 <= i < |a| ==> b[i].mid == a[i].mid && b[i].class_ == a[i].class_ && b[i].kind == a[i].kind)
    && (forall i :: 0 <= i < |a| && !IsFull(a[i], kind) ==> b[i] == a[i])
    && (forall i :: |a| <= i < |b| ==> IsFull(b[i], kind) && b[i].mid == e.Start() + i)
  }

  /** The rows with moved tracks followed and the chosen of the kind. */
  function Chosen(rows: Rows, waiting: map<nat, nat>, cands: seq<Cand>, kind: Kind, rev: nat, now: nat): (Rows, seq<Cand>) {
    var next := Rehome(rows, cands, kind, rev);
    var desired := Desired(cands, kind);
    (next, Target(next, kind, Waits(next, kind, waiting, desired, now), desired, now))
  }

  lemma PassReady(e: Env, rows: Rows, cands: seq<Cand>, kind: Kind, t: seq<Cand>, rev: nat)
    requires KindDiffer(rows, kind) && Count(rows, FullOf(kind)) <= FULL
    ensures var left := UnloadOthers(Rehome(rows, cands, kind, rev), kind, t, rev);
            && LoadOk(left, kind, t) && PassGrown(e, rows, left, kind)
            && (Slack(e, rows, kind) ==> Slack(e, left, kind))
  {
    var left := UnloadOthers(Rehome(rows, cands, kind, rev), kind, t, rev);
    forall i | 0 <= i < |rows| ensures LeftOf(rows[i], left[i], kind, t) { LeftRow(rows, cands, kind, t, rev, i); }
    CountSame(rows, left, FullOf(kind));
    LeftDiffer(rows, left, kind, t);
  }

  /** r is what is left of a row: a full one of the kind keeps its track or loses it. */
  ghost predicate LeftOf(a: Row, r: Row, kind: Kind, t: seq<Cand>) {
    && r.mid == a.mid && r.class_ == a.class_ && r.kind == a.kind && (!IsFull(a, kind) ==> r == a)
    && (Busy(r, kind) ==> Busy(a, kind) && a.track.value.track == r.track.value.track && Among(t, r.track.value))
  }

  lemma LeftRow(rows: Rows, cands: seq<Cand>, kind: Kind, t: seq<Cand>, rev: nat, i: nat)
    requires i < |rows|
    ensures LeftOf(rows[i], UnloadOthers(Rehome(rows, cands, kind, rev), kind, t, rev)[i], kind, t)
  {
  }

  lemma LeftDiffer(rows: Rows, left: Rows, kind: Kind, t: seq<Cand>)
    requires |left| == |rows| && KindDiffer(rows, kind) && forall i :: 0 <= i < |rows| ==> LeftOf(rows[i], left[i], kind, t)
    ensures KindDiffer(left, kind) && Within(left, kind, t)
  {
    forall i, j | 0 <= i < j < |left| && Busy(left[i], kind) && Busy(left[j], kind)
      ensures left[i].track.value.track != left[j].track.value.track
    {
      assert LeftOf(rows[i], left[i], kind, t) && LeftOf(rows[j], left[j], kind, t);
    }
  }

  lemma GrownPass(e: Env, a: Rows, b: Rows, c: Rows, kind: Kind)
    requires PassGrown(e, a, b, kind) && Grown(e, b, c, kind)
    ensures PassGrown(e, a, c, kind)
  {
  }

  lemma ChosenIsTop(rows: Rows, waiting: map<nat, nat>, cands: seq<Cand>, kind: Kind, rev: nat, now: nat)
    requires CandsDiffer(cands)
    ensures var (next, t) := Chosen(rows, waiting, cands, kind, rev, now);
            IsTop(t, Desired(cands, kind), Earlier(next, kind, Waits(next, kind, waiting, Desired(cands, kind), now), now))
  {
    var (next, desired) := (Rehome(rows, cands, kind, rev), Desired(cands, kind));
    DesiredDiffer(cands, kind);
    TargetIsTop(next, kind, Waits(next, kind, waiting, desired, now), desired, now);
  }

  /** The chosen are desired, and as many as fit. */
  lemma ChosenAre(rows: Rows, waiting: map<nat, nat>, cands: seq<Cand>, kind: Kind, rev: nat, now: nat)
    requires CandsDiffer(cands)
    ensures var t := Chosen(rows, waiting, cands, kind, rev, now).1;
            && (forall a :: a in t ==> a in Desired(cands, kind))
            && |t| == if |Desired(cands, kind)| <= FULL then |Desired(cands, kind)| else FULL
  {
    ChosenIsTop(rows, waiting, cands, kind, rev, now);
  }

  /** Only chosen ones are loaded after a pass; all of them, if there is slack and none was on a full
      row of the other kind. */
  lemma PassOk(e: Env, w: Work, waiting: map<nat, nat>, cands: seq<Cand>, kind: Kind, rev: nat, now: nat)
    requires KindDiffer(w.rows, kind) && Count(w.rows, FullOf(kind)) <= FULL && CandsDiffer(cands)
    ensures var r := FullPass(e, w, waiting, cands, kind, rev, now).0;
            var (next, t) := Chosen(w.rows, waiting, cands, kind, rev, now);
            && LoadOk(r.rows, kind, t) && PassGrown(e, w.rows, r.rows, kind)
            && IsTop(t, Desired(cands, kind), Earlier(next, kind, Waits(next, kind, waiting, Desired(cands, kind), now), now))
            && (Slack(e, w.rows, kind) && Clear(w.rows, kind, t) ==> forall c :: c in t ==> IsLoaded(r.rows, kind, c.key))
  {
    var (next, t) := Chosen(w.rows, waiting, cands, kind, rev, now);
    var waits := Waits(next, kind, waiting, Desired(cands, kind), now);
    ChosenIsTop(w.rows, waiting, cands, kind, rev, now);
    var left := w.(rows := UnloadOthers(next, kind, t, rev));
    PassReady(e, w.rows, cands, kind, t, rev);
    LoadFullOk(e, left, waits, kind, t, t, rev, now);
    var r := LoadFull(e, left, waits, kind, t, rev, now).0;
    GrownPass(e, w.rows, left.rows, r.rows, kind);
    if Slack(e, w.rows, kind) && Clear(w.rows, kind, t) {
      StillClear(e, w.rows, r.rows, kind, t);
      forall c | c in t ensures IsLoaded(r.rows, kind, c.key) { HeldByKind(r.rows, kind, t, c); }
    }
  }

  lemma StillClear(e: Env, a: Rows, b: Rows, kind: Kind, t: seq<Cand>)
    requires PassGrown(e, a, b, kind) && Clear(a, kind, t)
    ensures Clear(b, kind, t)
  {
    forall i | 0 <= i < |b| && b[i].class_.Full? && b[i].kind != kind && b[i].track.Some? ensures !Among(t, b[i].track.value) {
      assert b[i] == a[i];
    }
  }

  lemma ExactlyTargets(rows: Rows, kind: Kind, t: seq<Cand>)
    requires Within(rows, kind, t) && forall c :: c in t ==> IsLoaded(rows, kind, c.key)
    ensures forall key :: IsLoaded(rows, kind, key) <==> Among(t, key)
  {
    forall key ensures IsLoaded(rows, kind, key) <==> Among(t, key) {
      if Among(t, key) {
        var k :| 0 <= k < |t| && t[k].key == key;
        assert t[k] in t;
      }
    }
  }

  // ---------------------------------------------------------------- what a round leaves

  /** The best-ranked candidates of the kind are on rows, and no other track is: all if they fit,
      FULL otherwise; a tie goes to those whose track was on a row before. */
  ghost predicate TopOnRows(before: Rows, after: Rows, cands: seq<Cand>, kind: Kind) {
    var d := Desired(cands, kind);
    && (forall key :: IsLoaded(after, kind, key) ==> Among(d, key))
    && |Tracks(after, kind)| == (if |d| <= FULL then |d| else FULL)
    && (forall a, b :: a in d && b in d && IsLoaded(after, kind, a.key) && !IsLoaded(after, kind, b.key) ==>
          a.rank > b.rank || (a.rank == b.rank && (Had(before, kind, a.key.track) || !Had(before, kind, b.key.track))))
  }

  lemma TracksAre(rows: Rows, kind: Kind, t: seq<Cand>)
    requires forall key :: IsLoaded(rows, kind, key) <==> Among(t, key)
    ensures Tracks(rows, kind) == TrackSet(t)
  {
    forall n ensures n in Tracks(rows, kind) <==> n in TrackSet(t) {
      if n in Tracks(rows, kind) {
        var i :| 0 <= i < |rows| && IsFull(rows[i], kind) && rows[i].track.Some? && rows[i].track.value.track == n;
        assert IsLoaded(rows, kind, rows[i].track.value);
      }
      if n in TrackSet(t) {
        var k :| 0 <= k < |t| && t[k].key.track == n;
        assert IsLoaded(rows, kind, t[k].key);
      }
    }
  }

  lemma {:induction false} TrackSetExact(t: seq<Cand>)
    requires TracksDiffer(t)
    ensures |TrackSet(t)| == |t|
  {
    if t != [] {
      var rest := t[1..];
      forall i | 0 <= i < |rest| ensures rest[i] == t[i + 1] { }
      TrackSetExact(rest);
      assert TrackSet(t) == TrackSet(rest) + {t[0].key.track};
    }
  }

  /** What is loaded after a pass was desired. */
  lemma PassDesired(rows: Rows, kind: Kind, cands: seq<Cand>, t: seq<Cand>)
    requires Within(rows, kind, t) && forall a :: a in t ==> a in Desired(cands, kind)
    ensures Within(rows, kind, Desired(cands, kind))
  {
    var d := Desired(cands, kind);
    forall i | 0 <= i < |rows| && Busy(rows[i], kind) ensures Among(d, rows[i].track.value) {
      var k :| 0 <= k < |t| && t[k].key == rows[i].track.value;
      assert t[k] in t;
      var m :| 0 <= m < |d| && d[m] == t[k];
    }
  }

  lemma PassTop(e: Env, w: Work, waiting: map<nat, nat>, cands: seq<Cand>, kind: Kind, rev: nat, now: nat)
    requires KindDiffer(w.rows, kind) && Count(w.rows, FullOf(kind)) <= FULL && Slack(e, w.rows, kind) && CandsDiffer(cands)
    requires Clear(w.rows, kind, Chosen(w.rows, waiting, cands, kind, rev, now).1)
    ensures TopOnRows(w.rows, FullPass(e, w, waiting, cands, kind, rev, now).0.rows, cands, kind)
  {
    var r := FullPass(e, w, waiting, cands, kind, rev, now).0;
    var (next, t) := Chosen(w.rows, waiting, cands, kind, rev, now);
    PassOk(e, w, waiting, cands, kind, rev, now);
    ExactlyTargets(r.rows, kind, t);
    TracksAre(r.rows, kind, t);
    TrackSetExact(t);
    var d := Desired(cands, kind);
    PassDesired(r.rows, kind, cands, t);
    forall a, b | a in d && b in d && IsLoaded(r.rows, kind, a.key) && !IsLoaded(r.rows, kind, b.key)
      ensures a.rank > b.rank || (a.rank == b.rank && (Had(w.rows, kind, a.key.track) || !Had(w.rows, kind, b.key.track)))
    {
      ChosenBeats(w.rows, waiting, cands, kind, rev, now, a, b);
    }
  }

  lemma ChosenBeats(rows: Rows, waiting: map<nat, nat>, cands: seq<Cand>, kind: Kind, rev: nat, now: nat, a: Cand, b: Cand)
    requires CandsDiffer(cands) && a in Desired(cands, kind) && b in Desired(cands, kind)
    requires var (next, t) := Chosen(rows, waiting, cands, kind, rev, now);
             && Among(t, a.key) && !Among(t, b.key)
             && IsTop(t, Desired(cands, kind), Earlier(next, kind, Waits(next, kind, waiting, Desired(cands, kind), now), now))
    ensures a.rank > b.rank || (a.rank == b.rank && (Had(rows, kind, a.key.track) || !Had(rows, kind, b.key.track)))
  {
    var (next, t) := Chosen(rows, waiting, cands, kind, rev, now);
    var waits := Waits(next, kind, waiting, Desired(cands, kind), now);
    var k :| 0 <= k < |t| && t[k].key == a.key;
    DesiredIs(cands, kind, a);
    DesiredIs(cands, kind, t[k]);
    assert t[k] in t;
    OneCand(cands, a, t[k]);
    assert b !in t;
    assert !Before(next, kind, waits, now, b, a);
    LoadedAtIs(next, kind, a.key);
    LoadedAtIs(next, kind, b.key);
    RehomeLoads(rows, cands, kind, rev, a);
    RehomeLoads(rows, cands, kind, rev, b);
  }
}
