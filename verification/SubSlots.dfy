/** Slots: the count made beforehand is the number of rows really needed, so a round is
    refused before anything is touched or not at all, and every slot candidate gets one row. */
module SubSlots {
  import opened Wrappers
  import opened SubTable

  // ---------------------------------------------------------------- counting

  lemma {:induction false} CountSet(rows: Rows, i: nat, r: Row, p: Row -> bool)
    requires i < |rows| && p(r) == p(rows[i])
    ensures Count(rows[i := r], p) == Count(rows, p)
  {
    var now := rows[i := r];
    if i == 0 {
      assert now[1..] == rows[1..];
    } else {
      assert now[1..] == rows[1..][i - 1 := r];
      CountSet(rows[1..], i - 1, r, p);
    }
  }

  lemma {:induction false} CountAdd(rows: Rows, r: Row, p: Row -> bool)
    ensures Count(rows + [r], p) == Count(rows, p) + if p(r) then 1 else 0
  {
    if rows == [] {
      assert rows + [r] == [r] && [r][1..] == [];
    } else {
      assert (rows + [r])[1..] == rows[1..] + [r];
      CountAdd(rows[1..], r, p);
    }
  }

  lemma {:induction false} CountSame(a: Rows, b: Rows, p: Row -> bool)
    requires |a| == |b| && forall i :: 0 <= i < |a| ==> p(a[i]) == p(b[i])
    ensures Count(a, p) == Count(b, p)
  {
    if a != [] { CountSame(a[1..], b[1..], p); }
  }

  // ---------------------------------------------------------------- the count is right

  /** cur is what the rows of orig have become when those claimed, and new ones, are taken. */
  ghost predicate Follows(orig: Rows, cands: seq<Cand>, claimed: set<nat>, cur: Rows) {
    && |orig| <= |cur|
    && (forall i :: 0 <= i < |orig| ==>
          && cur[i].kind == orig[i].kind && cur[i].class_ == orig[i].class_ && cur[i].codec == orig[i].codec
          && (IsSlot(orig[i]) ==> (cur[i].track.None? <==> i !in claimed && (orig[i].track.None? || Unwanted(cands, orig[i])))))
    && (forall i :: |orig| <= i < |cur| ==> cur[i].track.Some?)
  }

  lemma FindAgrees(orig: Rows, cands: seq<Cand>, claimed: set<nat>, cur: Rows, c: Cand)
    requires Follows(orig, cands, claimed, cur)
    ensures Find(cur, (r: Row) => EmptySlotFor(r, c), 0) == FindClaimable(orig, cands, claimed, c, 0)
  {
    forall i | 0 <= i < |orig| ensures EmptySlotFor(cur[i], c) <==> Claimable(orig, cands, claimed, c, i) { }
    forall i | |orig| <= i < |cur| ensures !EmptySlotFor(cur[i], c) { }
  }

  lemma UnloadFollows(rows: Rows, cands: seq<Cand>, rev: nat)
    ensures Follows(rows, cands, {}, UnloadSlots(rows, cands, rev))
  {
  }

  /** Unloading what is unwanted serves and unserves nobody. */
  lemma ServedSame(rows: Rows, cands: seq<Cand>, rev: nat, c: Cand)
    requires c in cands && c.class_.Slot?
    ensures Served(UnloadSlots(rows, cands, rev), c) <==> Served(rows, c)
  {
    var base := UnloadSlots(rows, cands, rev);
    var k :| 0 <= k < |cands| && cands[k] == c;
    assert Wanted(cands, c.key.room, c.kind);
    forall i | 0 <= i < |rows| ensures OnSlot(base[i], c.kind, c.key.room) <==> OnSlot(rows[i], c.kind, c.key.room) { }
  }

  predicate Room(e: Env, rows: Rows, n: nat) { n > 0 ==> Count(rows, IsSlot) + n <= e.budget && |rows| + n <= e.Limit() }

  lemma ClaimFollows(orig: Rows, cands: seq<Cand>, claimed: set<nat>, w: Work, i: nat, c: Cand, rev: nat, now: nat)
    requires Follows(orig, cands, claimed, w.rows) && i < |orig| && IsSlot(orig[i])
    ensures Follows(orig, cands, claimed + {i}, LoadAt(w, i, c, rev, now).rows)
    ensures Count(LoadAt(w, i, c, rev, now).rows, IsSlot) == Count(w.rows, IsSlot)
  {
    CountSet(w.rows, i, LoadRow(w.rows[i], c, rev, now), IsSlot);
  }

  lemma GrowFollows(e: Env, orig: Rows, cands: seq<Cand>, claimed: set<nat>, w: Work, c: Cand, rev: nat, now: nat)
    requires Follows(orig, cands, claimed, w.rows)
    ensures var v := LoadAt(AddRow(e, w, c.kind, Slot, c.codec), |w.rows|, c, rev, now);
            && Follows(orig, cands, claimed, v.rows)
            && |v.rows| == |w.rows| + 1 && Count(v.rows, IsSlot) == Count(w.rows, IsSlot) + 1
  {
    var a := AddRow(e, w, c.kind, Slot, c.codec);
    CountAdd(w.rows, a.rows[|w.rows|], IsSlot);
    CountSet(a.rows, |w.rows|, LoadRow(a.rows[|w.rows|], c, rev, now), IsSlot);
  }

  lemma {:induction false} NeverRefused(e: Env, orig: Rows, base: Rows, cands: seq<Cand>, claimed: set<nat>, w: Work,
                                        cs: seq<Cand>, rev: nat, now: nat)
    requires Follows(orig, cands, claimed, w.rows) && Room(e, w.rows, FreshSlots(orig, cands, cs, claimed))
    requires forall c :: c in cs && c.class_.Slot? ==> (Served(base, c) <==> Served(orig, c))
    ensures var (r, no) := LoadSlots(e, base, w, cs, rev, now);
            && !no && |r.rows| == |w.rows| + FreshSlots(orig, cands, cs, claimed)
            && Count(r.rows, IsSlot) == Count(w.rows, IsSlot) + FreshSlots(orig, cands, cs, claimed)
    decreases |cs|
  {
    if cs != [] {
      var c := cs[0];
      assert c in cs;
      if !c.class_.Slot? || Served(base, c) {
        NeverRefused(e, orig, base, cands, claimed, w, cs[1..], rev, now);
      } else {
        FindAgrees(orig, cands, claimed, w.rows, c);
        match FindClaimable(orig, cands, claimed, c, 0) {
          case Some(i) =>
            ClaimFollows(orig, cands, claimed, w, i, c, rev, now);
            NeverRefused(e, orig, base, cands, claimed + {i}, LoadAt(w, i, c, rev, now), cs[1..], rev, now);
          case None =>
            var v := LoadAt(AddRow(e, w, c.kind, Slot, c.codec), |w.rows|, c, rev, now);
            GrowFollows(e, orig, cands, claimed, w, c, rev, now);
            NeverRefused(e, orig, base, cands, claimed, v, cs[1..], rev, now);
        }
      }
    }
  }

  /** MAIN: a round is refused if and only if the count made beforehand exceeds a limit, and then
      nothing has changed; the refusal inside the loop never happens. */
  lemma AllOrNothing(e: Env, s: State, cands: seq<Cand>, now: nat)
    ensures Sync(e, s, cands, now).1 <==> Refuses(e, s, cands)
    ensures Sync(e, s, cands, now).1 ==> Sync(e, s, cands, now).0 == s
  {
    if !Refuses(e, s, cands) {
      var rev := s.arev + 1;
      var base := UnloadSlots(s.rows, cands, rev);
      UnloadFollows(s.rows, cands, rev);
      CountSame(s.rows, base, IsSlot);
      forall c | c in cands && c.class_.Slot? ensures Served(base, c) <==> Served(s.rows, c) { ServedSame(s.rows, cands, rev, c); }
      NeverRefused(e, s.rows, base, cands, {}, Work(base, s.pts), cands, rev, now);
    }
  }

  // ---------------------------------------------------------------- every slot candidate once

  /** No two slot rows serve the same room with the same kind. */
  ghost predicate SlotsUnique(rows: Rows) {
    forall i, j, k, m :: 0 <= i < j < |rows| ==> !(OnSlot(rows[i], k, m) && OnSlot(rows[j], k, m))
  }

  /** No two slot candidates are for the same room and kind. */
  ghost predicate SlotsDiffer(cs: seq<Cand>) {
    forall i, j :: 0 <= i < j < |cs| && cs[i].class_.Slot? && cs[j].class_.Slot? ==>
      cs[i].key.room != cs[j].key.room || cs[i].kind != cs[j].kind
  }

  ghost predicate AllWanted(cands: seq<Cand>, rows: Rows) { forall i :: 0 <= i < |rows| ==> !Unwanted(cands, rows[i]) }

  /** Loading c into an empty slot row at i, or a new one. */
  lemma LoadServes(w: Work, i: nat, c: Cand, rev: nat, now: nat)
    requires i < |w.rows| && IsSlot(w.rows[i]) && w.rows[i].kind == c.kind && w.rows[i].track.None?
    requires SlotsUnique(w.rows) && !Served(w.rows, c)
    ensures var v := LoadAt(w, i, c, rev, now);
            && SlotsUnique(v.rows)
            && forall d: Cand :: Served(v.rows, d) <==> Served(w.rows, d) || (d.kind == c.kind && d.key.room == c.key.room)
  {
    var v := LoadAt(w, i, c, rev, now);
    forall j | 0 <= j < |w.rows| && j != i ensures v.rows[j] == w.rows[j] && !OnSlot(w.rows[j], c.kind, c.key.room) { }
    assert OnSlot(v.rows[i], c.kind, c.key.room);
    forall d: Cand ensures Served(v.rows, d) <==> Served(w.rows, d) || (d.kind == c.kind && d.key.room == c.key.room) {
      if Served(w.rows, d) {
        var j :| 0 <= j < |w.rows| && OnSlot(w.rows[j], d.kind, d.key.room);
        assert OnSlot(v.rows[j], d.kind, d.key.room);
      }
    }
  }

  lemma AddServes(e: Env, w: Work, kind: Kind, codec: Codec)
    requires SlotsUnique(w.rows)
    ensures var v := AddRow(e, w, kind, Slot, codec);
            && SlotsUnique(v.rows)
            && forall d: Cand :: Served(v.rows, d) <==> Served(w.rows, d)
  {
    var v := AddRow(e, w, kind, Slot, codec);
    forall j | 0 <= j < |w.rows| ensures v.rows[j] == w.rows[j] { }
    forall d: Cand ensures Served(v.rows, d) <==> Served(w.rows, d) {
      if Served(w.rows, d) {
        var j :| 0 <= j < |w.rows| && OnSlot(w.rows[j], d.kind, d.key.room);
        assert OnSlot(v.rows[j], d.kind, d.key.room);
      }
    }
  }

  /** The row that the next slot candidate gets, loaded. */
  function Taken(e: Env, w: Work, c: Cand, rev: nat, now: nat): Work {
    match Find(w.rows, (r: Row) => EmptySlotFor(r, c), 0)
    case Some(i) => LoadAt(w, i, c, rev, now)
    case None => LoadAt(AddRow(e, w, c.kind, Slot, c.codec), |w.rows|, c, rev, now)
  }

  lemma TakenServes(e: Env, w: Work, c: Cand, rev: nat, now: nat)
    requires SlotsUnique(w.rows) && !Served(w.rows, c)
    ensures var v := Taken(e, w, c, rev, now);
            && SlotsUnique(v.rows)
            && forall d: Cand :: Served(v.rows, d) <==> Served(w.rows, d) || (d.kind == c.kind && d.key.room == c.key.room)
  {
    match Find(w.rows, (r: Row) => EmptySlotFor(r, c), 0)
    case Some(i) => LoadServes(w, i, c, rev, now);
    case None =>
      AddServes(e, w, c.kind, c.codec);
      LoadServes(AddRow(e, w, c.kind, Slot, c.codec), |w.rows|, c, rev, now);
  }

  lemma {:induction false} SlotsFill(e: Env, base: Rows, w: Work, cs: seq<Cand>, rev: nat, now: nat)
    requires SlotsUnique(w.rows) && SlotsDiffer(cs) && !LoadSlots(e, base, w, cs, rev, now).1
    requires forall c :: c in cs && c.class_.Slot? ==> (Served(base, c) <==> Served(w.rows, c))
    ensures var r := LoadSlots(e, base, w, cs, rev, now).0;
            && SlotsUnique(r.rows)
            && (forall d: Cand ::
                  Served(r.rows, d) <==>
                  Served(w.rows, d) || exists c :: c in cs && c.class_.Slot? && c.kind == d.kind && c.key.room == d.key.room)
    decreases |cs|
  {
    if cs != [] {
      var c := cs[0];
      assert c in cs;
      var skip := !c.class_.Slot? || Served(base, c);
      var v := if skip then w else Taken(e, w, c, rev, now);
      if !skip { TakenServes(e, w, c, rev, now); }
      forall d | d in cs[1..] && d.class_.Slot? ensures Served(base, d) <==> Served(v.rows, d) {
        assert d in cs;
        var k :| 0 <= k < |cs| - 1 && cs[1..][k] == d;
        assert cs[k + 1] == d;
      }
      SlotsFill(e, base, v, cs[1..], rev, now);
      var r := LoadSlots(e, base, w, cs, rev, now).0;
      assert r == LoadSlots(e, base, v, cs[1..], rev, now).0;
      forall d: Cand
        ensures Served(r.rows, d) <==>
                Served(w.rows, d) || exists x :: x in cs && x.class_.Slot? && x.kind == d.kind && x.key.room == d.key.room
      {
        if exists x :: x in cs[1..] && x.class_.Slot? && x.kind == d.kind && x.key.room == d.key.room {
          var x :| x in cs[1..] && x.class_.Slot? && x.kind == d.kind && x.key.room == d.key.room;
          assert x in cs;
        }
        if x :| x in cs && x.class_.Slot? && x.kind == d.kind && x.key.room == d.key.room {
          assert x == c || x in cs[1..];
        }
      }
    }
  }

  /** The slot part of a round touches slot rows only and adds slot rows only. */
  ghost predicate SlotGrown(e: Env, a: Rows, b: Rows) {
    && |a| <= |b|
    && (forall i :: 0 <= i < |a| ==> b[i].mid == a[i].mid && b[i].class_ == a[i].class_ && b[i].kind == a[i].kind)
    && (forall i :: 0 <= i < |a| && !IsSlot(a[i]) ==> b[i] == a[i])
    && (forall i :: |a| <= i < |b| ==> IsSlot(b[i]) && b[i].mid == e.Start() + i)
  }

  lemma {:induction false} LoadSlotsGrow(e: Env, base: Rows, w: Work, cands: seq<Cand>, cs: seq<Cand>, rev: nat, now: nat)
    requires AllWanted(cands, w.rows) && forall c :: c in cs ==> c in cands
    ensures var r := LoadSlots(e, base, w, cs, rev, now).0; SlotGrown(e, w.rows, r.rows) && AllWanted(cands, r.rows)
    decreases |cs|
  {
    if cs != [] {
      var c := cs[0];
      assert c in cs;
      if !c.class_.Slot? || Served(base, c) {
        LoadSlotsGrow(e, base, w, cands, cs[1..], rev, now);
      } else if Find(w.rows, (r: Row) => EmptySlotFor(r, c), 0).Some? || (Count(w.rows, IsSlot) < e.budget && |w.rows| < e.Limit()) {
        var v := Taken(e, w, c, rev, now);
        TakenGrows(e, w, cands, c, rev, now);
        LoadSlotsGrow(e, base, v, cands, cs[1..], rev, now);
        SlotGrownTwice(e, w.rows, v.rows, LoadSlots(e, base, v, cs[1..], rev, now).0.rows);
      }
    }
  }

  lemma SlotGrownTwice(e: Env, a: Rows, b: Rows, c: Rows)
    requires SlotGrown(e, a, b) && SlotGrown(e, b, c)
    ensures SlotGrown(e, a, c)
  {
  }

  lemma TakenGrows(e: Env, w: Work, cands: seq<Cand>, c: Cand, rev: nat, now: nat)
    requires AllWanted(cands, w.rows) && c in cands && c.class_.Slot?
    ensures SlotGrown(e, w.rows, Taken(e, w, c, rev, now).rows) && AllWanted(cands, Taken(e, w, c, rev, now).rows)
  {
    var k :| 0 <= k < |cands| && cands[k] == c;
    assert Wanted(cands, c.key.room, c.kind);
    var v := Taken(e, w, c, rev, now);
    forall i | 0 <= i < |v.rows| ensures !Unwanted(cands, v.rows[i]) {
      if i < |w.rows| && v.rows[i] == w.rows[i] { assert !Unwanted(cands, w.rows[i]); }
    }
  }
}
