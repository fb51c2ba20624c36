/** What is on the rows after a round, row by row: tracks that stayed, tracks that moved with their room, and
    candidates that a row like them was given to. */
module SubCodecs {
  import opened Wrappers
  import opened SubTable
  import opened SubSync
  import SubPts
  import G = SubAck

  // ---------------------------------------------------------------- one row

  /** A candidate was put on a row of its kind, class and codec, now. */
  ghost predicate Brought(r: Row, cands: seq<Cand>, rev: nat, now: nat) {
    r.track.Some? && r.since == rev && r.loadedAt == now && !r.active
    && exists c :: c in cands && c.key == r.track.value && c.kind == r.kind && c.class_ == r.class_ && c.codec == r.codec
  }

  /** The track is still there, in the same room or in that of a candidate it moved to, and nothing else changed. */
  ghost predicate Stayed(a: Row, b: Row, cands: seq<Cand>, rev: nat) {
    && a.track.Some? && b.track.Some? && b.track.value.track == a.track.value.track
    && (b == a || (b == a.(track := b.track, since := rev) && exists c :: c in cands && c.class_.Full? && c.key == b.track.value))
  }

  ghost predicate RowOk(a: Rows, b: Rows, i: nat, cands: seq<Cand>, rev: nat, now: nat)
    requires i < |b|
  {
    if b[i].track.Some? then (i < |a| && Stayed(a[i], b[i], cands, rev)) || Brought(b[i], cands, rev, now)
    else i < |a| && Emptied(a[i], b[i], rev)
  }

  /** A row without a track is as it was, or its track was taken down, which closes it. */
  predicate Emptied(a: Row, b: Row, rev: nat) {
    b.track.None? && (b == a || (a.track.Some? && b == a.(track := None, since := rev, active := false)))
  }

  ghost predicate RowsOk(a: Rows, b: Rows, cands: seq<Cand>, rev: nat, now: nat) {
    forall i :: 0 <= i < |b| ==> RowOk(a, b, i, cands, rev, now)
  }

  // ---------------------------------------------------------------- putting up

  /** Rows are as they were, or were empty or not there, and a candidate was put on them. */
  ghost predicate Loads(a: Rows, b: Rows, q: Row -> bool, cands: seq<Cand>, rev: nat, now: nat) {
    && |a| <= |b|
    && forall i :: 0 <= i < |b| ==> LoadsAt(a, b, i, q, cands, rev, now)
  }

  ghost predicate LoadsAt(a: Rows, b: Rows, i: nat, q: Row -> bool, cands: seq<Cand>, rev: nat, now: nat)
    requires i < |b|
  {
    || (i < |a| && b[i] == a[i])
    || (q(b[i]) && (i < |a| ==> q(a[i]) && a[i].track.None?) && Brought(b[i], cands, rev, now))
  }

  lemma LoadsTwice(a: Rows, b: Rows, c: Rows, q: Row -> bool, cands: seq<Cand>, rev: nat, now: nat)
    requires Loads(a, b, q, cands, rev, now) && Loads(b, c, q, cands, rev, now)
    ensures Loads(a, c, q, cands, rev, now)
  {
    forall i | 0 <= i < |c| ensures LoadsAt(a, c, i, q, cands, rev, now) {
      assert LoadsAt(b, c, i, q, cands, rev, now);
      if i < |b| { assert LoadsAt(a, b, i, q, cands, rev, now); }
    }
  }

  lemma LoadsNothing(a: Rows, q: Row -> bool, cands: seq<Cand>, rev: nat, now: nat)
    ensures Loads(a, a, q, cands, rev, now)
  {
    forall i | 0 <= i < |a| ensures LoadsAt(a, a, i, q, cands, rev, now) { }
  }

  /** One row changes: to candidate c, and it has c's kind, class and codec. */
  lemma LoadsOne(a: Rows, b: Rows, k: nat, q: Row -> bool, c: Cand, cands: seq<Cand>, rev: nat, now: nat)
    requires k < |b| && |a| <= |b| <= |a| + 1 && (|b| > |a| ==> k == |a|) && (forall i :: 0 <= i < |a| && i != k ==> b[i] == a[i])
    requires k < |a| ==> q(a[k]) && a[k].track.None?
    requires q(b[k]) && b[k].track == Some(c.key) && b[k].since == rev && b[k].loadedAt == now && !b[k].active
    requires c in cands && b[k].kind == c.kind && b[k].class_ == c.class_ && b[k].codec == c.codec
    ensures Loads(a, b, q, cands, rev, now)
  {
    forall i | 0 <= i < |b| ensures LoadsAt(a, b, i, q, cands, rev, now) { }
  }

  lemma {:induction false} SlotsLoad(e: Env, base: Rows, w: Work, cs: seq<Cand>, cands: seq<Cand>, rev: nat, now: nat)
    requires forall c :: c in cs ==> c in cands
    ensures Loads(w.rows, LoadSlots(e, base, w, cs, rev, now).0.rows, IsSlot, cands, rev, now)
    decreases |cs|
  {
    if cs == [] {
      LoadsNothing(w.rows, IsSlot, cands, rev, now);
    } else {
      var c := cs[0];
      if !c.class_.Slot? || Served(base, c) {
        SlotsLoad(e, base, w, cs[1..], cands, rev, now);
      } else {
        var i := Find(w.rows, (r: Row) => EmptySlotFor(r, c), 0);
        if i.Some? {
          SlotTaken(w, LoadAt(w, i.value, c, rev, now), i.value, c, cands, rev, now);
          SlotsLoad(e, base, LoadAt(w, i.value, c, rev, now), cs[1..], cands, rev, now);
          LoadsTwice(w.rows, LoadAt(w, i.value, c, rev, now).rows, LoadSlots(e, base, w, cs, rev, now).0.rows, IsSlot, cands, rev, now);
        } else if Count(w.rows, IsSlot) >= e.budget || |w.rows| >= e.Limit() {
          LoadsNothing(w.rows, IsSlot, cands, rev, now);
        } else {
          var v := LoadAt(AddRow(e, w, c.kind, Slot, c.codec), |w.rows|, c, rev, now);
          LoadsOne(w.rows, v.rows, |w.rows|, IsSlot, c, cands, rev, now);
          SlotsLoad(e, base, v, cs[1..], cands, rev, now);
          LoadsTwice(w.rows, v.rows, LoadSlots(e, base, w, cs, rev, now).0.rows, IsSlot, cands, rev, now);
        }
      }
    }
  }

  lemma SlotTaken(w: Work, v: Work, i: nat, c: Cand, cands: seq<Cand>, rev: nat, now: nat)
    requires i < |w.rows| && EmptySlotFor(w.rows[i], c) && c.class_.Slot? && c in cands && v == LoadAt(w, i, c, rev, now)
    ensures Loads(w.rows, v.rows, IsSlot, cands, rev, now)
  {
    LoadsOne(w.rows, v.rows, i, IsSlot, c, cands, rev, now);
  }

  /** The row that is found, added or retuned for a full candidate is like it. */
  lemma PlaceLoads(e: Env, w: Work, kind: Kind, c: Cand, cands: seq<Cand>, rev: nat, now: nat)
    requires c in cands && c.kind == kind && c.class_.Full?
    ensures var (v, i) := Place(e, w, kind, c);
            Loads(w.rows, (if i.Some? then LoadAt(v, i.value, c, rev, now) else v).rows, FullOf(kind), cands, rev, now)
  {
    var (v, i) := Place(e, w, kind, c);
    if i.None? {
      LoadsNothing(w.rows, FullOf(kind), cands, rev, now);
    } else {
      LoadsOne(w.rows, LoadAt(v, i.value, c, rev, now).rows, i.value, FullOf(kind), c, cands, rev, now);
    }
  }

  lemma {:induction false} FullLoads(e: Env, w: Work, waiting: map<nat, nat>, kind: Kind, ts: seq<Cand>, cands: seq<Cand>,
                                     rev: nat, now: nat)
    requires forall c :: c in ts ==> c in cands && c.kind == kind && c.class_.Full?
    ensures Loads(w.rows, LoadFull(e, w, waiting, kind, ts, rev, now).0.rows, FullOf(kind), cands, rev, now)
    decreases |ts|
  {
    if ts == [] {
      LoadsNothing(w.rows, FullOf(kind), cands, rev, now);
    } else {
      var c := ts[0];
      if OnFull(w.rows, c.key) {
        FullLoads(e, w, waiting - {c.key.track}, kind, ts[1..], cands, rev, now);
      } else {
        var (v, i) := Place(e, w, kind, c);
        PlaceLoads(e, w, kind, c, cands, rev, now);
        var x := if i.Some? then LoadAt(v, i.value, c, rev, now) else v;
        var left := if i.Some? then waiting - {c.key.track} else waiting;
        FullLoads(e, x, left, kind, ts[1..], cands, rev, now);
        LoadsTwice(w.rows, x.rows, LoadFull(e, x, left, kind, ts[1..], rev, now).0.rows, FullOf(kind), cands, rev, now);
      }
    }
  }

  // ---------------------------------------------------------------- one part of a round

  /** A part of a round: rows outside q are as they were, those inside are in order, new ones are inside. */
  ghost predicate PartOk(a: Rows, b: Rows, q: Row -> bool, cands: seq<Cand>, rev: nat, now: nat) {
    Untouched(a, b, q) && RowsOk(a, b, cands, rev, now)
  }

  /** Rows were taken down or moved with their track, then candidates put up. */
  lemma Prepared(a: Rows, b: Rows, c: Rows, q: Row -> bool, cands: seq<Cand>, rev: nat, now: nat)
    requires |a| == |b| && Loads(b, c, q, cands, rev, now)
    requires forall i :: 0 <= i < |a| ==> q(b[i]) == q(a[i]) && (!q(a[i]) ==> b[i] == a[i])
    requires forall i :: 0 <= i < |a| ==> if b[i].track.Some? then Stayed(a[i], b[i], cands, rev) else Emptied(a[i], b[i], rev)
    ensures PartOk(a, c, q, cands, rev, now)
  {
    forall i | 0 <= i < |c| ensures RowOk(a, c, i, cands, rev, now) { assert LoadsAt(b, c, i, q, cands, rev, now); }
    forall i | 0 <= i < |a| ensures q(c[i]) == q(a[i]) && (!q(a[i]) ==> c[i] == a[i]) { assert LoadsAt(b, c, i, q, cands, rev, now); }
    forall i | |a| <= i < |c| ensures q(c[i]) { assert LoadsAt(b, c, i, q, cands, rev, now); }
  }

  lemma SlotPartRows(e: Env, s: State, cands: seq<Cand>, now: nat)
    ensures PartOk(s.rows, SlotPart(e, s, cands, now).0.rows, IsSlot, cands, s.arev + 1, now)
  {
    var rev := s.arev + 1;
    var base := UnloadSlots(s.rows, cands, rev);
    SlotsLoad(e, base, Work(base, s.pts), cands, cands, rev, now);
    Prepared(s.rows, base, SlotPart(e, s, cands, now).0.rows, IsSlot, cands, rev, now);
  }

  lemma RehomedStayed(rows: Rows, cands: seq<Cand>, kind: Kind, target: seq<Cand>, rev: nat)
    ensures var b := UnloadOthers(Rehome(rows, cands, kind, rev), kind, target, rev);
            && |b| == |rows|
            && (forall i :: 0 <= i < |rows| ==> FullOf(kind)(b[i]) == FullOf(kind)(rows[i]) && (!FullOf(kind)(rows[i]) ==> b[i] == rows[i]))
            && (forall i :: 0 <= i < |rows| ==> if b[i].track.Some? then Stayed(rows[i], b[i], cands, rev) else Emptied(rows[i], b[i], rev))
  {
    var next := Rehome(rows, cands, kind, rev);
    var b := UnloadOthers(next, kind, target, rev);
    forall i | 0 <= i < |rows| ensures if b[i].track.Some? then Stayed(rows[i], b[i], cands, rev) else Emptied(rows[i], b[i], rev) {
      UnloadedRow(rows[i], next[i], b[i], cands, kind, rev);
    }
  }

  lemma UnloadedRow(a: Row, n: Row, b: Row, cands: seq<Cand>, kind: Kind, rev: nat)
    requires n == RehomeIf(cands, kind, a, rev) && (b == n || b == UnloadRow(n, rev))
    ensures if b.track.Some? then Stayed(a, b, cands, rev) else Emptied(a, b, rev)
  {
  }

  lemma {:induction false} DesiredAre(cands: seq<Cand>, kind: Kind)
    ensures forall c :: c in Desired(cands, kind) ==> c in cands && c.kind == kind && c.class_.Full? && !c.paused
  {
    if cands != [] { DesiredAre(cands[1..], kind); }
  }

  lemma {:induction false} InsertedAre(c: Cand, s: seq<Cand>, lt: (Cand, Cand) -> bool)
    ensures forall x :: x in Insert(c, s, lt) ==> x == c || x in s
  {
    if s != [] { InsertedAre(c, s[1..], lt); }
  }

  lemma {:induction false} SortedAre(s: seq<Cand>, lt: (Cand, Cand) -> bool)
    ensures forall x :: x in Sort(s, lt) ==> x in s
  {
    if s != [] {
      SortedAre(s[..|s| - 1], lt);
      InsertedAre(s[|s| - 1], Sort(s[..|s| - 1], lt), lt);
    }
  }

  lemma TargetsAre(rows: Rows, kind: Kind, waiting: map<nat, nat>, cands: seq<Cand>, now: nat)
    ensures forall c :: c in Target(rows, kind, waiting, Desired(cands, kind), now) ==> c in cands && c.kind == kind && c.class_.Full?
  {
    DesiredAre(cands, kind);
    SortedAre(Desired(cands, kind), Earlier(rows, kind, waiting, now));
  }

  lemma PassRows(e: Env, w: Work, waiting: map<nat, nat>, cands: seq<Cand>, kind: Kind, rev: nat, now: nat)
    ensures PartOk(w.rows, FullPass(e, w, waiting, cands, kind, rev, now).0.rows, FullOf(kind), cands, rev, now)
  {
    var rows := Rehome(w.rows, cands, kind, rev);
    var waits := Waits(rows, kind, waiting, Desired(cands, kind), now);
    var target := Target(rows, kind, waits, Desired(cands, kind), now);
    var v := w.(rows := UnloadOthers(rows, kind, target, rev));
    TargetsAre(rows, kind, waits, cands, now);
    FullLoads(e, v, waits, kind, target, cands, rev, now);
    RehomedStayed(w.rows, cands, kind, target, rev);
    Prepared(w.rows, v.rows, LoadFull(e, v, waits, kind, target, rev, now).0.rows, FullOf(kind), cands, rev, now);
    assert FullPass(e, w, waiting, cands, kind, rev, now) == LoadFull(e, v, waits, kind, target, rev, now);
  }

  // ---------------------------------------------------------------- a round

  /** Two parts about different rows. */
  lemma TwoParts(a: Rows, b: Rows, c: Rows, p: Row -> bool, q: Row -> bool, cands: seq<Cand>, rev: nat, now: nat)
    requires PartOk(a, b, p, cands, rev, now) && PartOk(b, c, q, cands, rev, now) && forall r :: !(p(r) && q(r))
    ensures RowsOk(a, c, cands, rev, now) && PartOk(a, c, (r: Row) => p(r) || q(r), cands, rev, now)
  {
    forall i | 0 <= i < |c| ensures RowOk(a, c, i, cands, rev, now) {
      assert RowOk(b, c, i, cands, rev, now);
      if i < |b| {
        assert RowOk(a, b, i, cands, rev, now);
        if q(b[i]) { assert !p(b[i]); }
      }
    }
  }

  lemma AssignRows(e: Env, s: State, cands: seq<Cand>, now: nat)
    ensures RowsOk(s.rows, Assign(e, s, cands, now).0.rows, cands, s.arev + 1, now)
  {
    var (w, no) := SlotPart(e, s, cands, now);
    var rev := s.arev + 1;
    SlotPartRows(e, s, cands, now);
    if no {
      SubPts.AssignRefused(e, s, cands, now, w);
    } else {
      var (a, wa) := FullPass(e, w, s.waiting, cands, Audio, rev, now);
      var (v, left) := FullPass(e, a, wa, cands, Video, rev, now);
      PassRows(e, w, s.waiting, cands, Audio, rev, now);
      PassRows(e, a, wa, cands, Video, rev, now);
      AssignIs(e, s, cands, now, w, v, left);
      ThreeParts(s.rows, w.rows, a.rows, v.rows, cands, rev, now);
    }
  }

  lemma ThreeParts(r0: Rows, r1: Rows, r2: Rows, r3: Rows, cands: seq<Cand>, rev: nat, now: nat)
    requires PartOk(r0, r1, IsSlot, cands, rev, now)
    requires PartOk(r1, r2, FullOf(Audio), cands, rev, now) && PartOk(r2, r3, FullOf(Video), cands, rev, now)
    ensures RowsOk(r0, r3, cands, rev, now)
  {
    TwoParts(r1, r2, r3, FullOf(Audio), FullOf(Video), cands, rev, now);
    TwoParts(r0, r1, r3, IsSlot, (r: Row) => FullOf(Audio)(r) || FullOf(Video)(r), cands, rev, now);
  }

  lemma SameRows(a: Rows, b: Rows, cands: seq<Cand>, rev: nat, now: nat)
    requires a == b
    ensures RowsOk(a, b, cands, rev, now)
  {
    forall i | 0 <= i < |b| ensures RowOk(a, b, i, cands, rev, now) { }
  }

  /** MAIN: after any round, every row that carries a track either carried it before and is unchanged, but for the
      room and revision if the track moved to the room of a candidate; or was given in this round to a candidate of
      its kind, class and codec, from now on and not yet active. Every other row is as it was, or was closed in this
      round when its track was taken down. */
  lemma RowsAreFitting(e: Env, s: State, cands: seq<Cand>, now: nat)
    ensures RowsOk(s.rows, Sync(e, s, cands, now).0.rows, cands, s.arev + 1, now)
  {
    if Refuses(e, s, cands) {
      SameRows(s.rows, s.rows, cands, s.arev + 1, now);
    } else {
      AssignRows(e, s, cands, now);
      G.ClosedIs(e, s, cands, now);
    }
  }

  // ---------------------------------------------------------------- runs

  /** Every candidate has the codec that the catalogue has for its track. */
  ghost predicate CodecsHold(cands: seq<Cand>, codecOf: nat -> Codec) {
    forall c :: c in cands ==> c.codec == codecOf(c.key.track)
  }

  ghost predicate OnRight(rows: Rows, codecOf: nat -> Codec) {
    forall i :: 0 <= i < |rows| && rows[i].track.Some? ==> rows[i].codec == codecOf(rows[i].track.value.track)
  }

  ghost predicate AllHold(es: seq<G.Event>, codecOf: nat -> Codec) {
    forall ev :: ev in es && ev.DoRound? ==> CodecsHold(ev.cands, codecOf)
  }

  lemma RoundOnRight(e: Env, s: State, cands: seq<Cand>, now: nat, codecOf: nat -> Codec)
    requires OnRight(s.rows, codecOf) && CodecsHold(cands, codecOf)
    ensures OnRight(Sync(e, s, cands, now).0.rows, codecOf)
  {
    RowsAreFitting(e, s, cands, now);
    var r := Sync(e, s, cands, now).0.rows;
    forall i | 0 <= i < |r| && r[i].track.Some? ensures r[i].codec == codecOf(r[i].track.value.track) {
      assert RowOk(s.rows, r, i, cands, s.arev + 1, now);
    }
  }

  lemma {:induction false} RunOnRight(e: Env, g: G.Gate, es: seq<G.Event>, codecOf: nat -> Codec)
    requires OnRight(g.s.rows, codecOf) && AllHold(es, codecOf)
    ensures OnRight(G.Run(e, g, es).s.rows, codecOf)
    decreases |es|
  {
    if es != [] {
      assert es[0] in es;
      if es[0].DoRound? { RoundOnRight(e, g.s, es[0].cands, es[0].now, codecOf); }
      RunOnRight(e, G.Step(e, g, es[0]), es[1..], codecOf);
    }
  }

  /** MAIN: for every offer and every catalogue in which a track has one codec, in every run every track is on a row
      of its codec, with the payload types that the offer or the table has for that kind and codec. */
  lemma TracksAreOnTheirCodec(twoPc: bool, budget: nat, offer: seq<Offered>, es: seq<G.Event>, codecOf: nat -> Codec)
    requires AllHold(es, codecOf)
    ensures var (e, seeds) := (Env(twoPc, budget, ReservedBy(offer)), SeededBy(offer));
            var s := G.Run(e, G.Fresh(seeds), es).s;
            forall i :: 0 <= i < |s.rows| && s.rows[i].track.Some? ==>
                          var k := (s.rows[i].kind, codecOf(s.rows[i].track.value.track));
                          s.rows[i].codec == k.1 && k in s.pts && s.rows[i].pt == s.pts[k] && (k in seeds ==> s.rows[i].pt == seeds[k])
  {
    var (e, seeds) := (Env(twoPc, budget, ReservedBy(offer)), SeededBy(offer));
    RunOnRight(e, G.Fresh(seeds), es, codecOf);
    SubPts.TypesStayApart(twoPc, budget, offer, es);
  }

  /** MAIN: in every run only rows with a track are active. */
  lemma ActiveRowsCarry(e: Env, seeds: Pts, es: seq<G.Event>)
    ensures var rows := G.Run(e, G.Fresh(seeds), es).s.rows; forall i :: 0 <= i < |rows| && rows[i].active ==> rows[i].track.Some?
  {
    RunCarries(e, G.Fresh(seeds), es);
  }

  ghost predicate AllCarry(rows: Rows) { forall i :: 0 <= i < |rows| && rows[i].active ==> rows[i].track.Some? }

  lemma {:induction false} RunCarries(e: Env, g: G.Gate, es: seq<G.Event>)
    requires AllCarry(g.s.rows)
    ensures AllCarry(G.Run(e, g, es).s.rows)
    decreases |es|
  {
    if es != [] {
      if es[0].DoRound? { RoundCarries(e, g.s, es[0].cands, es[0].now); }
      RunCarries(e, G.Step(e, g, es[0]), es[1..]);
    }
  }

  lemma RoundCarries(e: Env, s: State, cands: seq<Cand>, now: nat)
    requires AllCarry(s.rows)
    ensures AllCarry(Sync(e, s, cands, now).0.rows)
  {
    RowsAreFitting(e, s, cands, now);
    var r := Sync(e, s, cands, now).0.rows;
    forall i | 0 <= i < |r| && r[i].active ensures r[i].track.Some? { assert RowOk(s.rows, r, i, cands, s.arev + 1, now); }
  }
}
