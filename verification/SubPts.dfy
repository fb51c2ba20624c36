/** Payload types over whole runs of an assignment table: when those given out stay apart. */
module SubPts {
  import opened Wrappers
  import opened SubTable
  import G = SubAck
  import R = SubRuns

  // ---------------------------------------------------------------- free payload types

  /** The dynamic payload types that are not in use. */
  function FreeSet(used: set<nat>): set<nat> { set p: nat | 35 <= p <= 127 && Dynamic(p) && p !in used }

  /** A video row takes two, the second for retransmissions. */
  function Need(kind: Kind): nat { if kind.Video? then 2 else 1 }

  ghost predicate IsFresh(used: set<nat>, p: Pt) {
    p.main !in used && (p.rtx.Some? ==> p.rtx.value !in used && p.rtx.value != p.main)
  }

  lemma AtLeastTwo(s: set<nat>, a: nat)
    requires a in s && |s| >= 2
    ensures exists b :: b in s && b != a
  {
    assert |s - {a}| == |s| - 1;
    var b :| b in s - {a};
  }

  lemma TwoOf(s: set<nat>, a: nat, b: nat)
    requires a in s && b in s && a != b
    ensures |s| >= 2
  {
    assert {a, b} <= s && s == {a, b} + (s - {a, b});
    assert |{a, b}| == 2;
  }

  lemma OneOf(s: set<nat>, a: nat)
    requires a in s
    ensures |s| >= 1
  {
    assert s == {a} + (s - {a});
  }

  /** What is taken when no seed applies: the first free one and the second. */
  lemma FirstTwo(used: set<nat>)
    ensures FreePt(used, 96).Some? <==> |FreeSet(used)| >= 1
    ensures FreePt(used, 96).Some? ==>
              (FreePt(used, Next(FreePt(used, 96).value)).Some? <==> |FreeSet(used)| >= 2)
  {
    var first := FreePt(used, 96);
    if first.Some? {
      var a := first.value;
      OneOf(FreeSet(used), a);
      var second := FreePt(used, Next(a));
      if second.Some? { TwoOf(FreeSet(used), a, second.value); }
      if |FreeSet(used)| >= 2 {
        AtLeastTwo(FreeSet(used), a);
        var b :| b in FreeSet(used) && b != a;
        TwoFree(used, 96, a, b);
      }
    } else {
      assert FreeSet(used) == {};
    }
  }

  /** MAIN: the payload types given to a new kind and codec are taken by nobody, and those of a video row differ,
      if and only if as many dynamic ones are free as the kind needs. */
  lemma PtFreshExactly(e: Env, pts: Pts, kind: Kind, codec: Codec)
    requires (kind, codec) !in pts
    ensures var used := Used(pts, e.reserved);
            IsFresh(used, PtFor(e, pts, kind, codec).0) <==> |FreeSet(used)| >= Need(kind)
  {
    var used := Used(pts, e.reserved);
    var p := PtFor(e, pts, kind, codec).0;
    PtShape(e, pts, kind, codec);
    if IsFresh(used, p) {
      OneOf(FreeSet(used), p.main);
      if kind.Video? { TwoOf(FreeSet(used), p.main, p.rtx.value); }
    } else {
      FirstTwo(used);
    }
  }

  /** They are dynamic, and a second one goes with video alone. */
  lemma PtShape(e: Env, pts: Pts, kind: Kind, codec: Codec)
    requires (kind, codec) !in pts
    ensures Shaped(kind, PtFor(e, pts, kind, codec).0)
  {
  }

  predicate Shaped(kind: Kind, p: Pt) {
    Dynamic(p.main) && (p.rtx.Some? <==> kind.Video?) && (p.rtx.Some? ==> Dynamic(p.rtx.value))
  }

  // ---------------------------------------------------------------- apart

  ghost predicate AllShaped(pts: Pts) { forall k :: k in pts ==> Shaped(k.0, pts[k]) }

  /** No payload type is given twice, and none that the offer reserves. */
  ghost predicate Apart(pts: Pts, reserved: set<nat>) {
    && (forall k :: k in pts ==> IsFresh(reserved, pts[k]))
    && (forall k, l :: k in pts && l in pts && k != l ==> Types(pts[k]) !! Types(pts[l]))
  }

  function Videos(ks: set<(Kind, Codec)>): set<(Kind, Codec)> { set k | k in ks && k.0.Video? }

  /** How many payload types these kinds and codecs need. */
  function Weight(ks: set<(Kind, Codec)>): nat { |ks| + |Videos(ks)| }

  lemma WeightMore(ks: set<(Kind, Codec)>, k: (Kind, Codec))
    requires k !in ks
    ensures Weight(ks + {k}) == Weight(ks) + Need(k.0)
  {
    assert Videos(ks + {k}) == if k.0.Video? then Videos(ks) + {k} else Videos(ks);
  }

  // ---------------------------------------------------------------- counting

  function Mains(pts: Pts): set<nat> { set k | k in pts :: pts[k].main }

  function Rtxs(pts: Pts): set<nat> { set k | k in pts && pts[k].rtx.Some? :: pts[k].rtx.value }

  ghost function Image(ks: set<(Kind, Codec)>, f: map<(Kind, Codec), nat>): set<nat>
    requires ks <= f.Keys
  {
    set k | k in ks :: f[k]
  }

  lemma {:induction false} ImageSize(ks: set<(Kind, Codec)>, f: map<(Kind, Codec), nat>)
    requires ks <= f.Keys
    ensures |Image(ks, f)| <= |ks|
    ensures (forall k, l :: k in ks && l in ks && k != l ==> f[k] != f[l]) ==> |Image(ks, f)| == |ks|
    decreases |ks|
  {
    if ks != {} {
      var k :| k in ks;
      ImageSize(ks - {k}, f);
      assert Image(ks, f) == Image(ks - {k}, f) + {f[k]};
    } else {
      assert Image(ks, f) == {};
    }
  }

  function MainMap(pts: Pts): map<(Kind, Codec), nat> { map k | k in pts :: pts[k].main }

  function RtxMap(pts: Pts): map<(Kind, Codec), nat> { map k | k in pts && pts[k].rtx.Some? :: pts[k].rtx.value }

  lemma RtxImage(pts: Pts)
    ensures Image(RtxMap(pts).Keys, RtxMap(pts)) == Rtxs(pts)
  {
    var g := RtxMap(pts);
    forall x | x in Rtxs(pts) ensures x in Image(g.Keys, g) {
      var k :| k in pts && pts[k].rtx == Some(x);
      assert k in g && g[k] == x;
    }
    forall x | x in Image(g.Keys, g) ensures x in Rtxs(pts) {
      var k :| k in g.Keys && g[k] == x;
      assert k in pts && pts[k].rtx.Some? && pts[k].rtx.value == x;
    }
  }

  lemma TypeCount(pts: Pts)
    requires AllShaped(pts)
    ensures |Mains(pts)| + |Rtxs(pts)| <= Weight(pts.Keys)
    ensures (forall k, l :: k in pts && l in pts && k != l ==> Types(pts[k]) !! Types(pts[l]))
            ==> |Mains(pts)| + |Rtxs(pts)| == Weight(pts.Keys)
  {
    var (f, g) := (MainMap(pts), RtxMap(pts));
    assert Image(pts.Keys, f) == Mains(pts);
    assert g.Keys == Videos(pts.Keys);
    RtxImage(pts);
    ImageSize(pts.Keys, f);
    ImageSize(g.Keys, g);
    if forall k, l :: k in pts && l in pts && k != l ==> Types(pts[k]) !! Types(pts[l]) { Injective(pts); }
  }

  lemma Injective(pts: Pts)
    requires forall k, l :: k in pts && l in pts && k != l ==> Types(pts[k]) !! Types(pts[l])
    ensures forall k, l :: k in pts && l in pts && k != l ==> MainMap(pts)[k] != MainMap(pts)[l]
    ensures forall k, l :: k in RtxMap(pts) && l in RtxMap(pts) && k != l ==> RtxMap(pts)[k] != RtxMap(pts)[l]
  {
    forall k, l | k in pts && l in pts && k != l ensures pts[k].main != pts[l].main { assert pts[k].main in Types(pts[k]); }
    forall k, l | k in RtxMap(pts) && l in RtxMap(pts) && k != l ensures RtxMap(pts)[k] != RtxMap(pts)[l] {
      assert pts[k].rtx.value in Types(pts[k]);
    }
  }

  /** As many as can be given out. */
  function Room(e: Env): nat { |FreeSet(e.reserved)| }

  lemma MainIsNoRtx(pts: Pts, reserved: set<nat>)
    requires Apart(pts, reserved)
    ensures Mains(pts) !! Rtxs(pts)
  {
    forall x | x in Rtxs(pts) ensures x !in Mains(pts) {
      var k :| k in pts && pts[k].rtx == Some(x);
      assert x in Types(pts[k]);
      forall l | l in pts ensures pts[l].main != x {
        if l != k { assert pts[l].main in Types(pts[l]); } else { assert IsFresh(reserved, pts[k]); }
      }
    }
  }

  lemma TypesWereFree(pts: Pts, reserved: set<nat>)
    requires AllShaped(pts) && Apart(pts, reserved)
    ensures Mains(pts) + Rtxs(pts) <= FreeSet(reserved)
  {
    forall x | x in Mains(pts) + Rtxs(pts) ensures x in FreeSet(reserved) {
      var k :| k in pts && (pts[k].main == x || pts[k].rtx == Some(x));
      assert IsFresh(reserved, pts[k]) && Shaped(k.0, pts[k]);
    }
  }

  /** Payload types that are apart fit into the room. */
  lemma ApartFits(e: Env, pts: Pts)
    requires AllShaped(pts) && Apart(pts, e.reserved)
    ensures Weight(pts.Keys) <= Room(e)
  {
    TypeCount(pts);
    MainIsNoRtx(pts, e.reserved);
    TypesWereFree(pts, e.reserved);
    Within(Mains(pts) + Rtxs(pts), FreeSet(e.reserved));
    assert |Mains(pts) + Rtxs(pts)| == |Mains(pts)| + |Rtxs(pts)|;
  }

  lemma Within(s: set<nat>, t: set<nat>)
    requires s <= t
    ensures |s| <= |t|
  {
    assert t == s + (t - s);
  }

  /** With so many given out, so many are left. */
  lemma FreeLeft(e: Env, pts: Pts)
    requires AllShaped(pts)
    ensures |FreeSet(Used(pts, e.reserved))| >= Room(e) - Weight(pts.Keys)
  {
    TypeCount(pts);
    var (a, b, all, left) := (Mains(pts), Rtxs(pts), FreeSet(e.reserved), FreeSet(Used(pts, e.reserved)));
    assert Used(pts, e.reserved) == e.reserved + a + b;
    assert all <= left + (a + b);
    Within(all, left + (a + b));
    assert |left + (a + b)| <= |left| + |a + b|;
    assert |a + b| <= |a| + |b|;
  }

  // ---------------------------------------------------------------- every step

  /** The types given out are apart if and only if there was room for all. */
  ghost predicate GivenOk(e: Env, given: Pts) {
    AllShaped(given) && (Apart(given, e.reserved) <==> Weight(given.Keys) <= Room(e))
  }

  /** What the offer gave stays, and is all reserved; the rest was given out. */
  ghost predicate PtsOk(e: Env, seeds: Pts, pts: Pts) {
    && (forall k :: k in seeds ==> k in pts && pts[k] == seeds[k] && Types(seeds[k]) <= e.reserved)
    && GivenOk(e, pts - seeds.Keys)
  }

  lemma UsedHas(pts: Pts, reserved: set<nat>, k: (Kind, Codec))
    requires k in pts
    ensures Types(pts[k]) <= Used(pts, reserved)
  {
  }

  lemma ApartMore(pts: Pts, reserved: set<nat>, k: (Kind, Codec), p: Pt)
    requires Apart(pts, reserved) && k !in pts && IsFresh(Used(pts, reserved), p)
    ensures Apart(pts[k := p], reserved)
  {
    var more := pts[k := p];
    forall l | l in pts ensures Types(pts[l]) !! Types(p) { UsedHas(pts, reserved, l); }
  }

  lemma NewPtOk(e: Env, pts: Pts, k: (Kind, Codec), p: Pt, more: Pts)
    requires GivenOk(e, pts) && k !in pts && more == pts[k := p] && Shaped(k.0, p)
    requires |FreeSet(Used(pts, e.reserved))| >= Need(k.0) ==> IsFresh(Used(pts, e.reserved), p)
    ensures GivenOk(e, more)
  {
    assert more.Keys == pts.Keys + {k};
    WeightMore(pts.Keys, k);
    if Weight(more.Keys) <= Room(e) {
      FreeLeft(e, pts);
      ApartMore(pts, e.reserved, k, p);
    } else if Apart(more, e.reserved) {
      ApartFits(e, more);
    }
  }

  /** Types that are reserved are in use either way. */
  lemma SeedsAreUsed(e: Env, seeds: Pts, pts: Pts)
    requires forall k :: k in seeds ==> k in pts && pts[k] == seeds[k] && Types(seeds[k]) <= e.reserved
    ensures Used(pts, e.reserved) == Used(pts - seeds.Keys, e.reserved)
  {
    var given := pts - seeds.Keys;
    forall x | x in Used(pts, e.reserved) ensures x in Used(given, e.reserved) {
      if x !in e.reserved {
        var k :| k in pts && x in Types(pts[k]);
        assert k !in seeds;
        assert k in given && given[k] == pts[k];
        UsedHas(given, e.reserved, k);
      }
    }
    forall x | x in Used(given, e.reserved) ensures x in Used(pts, e.reserved) {
      if x !in e.reserved {
        var k :| k in given && x in Types(given[k]);
        assert k in pts && given[k] == pts[k];
        UsedHas(pts, e.reserved, k);
      }
    }
  }

  lemma PtForOk(e: Env, seeds: Pts, pts: Pts, kind: Kind, codec: Codec)
    requires PtsOk(e, seeds, pts)
    ensures PtsOk(e, seeds, PtFor(e, pts, kind, codec).1)
  {
    if (kind, codec) !in pts {
      var (p, more) := PtFor(e, pts, kind, codec);
      PtShape(e, pts, kind, codec);
      PtFreshExactly(e, pts, kind, codec);
      PtForAdds(e, pts, kind, codec);
      SeedsAreUsed(e, seeds, pts);
      GivenMore(e, seeds, pts, (kind, codec), p, more);
    }
  }

  lemma GivenMore(e: Env, seeds: Pts, pts: Pts, k: (Kind, Codec), p: Pt, more: Pts)
    requires PtsOk(e, seeds, pts) && k !in pts && more == pts[k := p] && Shaped(k.0, p)
    requires Used(pts, e.reserved) == Used(pts - seeds.Keys, e.reserved)
    requires |FreeSet(Used(pts, e.reserved))| >= Need(k.0) ==> IsFresh(Used(pts, e.reserved), p)
    ensures PtsOk(e, seeds, more)
  {
    GivenAdds(pts, seeds.Keys, k, p);
    NewPtOk(e, pts - seeds.Keys, k, p, more - seeds.Keys);
    assert forall l :: l in seeds ==> l in more && more[l] == pts[l];
  }

  lemma GivenAdds(pts: Pts, seeded: set<(Kind, Codec)>, k: (Kind, Codec), p: Pt)
    requires k !in seeded
    ensures pts[k := p] - seeded == (pts - seeded)[k := p]
  {
  }

  lemma PtForAdds(e: Env, pts: Pts, kind: Kind, codec: Codec)
    requires (kind, codec) !in pts
    ensures var (p, more) := PtFor(e, pts, kind, codec); more == pts[(kind, codec) := p]
  {
  }

  /** Each row has the types of its kind and codec. */
  ghost predicate RowsAgree(rows: Rows, pts: Pts) {
    forall i :: 0 <= i < |rows| ==> (rows[i].kind, rows[i].codec) in pts && pts[(rows[i].kind, rows[i].codec)] == rows[i].pt
  }

  ghost predicate WorkOk(e: Env, seeds: Pts, w: Work) { PtsOk(e, seeds, w.pts) && RowsAgree(w.rows, w.pts) }

  lemma AddRowOk(e: Env, seeds: Pts, w: Work, kind: Kind, class_: Class, codec: Codec)
    requires WorkOk(e, seeds, w)
    ensures WorkOk(e, seeds, AddRow(e, w, kind, class_, codec))
  {
    PtForOk(e, seeds, w.pts, kind, codec);
  }

  lemma RetuneOk(e: Env, seeds: Pts, w: Work, i: nat, codec: Codec)
    requires WorkOk(e, seeds, w) && i < |w.rows|
    ensures WorkOk(e, seeds, Retune(e, w, i, codec))
  {
    PtForOk(e, seeds, w.pts, w.rows[i].kind, codec);
  }

  lemma PlaceOk(e: Env, seeds: Pts, w: Work, kind: Kind, c: Cand)
    requires WorkOk(e, seeds, w)
    ensures WorkOk(e, seeds, Place(e, w, kind, c).0)
  {
    AddRowOk(e, seeds, w, kind, Full, c.codec);
    var i := Oldest(w.rows, kind);
    if i.Some? { RetuneOk(e, seeds, w, i.value, c.codec); }
  }

  /** Loading and unloading do not touch what this is about. */
  ghost predicate SameTuples(a: Rows, b: Rows) {
    |a| == |b| && forall i :: 0 <= i < |a| ==> a[i].kind == b[i].kind && a[i].codec == b[i].codec && a[i].pt == b[i].pt
  }

  lemma SameAgree(a: Rows, b: Rows, pts: Pts)
    requires SameTuples(a, b) && RowsAgree(a, pts)
    ensures RowsAgree(b, pts)
  {
  }

  lemma LoadOk(e: Env, seeds: Pts, w: Work, i: nat, c: Cand, rev: nat, now: nat)
    requires WorkOk(e, seeds, w) && i < |w.rows|
    ensures WorkOk(e, seeds, LoadAt(w, i, c, rev, now))
  {
    SameAgree(w.rows, LoadAt(w, i, c, rev, now).rows, w.pts);
  }

  lemma {:induction false} LoadSlotsOk(e: Env, seeds: Pts, base: Rows, w: Work, cs: seq<Cand>, rev: nat, now: nat)
    requires WorkOk(e, seeds, w)
    ensures WorkOk(e, seeds, LoadSlots(e, base, w, cs, rev, now).0)
    decreases |cs|
  {
    if cs != [] {
      var c := cs[0];
      if !c.class_.Slot? || Served(base, c) {
        LoadSlotsOk(e, seeds, base, w, cs[1..], rev, now);
      } else {
        var i := Find(w.rows, (r: Row) => EmptySlotFor(r, c), 0);
        if i.Some? {
          LoadOk(e, seeds, w, i.value, c, rev, now);
          LoadSlotsOk(e, seeds, base, LoadAt(w, i.value, c, rev, now), cs[1..], rev, now);
        } else if !(Count(w.rows, IsSlot) >= e.budget || |w.rows| >= e.Limit()) {
          var v := AddRow(e, w, c.kind, Slot, c.codec);
          AddRowOk(e, seeds, w, c.kind, Slot, c.codec);
          LoadOk(e, seeds, v, |w.rows|, c, rev, now);
          LoadSlotsOk(e, seeds, base, LoadAt(v, |w.rows|, c, rev, now), cs[1..], rev, now);
        }
      }
    }
  }

  lemma {:induction false} LoadFullOk(e: Env, seeds: Pts, w: Work, waiting: map<nat, nat>, kind: Kind, ts: seq<Cand>, rev: nat, now: nat)
    requires WorkOk(e, seeds, w)
    ensures WorkOk(e, seeds, LoadFull(e, w, waiting, kind, ts, rev, now).0)
    decreases |ts|
  {
    if ts != [] {
      var c := ts[0];
      if OnFull(w.rows, c.key) {
        LoadFullOk(e, seeds, w, waiting - {c.key.track}, kind, ts[1..], rev, now);
      } else {
        var (v, i) := Place(e, w, kind, c);
        PlaceOk(e, seeds, w, kind, c);
        if i.None? {
          LoadFullOk(e, seeds, v, waiting, kind, ts[1..], rev, now);
        } else {
          LoadOk(e, seeds, v, i.value, c, rev, now);
          LoadFullOk(e, seeds, LoadAt(v, i.value, c, rev, now), waiting - {c.key.track}, kind, ts[1..], rev, now);
        }
      }
    }
  }

  lemma PreparedSame(rows: Rows, cands: seq<Cand>, kind: Kind, target: seq<Cand>, rev: nat)
    ensures SameTuples(rows, UnloadOthers(Rehome(rows, cands, kind, rev), kind, target, rev))
  {
  }

  lemma PreparedOk(e: Env, seeds: Pts, w: Work, cands: seq<Cand>, kind: Kind, target: seq<Cand>, rev: nat) returns (v: Work)
    requires WorkOk(e, seeds, w)
    ensures v == w.(rows := UnloadOthers(Rehome(w.rows, cands, kind, rev), kind, target, rev)) && WorkOk(e, seeds, v)
  {
    v := w.(rows := UnloadOthers(Rehome(w.rows, cands, kind, rev), kind, target, rev));
    PreparedSame(w.rows, cands, kind, target, rev);
    SameAgree(w.rows, v.rows, w.pts);
  }

  lemma FullPassOk(e: Env, seeds: Pts, w: Work, waiting: map<nat, nat>, cands: seq<Cand>, kind: Kind, rev: nat, now: nat)
    requires WorkOk(e, seeds, w)
    ensures WorkOk(e, seeds, FullPass(e, w, waiting, cands, kind, rev, now).0)
  {
    var rows := Rehome(w.rows, cands, kind, rev);
    var waits := Waits(rows, kind, waiting, Desired(cands, kind), now);
    var target := Target(rows, kind, waits, Desired(cands, kind), now);
    var v := PreparedOk(e, seeds, w, cands, kind, target, rev);
    LoadFullOk(e, seeds, v, waits, kind, target, rev, now);
    assert FullPass(e, w, waiting, cands, kind, rev, now) == LoadFull(e, v, waits, kind, target, rev, now);
  }

  ghost predicate StateOk(e: Env, seeds: Pts, s: State) { WorkOk(e, seeds, Work(s.rows, s.pts)) }

  lemma UnloadedSame(rows: Rows, cands: seq<Cand>, rev: nat)
    ensures SameTuples(rows, UnloadSlots(rows, cands, rev))
  {
  }

  lemma SlotPartOk(e: Env, seeds: Pts, s: State, cands: seq<Cand>, now: nat)
    requires StateOk(e, seeds, s)
    ensures WorkOk(e, seeds, SlotPart(e, s, cands, now).0)
  {
    var base := UnloadSlots(s.rows, cands, s.arev + 1);
    UnloadedSame(s.rows, cands, s.arev + 1);
    SameAgree(s.rows, base, s.pts);
    LoadSlotsOk(e, seeds, base, Work(base, s.pts), cands, s.arev + 1, now);
    assert SlotPart(e, s, cands, now) == LoadSlots(e, base, Work(base, s.pts), cands, s.arev + 1, now);
  }

  lemma PassesOk(e: Env, seeds: Pts, w: Work, waiting: map<nat, nat>, cands: seq<Cand>, rev: nat, now: nat)
    requires WorkOk(e, seeds, w)
    ensures WorkOk(e, seeds, Passes(e, w, waiting, cands, rev, now).0)
  {
    var (a, wa) := FullPass(e, w, waiting, cands, Audio, rev, now);
    FullPassOk(e, seeds, w, waiting, cands, Audio, rev, now);
    FullPassOk(e, seeds, a, wa, cands, Video, rev, now);
  }

  lemma AssignRefused(e: Env, s: State, cands: seq<Cand>, now: nat, w: Work)
    requires SlotPart(e, s, cands, now) == (w, true)
    ensures Assign(e, s, cands, now).0 == w
  {
  }

  lemma AssignOk(e: Env, seeds: Pts, s: State, cands: seq<Cand>, now: nat) returns (w: Work)
    requires StateOk(e, seeds, s)
    ensures w == Assign(e, s, cands, now).0 && WorkOk(e, seeds, w)
  {
    var (a, no) := SlotPart(e, s, cands, now);
    SlotPartOk(e, seeds, s, cands, now);
    if no {
      AssignRefused(e, s, cands, now, a);
      w := a;
    } else {
      var (v, left) := Passes(e, a, s.waiting, cands, s.arev + 1, now);
      PassesOk(e, seeds, a, s.waiting, cands, s.arev + 1, now);
      AssignIs(e, s, cands, now, a, v, left);
      w := v;
    }
  }

  lemma RoundOk(e: Env, seeds: Pts, s: State, cands: seq<Cand>, now: nat)
    requires StateOk(e, seeds, s)
    ensures StateOk(e, seeds, Sync(e, s, cands, now).0)
  {
    var w := AssignOk(e, seeds, s, cands, now);
  }

  // ---------------------------------------------------------------- runs

  lemma StepOk(e: Env, seeds: Pts, g: G.Gate, ev: G.Event)
    requires StateOk(e, seeds, g.s)
    ensures StateOk(e, seeds, G.Step(e, g, ev).s)
  {
    match ev
    case DoRound(cands, now) => RoundOk(e, seeds, g.s, cands, now);
    case DoReady(rev) => ReadyOk(e, seeds, g, rev);
    case DoCarry(_) =>
  }

  lemma ActivatedSame(rows: Rows, acked: nat)
    ensures SameTuples(rows, G.Activate(rows, acked))
  {
  }

  lemma ReadyOk(e: Env, seeds: Pts, g: G.Gate, rev: nat)
    requires StateOk(e, seeds, g.s)
    ensures StateOk(e, seeds, G.Ready(g, rev).s)
  {
    var r := G.Ready(g, rev);
    ActivatedSame(g.s.rows, r.acked);
    assert r.s.rows == G.Activate(g.s.rows, r.acked) && r.s.pts == g.s.pts;
    SameAgree(g.s.rows, r.s.rows, g.s.pts);
  }

  lemma {:induction false} RunOk(e: Env, seeds: Pts, g: G.Gate, es: seq<G.Event>)
    requires StateOk(e, seeds, g.s)
    ensures StateOk(e, seeds, G.Run(e, g, es).s)
    decreases |es|
  {
    if es != [] {
      StepOk(e, seeds, g, es[0]);
      RunOk(e, seeds, G.Step(e, g, es[0]), es[1..]);
    }
  }

  lemma NoneGiven(e: Env, seeds: Pts)
    requires forall k :: k in seeds ==> Types(seeds[k]) <= e.reserved
    ensures PtsOk(e, seeds, seeds)
  {
    assert seeds - seeds.Keys == map[];
    assert Videos({}) == {};
  }

  lemma {:induction false} OfferReserves(offer: seq<Offered>)
    ensures forall k :: k in SeededBy(offer) ==> Types(SeededBy(offer)[k]) <= ReservedBy(offer)
  {
    if offer != [] { OfferReserves(offer[..|offer| - 1]); }
  }

  /** MAIN: for every offer, in every run of rounds, acknowledgements and carried revisions, the kinds and codecs of
      the offer keep its types, and every row has the types of its kind and codec. The types given out beyond the
      offer are given once, are not in the offer, and differ within a row, if and only if the kinds and codecs
      they are for need no more types than the offer leaves free. */
  lemma TypesStayApart(twoPc: bool, budget: nat, offer: seq<Offered>, es: seq<G.Event>)
    ensures var (e, seeds) := (Env(twoPc, budget, ReservedBy(offer)), SeededBy(offer));
            var s := G.Run(e, G.Fresh(seeds), es).s;
            var given := s.pts - seeds.Keys;
            && (forall k :: k in seeds ==> k in s.pts && s.pts[k] == seeds[k])
            && RowsAgree(s.rows, s.pts) && AllShaped(given)
            && (Apart(given, e.reserved) <==> Weight(given.Keys) <= Room(e))
  {
    var (e, seeds) := (Env(twoPc, budget, ReservedBy(offer)), SeededBy(offer));
    OfferReserves(offer);
    NoneGiven(e, seeds);
    RunOk(e, seeds, G.Fresh(seeds), es);
  }

  // ---------------------------------------------------------------- when nothing is left

  /** What a new kind and codec gets once its seed is taken: the first two types that are free, or 126 and 127. */
  lemma Leftover(e: Env, pts: Pts, kind: Kind, codec: Codec)
    requires (kind, codec) !in pts && |FreeSet(Used(pts, e.reserved))| < Need(kind)
    ensures var (p, free) := (PtFor(e, pts, kind, codec).0, FreeSet(Used(pts, e.reserved)));
            && (kind.Audio? ==> p == Pt(127, None))
            && (kind.Video? && free == {} ==> p == Pt(126, Some(127)))
            && (kind.Video? && free != {} ==> p.main in free && p.rtx == Some(127))
  {
    var used := Used(pts, e.reserved);
    FirstTwo(used);
    var seed := Seed(e, kind, codec);
    if seed.Some? && seed.value.main !in used && (seed.value.rtx.Some? ==> seed.value.rtx.value !in used) {
      OneOf(FreeSet(used), seed.value.main);
      if kind.Video? { TwoOf(FreeSet(used), seed.value.main, seed.value.rtx.value); }
    }
    if FreeSet(used) == {} { assert |FreeSet(used)| == 0; }
  }

  /** A pass over a kind of which there is neither a candidate nor a row changes nothing. */
  lemma IdlePass(e: Env, w: Work, waiting: map<nat, nat>, c: Cand, kind: Kind, rev: nat, now: nat)
    requires c.kind != kind && forall i :: 0 <= i < |w.rows| ==> w.rows[i].kind != kind
    ensures FullPass(e, w, waiting, [c], kind, rev, now) == (w, waiting)
  {
    assert Desired([c], kind) == [] by { assert [c][1..] == []; }
    var rows := Rehome(w.rows, [c], kind, rev);
    assert rows == w.rows;
    var target := Target(rows, kind, waiting, [], now);
    assert Sort([], Earlier(rows, kind, waiting, now)) == [];
    assert target == [];
    assert UnloadOthers(rows, kind, [], rev) == w.rows;
  }

  /** The row of a table's first candidate. */
  function FirstRow(e: Env, pts: Pts, c: Cand, rev: nat, now: nat): Row {
    LoadRow(NewRow(e, 0, c.kind, Full, c.codec, PtFor(e, pts, c.kind, c.codec).0), c, rev, now)
  }

  lemma LoneLoad(e: Env, pts: Pts, waiting: map<nat, nat>, c: Cand, rev: nat, now: nat)
    ensures LoadFull(e, Work([], pts), waiting, c.kind, [c], rev, now).0
            == Work([FirstRow(e, pts, c, rev, now)], PtFor(e, pts, c.kind, c.codec).1)
  {
    var w := Work([], pts);
    var v := AddRow(e, w, c.kind, Full, c.codec);
    assert Place(e, w, c.kind, c) == (v, Some(0));
    assert v.rows == [NewRow(e, 0, c.kind, Full, c.codec, PtFor(e, pts, c.kind, c.codec).0)];
    assert LoadAt(v, 0, c, rev, now).rows == [FirstRow(e, pts, c, rev, now)];
    assert [c][1..] == [];
  }

  lemma LonePass(e: Env, pts: Pts, waiting: map<nat, nat>, c: Cand, rev: nat, now: nat)
    requires c.class_.Full? && !c.paused
    ensures FullPass(e, Work([], pts), waiting, [c], c.kind, rev, now).0
            == Work([FirstRow(e, pts, c, rev, now)], PtFor(e, pts, c.kind, c.codec).1)
  {
    R.LoneDesired(c);
    var waits := Waits([], c.kind, waiting, [c], now);
    var lt := Earlier([], c.kind, waits, now);
    assert [c][..0] == [];
    assert Sort([], lt) == [];
    assert Sort([c], lt) == [c];
    assert Rehome([], [c], c.kind, rev) == [] && UnloadOthers([], c.kind, [c], rev) == [];
    LoneLoad(e, pts, waits, c, rev, now);
  }

  lemma LonePasses(e: Env, pts: Pts, c: Cand, rev: nat, now: nat)
    requires c.class_.Full? && !c.paused
    ensures Passes(e, Work([], pts), map[], [c], rev, now).0
            == Work([FirstRow(e, pts, c, rev, now)], PtFor(e, pts, c.kind, c.codec).1)
  {
    var (a, wa) := FullPass(e, Work([], pts), map[], [c], Audio, rev, now);
    if c.kind.Audio? {
      LonePass(e, pts, map[], c, rev, now);
      IdlePass(e, a, wa, c, Video, rev, now);
    } else {
      IdlePass(e, Work([], pts), map[], c, Audio, rev, now);
      LonePass(e, pts, map[], c, rev, now);
    }
  }

  lemma LoneSlots(e: Env, pts: Pts, c: Cand, now: nat)
    requires c.class_.Full?
    ensures SlotPart(e, State([], pts, 0, map[]), [c], now) == (Work([], pts), false)
  {
    assert UnloadSlots([], [c], 1) == [];
    assert [c][1..] == [];
    assert LoadSlots(e, [], Work([], pts), [c], 1, now) == LoadSlots(e, [], Work([], pts), [], 1, now);
  }

  /** The first round of a table, with one candidate. */
  lemma LoneRound(e: Env, pts: Pts, c: Cand, now: nat)
    requires c.class_.Full? && !c.paused
    ensures Sync(e, State([], pts, 0, map[]), [c], now).0.rows == [FirstRow(e, pts, c, 1, now)]
  {
    var s := State([], pts, 0, map[]);
    R.LoneNotRefused(e, s, c);
    LoneSlots(e, pts, c, now);
    LonePasses(e, pts, c, 1, now);
    var (v, left) := Passes(e, Work([], pts), map[], [c], 1, now);
    PassesLeave(e, s, [c], now, Work([], pts), v, left);
  }

  lemma PassesLeave(e: Env, s: State, cands: seq<Cand>, now: nat, w: Work, v: Work, left: map<nat, nat>)
    requires !Refuses(e, s, cands) && SlotPart(e, s, cands, now) == (w, false)
    requires Passes(e, w, s.waiting, cands, s.arev + 1, now) == (v, left)
    ensures Sync(e, s, cands, now).0.rows == v.rows
  {
    AssignIs(e, s, cands, now, w, v, left);
    G.ClosedIs(e, s, cands, now);
  }

  /** The failing input, for any offer that leaves too few types and does not itself name the codec: the first
      row of the run is given types of the offer, or one type twice. */
  lemma NothingLeft(twoPc: bool, budget: nat, offer: seq<Offered>, c: Cand, now: nat)
    requires c.class_.Full? && !c.paused && (c.kind, c.codec) !in SeededBy(offer)
    requires |FreeSet(ReservedBy(offer))| < Need(c.kind)
    ensures var (e, seeds) := (Env(twoPc, budget, ReservedBy(offer)), SeededBy(offer));
            var rows := G.Run(e, G.Fresh(seeds), [G.DoRound([c], now)]).s.rows;
            && |rows| == 1 && rows[0].track == Some(c.key)
            && (c.kind.Audio? ==> rows[0].pt == Pt(127, None) && 127 in e.reserved)
            && (c.kind.Video? && FreeSet(e.reserved) == {} ==> rows[0].pt == Pt(126, Some(127)) && {126, 127} <= e.reserved)
            && (c.kind.Video? && FreeSet(e.reserved) != {} ==>
                  rows[0].pt.main in FreeSet(e.reserved) && rows[0].pt.rtx == Some(127)
                  && (127 in e.reserved || rows[0].pt.main == 127))
  {
    var (e, seeds) := (Env(twoPc, budget, ReservedBy(offer)), SeededBy(offer));
    OfferReserves(offer);
    SeedsAreUsed(e, seeds, seeds);
    assert seeds - seeds.Keys == map[];
    assert Used(map[], e.reserved) == e.reserved;
    Leftover(e, seeds, c.kind, c.codec);
    LoneRound(e, seeds, c, now);
    assert [G.DoRound([c], now)][1..] == [];
    NoneFree(e.reserved);
    if c.kind.Video? && FreeSet(e.reserved) != {} && 127 !in e.reserved {
      OnlyOne(FreeSet(e.reserved), 127, FirstRow(e, seeds, c, 1, now).pt.main);
    }
  }

  lemma NoneFree(reserved: set<nat>)
    ensures FreeSet(reserved) == {} ==> 126 in reserved && 127 in reserved
    ensures 127 !in reserved ==> 127 in FreeSet(reserved)
  {
    assert 126 !in reserved ==> 126 in FreeSet(reserved);
    assert 127 !in reserved ==> 127 in FreeSet(reserved);
  }

  lemma OnlyOne(s: set<nat>, a: nat, b: nat)
    requires |s| < 2 && a in s && b in s
    ensures a == b
  {
    if a != b { TwoOf(s, a, b); }
  }

  /** There is such an offer: one that lists every dynamic type, for no codec that is forwarded. */
  function EveryType(n: nat): seq<Offered> {
    if n == 0 then [] else EveryType(n - 1) + [Offered(34 + n, None, None)]
  }

  lemma {:induction false} EveryTypeTaken(n: nat)
    ensures SeededBy(EveryType(n)) == map[] && forall p: nat :: 35 <= p <= 34 + n ==> p in ReservedBy(EveryType(n))
  {
    if n > 0 {
      EveryTypeTaken(n - 1);
      var all := EveryType(n);
      assert all[..|all| - 1] == EveryType(n - 1);
    }
  }

  lemma NoneIsFree(n: nat)
    requires n >= 93
    ensures FreeSet(ReservedBy(EveryType(n))) == {} && SeededBy(EveryType(n)) == map[]
  {
    EveryTypeTaken(n);
  }

  // ---------------------------------------------------------------- which types

  /** p is free and comes before every other free one, 96 to 127 before 35 to 63. */
  ghost predicate FirstFree(used: set<nat>, p: nat) {
    p !in used && Dynamic(p) && forall q :: q !in used && Dynamic(q) && q != p ==> Sooner(p, q)
  }

  predicate Sooner(p: nat, q: nat) { if p >= 96 then q < 96 || p < q else q < 96 && p < q }

  lemma FreeIsFirst(used: set<nat>, p: nat)
    requires p !in used && Dynamic(p)
    ensures FreePt(used, 96).Some? && FirstFree(used, FreePt(used, 96).value)
  {
    BeforeFirst(used, 96, p);
    var f := FreePt(used, 96).value;
    forall q | q !in used && Dynamic(q) && q != f ensures Sooner(f, q) {
      BeforeFirst(used, 96, q);
    }
  }

  /** What kinds and codecs are given where a subscriber has two connections. */
  lemma UsualTypes(budget: nat, reserved: set<nat>, pts: Pts)
    ensures var e := Env(true, budget, reserved);
            var used := Used(pts, reserved);
            && ((Audio, Opus) !in pts && 111 !in used ==> PtFor(e, pts, Audio, Opus).0 == Pt(111, None))
            && ((Video, Vp8) !in pts && 96 !in used && 97 !in used ==> PtFor(e, pts, Video, Vp8).0 == Pt(96, Some(97)))
            && ((Video, H264) !in pts && 102 !in used && 103 !in used ==> PtFor(e, pts, Video, H264).0 == Pt(102, Some(103)))
  {
  }

  /** Elsewhere the first free type is given, for video with the first free one behind it. */
  lemma FirstTypes(budget: nat, reserved: set<nat>, pts: Pts, kind: Kind, codec: Codec, p: nat)
    requires (kind, codec) !in pts && Dynamic(p) && p !in Used(pts, reserved)
    ensures var used := Used(pts, reserved);
            var r := PtFor(Env(false, budget, reserved), pts, kind, codec).0;
            && FirstFree(used, r.main)
            && (kind.Audio? ==> r.rtx.None?)
            && (kind.Video? && (exists q :: q != r.main && Dynamic(q) && q !in used) ==>
                  r.rtx.Some? && FirstFree(used + {r.main}, r.rtx.value))
  {
    var used := Used(pts, reserved);
    FreeIsFirst(used, p);
    var r := PtFor(Env(false, budget, reserved), pts, kind, codec).0;
    if kind.Video? && exists q :: q != r.main && Dynamic(q) && q !in used {
      var q :| q != r.main && Dynamic(q) && q !in used;
      BehindIsFirst(used, r.main, q);
    }
  }

  lemma BehindIsFirst(used: set<nat>, f: nat, q: nat)
    requires FirstFree(used, f) && q != f && Dynamic(q) && q !in used
    ensures var g := FreePt(used, Next(f)); g.Some? && FirstFree(used + {f}, g.value)
  {
    BeforeFirst(used, Next(f), q);
    var g := FreePt(used, Next(f)).value;
    forall x | x !in used + {f} && Dynamic(x) && x != g ensures Sooner(g, x) {
      BeforeFirst(used, Next(f), x);
    }
  }
}
