/** The assignment table of a subscriber: which track is on which m-line row. */
module SubTable {
  import opened Wrappers

  datatype Kind = Audio | Video
  datatype Class = Full | Slot

  /** Codec names up to case; a row's tuple is its kind and this. */
  datatype Codec = Opus | Vp8 | H264 | Other(name: nat)

  /** A track in a room. */
  datatype Key = Key(track: nat, room: nat)

  datatype Cand = Cand(key: Key, kind: Kind, class_: Class, codec: Codec, rank: int, paused: bool)

  datatype Pt = Pt(main: nat, rtx: Option<nat>)

  datatype Row = Row(mid: nat, kind: Kind, class_: Class, codec: Codec, pt: Pt, track: Option<Key>,
                     since: nat, loadedAt: nat, active: bool)

  type Rows = seq<Row>

  type Pts = map<(Kind, Codec), Pt>

  /** What does not change: modes, limits, payload types taken by the offer. */
  datatype Env = Env(twoPc: bool, budget: nat, reserved: set<nat>) {
    function Start(): nat { if twoPc then 0 else 32 }
    function Limit(): nat { if twoPc then 128 else 96 }
  }

  const FULL := 25

  /** waiting: since when a candidate has been without a row. */
  datatype State = State(rows: Rows, pts: Pts, arev: nat, waiting: map<nat, nat>)

  // ---------------------------------------------------------------- rows

  function UnloadRow(r: Row, rev: nat): Row {
    if r.track.None? then r else r.(track := None, since := rev, active := false)
  }

  function LoadRow(r: Row, c: Cand, rev: nat, now: nat): Row {
    r.(track := Some(c.key), since := rev, loadedAt := now, active := false)
  }

  function RehomeRow(r: Row, c: Cand, rev: nat): Row { r.(track := Some(c.key), since := rev) }

  /** The first index whose row satisfies p. */
  function Find(rows: Rows, p: Row -> bool, from: nat): (r: Option<nat>)
    requires from <= |rows|
    ensures r.Some? ==> from <= r.value < |rows| && p(rows[r.value]) && forall j :: from <= j < r.value ==> !p(rows[j])
    ensures r.None? ==> forall j :: from <= j < |rows| ==> !p(rows[j])
    decreases |rows| - from
  {
    if from == |rows| then None else if p(rows[from]) then Some(from) else Find(rows, p, from + 1)
  }

  function Count(rows: Rows, p: Row -> bool): nat {
    if rows == [] then 0 else (if p(rows[0]) then 1 else 0) + Count(rows[1..], p)
  }

  // ---------------------------------------------------------------- payload types

  function Used(pts: Pts, reserved: set<nat>): set<nat> {
    reserved + (set k | k in pts :: pts[k].main) + set k | k in pts && pts[k].rtx.Some? :: pts[k].rtx.value
  }

  /** Dynamic payload types in the order in which they are given out. */
  function FreePt(used: set<nat>, from: nat): (r: Option<nat>)
    ensures r.Some? ==> r.value !in used && Place96(from) <= Place96(r.value) && Dynamic(r.value)
    ensures r.None? ==> forall p :: Dynamic(p) && Place96(from) <= Place96(p) ==> p in used
    decreases used, if from > 63 then 128 - from + 64 else 64 - from
  {
    if 96 <= from <= 127 then (if from !in used then Some(from) else if from == 127 then FreePt(used, 35) else FreePt(used, from + 1))
    else if 35 <= from <= 63 then (if from !in used then Some(from) else if from == 63 then None else FreePt(used, from + 1))
    else None
  }

  predicate Dynamic(p: nat) { 96 <= p <= 127 || 35 <= p <= 63 }

  /** Where a payload type stands in the order: 96 to 127 come before 35 to 63. */
  function Place96(p: nat): nat { if 96 <= p <= 127 then p - 96 else if p < 64 then if p < 35 then 200 else p - 3 else 200 }

  function Next(from: nat): nat { if from == 127 then 35 else from + 1 }

  function Seed(e: Env, kind: Kind, codec: Codec): Option<Pt> {
    if !e.twoPc then None
    else if kind.Audio? && codec.Opus? then Some(Pt(111, None))
    else if kind.Video? && codec.Vp8? then Some(Pt(96, Some(97)))
    else if kind.Video? && codec.H264? then Some(Pt(102, Some(103)))
    else None
  }

  /** A codec of the subscriber's own offer; tuple is the kind and codec it stands for, none for audio
      other than Opus. */
  datatype Offered = Offered(pt: nat, rtx: Option<nat>, tuple: Option<(Kind, Codec)>)

  function Types(p: Pt): set<nat> { if p.rtx.Some? then {p.main, p.rtx.value} else {p.main} }

  /** All payload types of an offer are reserved. */
  function ReservedBy(offer: seq<Offered>): set<nat> {
    if offer == [] then {} else
    var o := offer[|offer| - 1];
    ReservedBy(offer[..|offer| - 1]) + Types(Pt(o.pt, o.rtx))
  }

  /** Its first types for a kind and codec are those that rows of the kind and codec will have. */
  function SeededBy(offer: seq<Offered>): Pts {
    if offer == [] then map[] else
    var (o, pts) := (offer[|offer| - 1], SeededBy(offer[..|offer| - 1]));
    if o.tuple.Some? && o.tuple.value !in pts then pts[o.tuple.value := Pt(o.pt, o.rtx)] else pts
  }

  /** The payload types of a kind and codec: once given they stay. */
  function PtFor(e: Env, pts: Pts, kind: Kind, codec: Codec): (r: (Pt, Pts))
    ensures (kind, codec) in r.1 && r.1[(kind, codec)] == r.0
    ensures forall k :: k in pts ==> k in r.1 && r.1[k] == pts[k]
  {
    if (kind, codec) in pts then (pts[(kind, codec)], pts)
    else
      var used := Used(pts, e.reserved);
      var seed := Seed(e, kind, codec);
      var p :=
        if seed.Some? && seed.value.main !in used && (seed.value.rtx.Some? ==> seed.value.rtx.value !in used) then seed.value
        else
          var a := FreePt(used, 96);
          if kind.Audio? then Pt(a.GetOr(127), None)
          else Pt(a.GetOr(126), Some((if a.None? then None else FreePt(used, Next(a.value))).GetOr(127)));
      (p, pts[(kind, codec) := p])
  }

  /** Where two are free, the second is found behind the first. */
  lemma TwoFree(used: set<nat>, from: nat, a: nat, b: nat)
    requires a != b && a !in used && b !in used && Dynamic(a) && Dynamic(b) && Dynamic(from)
    requires Place96(from) <= Place96(a) && Place96(from) <= Place96(b)
    ensures var first := FreePt(used, from);
            && first.Some?
            && var second := FreePt(used, Next(first.value)); second.Some? && second.value != first.value
  {
    BeforeFirst(used, from, a);
    BeforeFirst(used, from, b);
    var first := FreePt(used, from).value;
    BeforeFirst(used, Next(first), if first == a then b else a);
  }

  /** The first free one is the first. */
  lemma {:induction false} BeforeFirst(used: set<nat>, from: nat, p: nat)
    requires p !in used && Dynamic(p) && Dynamic(from) && Place96(from) <= Place96(p)
    ensures FreePt(used, from).Some? && Place96(FreePt(used, from).value) <= Place96(p)
    decreases used, if from > 63 then 128 - from + 64 else 64 - from
  {
    if from in used { BeforeFirst(used, Next(from), p); }
  }

  function NewRow(e: Env, n: nat, kind: Kind, class_: Class, codec: Codec, pt: Pt): Row {
    Row(e.Start() + n, kind, class_, codec, pt, None, 0, 0, false)
  }

  // ---------------------------------------------------------------- slots

  predicate IsSlot(r: Row) { r.class_.Slot? }

  predicate OnSlot(r: Row, kind: Kind, room: nat) {
    r.class_.Slot? && r.kind == kind && r.track.Some? && r.track.value.room == room
  }

  /** A slot for c is there already. */
  predicate Served(rows: Rows, c: Cand) { exists i :: 0 <= i < |rows| && OnSlot(rows[i], c.kind, c.key.room) }

  predicate Wanted(cands: seq<Cand>, room: nat, kind: Kind) {
    exists i :: 0 <= i < |cands| && cands[i].class_.Slot? && cands[i].key.room == room && cands[i].kind == kind
  }

  predicate Unwanted(cands: seq<Cand>, r: Row) {
    r.class_.Slot? && r.track.Some? && !Wanted(cands, r.track.value.room, r.kind)
  }

  predicate EmptySlotFor(r: Row, c: Cand) { r.class_.Slot? && r.kind == c.kind && r.track.None? && r.codec == c.codec }

  /** Row i could take c: empty or about to be, and not claimed. */
  predicate Claimable(rows: Rows, cands: seq<Cand>, claimed: set<nat>, c: Cand, i: nat)
    requires i < |rows|
  {
    i !in claimed && rows[i].class_.Slot? && rows[i].kind == c.kind && rows[i].codec == c.codec
    && (rows[i].track.None? || Unwanted(cands, rows[i]))
  }

  function FindClaimable(rows: Rows, cands: seq<Cand>, claimed: set<nat>, c: Cand, from: nat): (r: Option<nat>)
    requires from <= |rows|
    ensures r.Some? ==> from <= r.value < |rows| && Claimable(rows, cands, claimed, c, r.value)
                        && forall j :: from <= j < r.value ==> !Claimable(rows, cands, claimed, c, j)
    ensures r.None? ==> forall j :: from <= j < |rows| ==> !Claimable(rows, cands, claimed, c, j)
    decreases |rows| - from
  {
    if from == |rows| then None
    else if Claimable(rows, cands, claimed, c, from) then Some(from)
    else FindClaimable(rows, cands, claimed, c, from + 1)
  }

  /** How many new slot rows the candidates cs will need. */
  function FreshSlots(rows: Rows, cands: seq<Cand>, cs: seq<Cand>, claimed: set<nat>): nat
    decreases |cs|
  {
    if cs == [] then 0
    else if !cs[0].class_.Slot? || Served(rows, cs[0]) then FreshSlots(rows, cands, cs[1..], claimed)
    else
      match FindClaimable(rows, cands, claimed, cs[0], 0)
      case Some(i) => FreshSlots(rows, cands, cs[1..], claimed + {i})
      case None => 1 + FreshSlots(rows, cands, cs[1..], claimed)
  }

  function UnloadSlots(rows: Rows, cands: seq<Cand>, rev: nat): (r: Rows)
    ensures |r| == |rows|
  {
    seq(|rows|, i requires 0 <= i < |rows| => if Unwanted(cands, rows[i]) then UnloadRow(rows[i], rev) else rows[i])
  }

  /** Rows and payload types while a table is being worked on. */
  datatype Work = Work(rows: Rows, pts: Pts)

  function AddRow(e: Env, w: Work, kind: Kind, class_: Class, codec: Codec): Work {
    var (pt, pts) := PtFor(e, w.pts, kind, codec);
    Work(w.rows + [NewRow(e, |w.rows|, kind, class_, codec, pt)], pts)
  }

  function LoadAt(w: Work, i: nat, c: Cand, rev: nat, now: nat): Work
    requires i < |w.rows|
  {
    w.(rows := w.rows[i := LoadRow(w.rows[i], c, rev, now)])
  }

  /** Give every slot candidate that had none in base a row; true if the limits refused one. */
  function LoadSlots(e: Env, base: Rows, w: Work, cs: seq<Cand>, rev: nat, now: nat): (Work, bool)
    decreases |cs|
  {
    if cs == [] then (w, false)
    else if !cs[0].class_.Slot? || Served(base, cs[0]) then LoadSlots(e, base, w, cs[1..], rev, now)
    else
      var c := cs[0];
      match Find(w.rows, (r: Row) => EmptySlotFor(r, c), 0)
      case Some(i) => LoadSlots(e, base, LoadAt(w, i, c, rev, now), cs[1..], rev, now)
      case None =>
        if Count(w.rows, IsSlot) >= e.budget || |w.rows| >= e.Limit() then (w, true)
        else LoadSlots(e, base, LoadAt(AddRow(e, w, c.kind, Slot, c.codec), |w.rows|, c, rev, now), cs[1..], rev, now)
  }

  // ---------------------------------------------------------------- full tracks

  predicate IsFull(r: Row, kind: Kind) { r.class_.Full? && r.kind == kind }

  function FullOf(kind: Kind): Row -> bool { (r: Row) => IsFull(r, kind) }

  predicate Holds(r: Row, kind: Kind, key: Key) { IsFull(r, kind) && r.track == Some(key) }

  predicate Known(cands: seq<Cand>, key: Key) {
    exists i :: 0 <= i < |cands| && cands[i].class_.Full? && cands[i].key == key
  }

  /** The candidate that a track moved to: the first with its id, not paused, in whatever room. */
  function Moved(cands: seq<Cand>, kind: Kind, track: nat): (r: Option<Cand>)
    ensures r.Some? ==> r.value in cands && r.value.class_.Full? && r.value.kind == kind && r.value.key.track == track && !r.value.paused
  {
    if cands == [] then None
    else if cands[0].class_.Full? && cands[0].kind == kind && cands[0].key.track == track && !cands[0].paused then Some(cands[0])
    else Moved(cands[1..], kind, track)
  }

  function RehomeIf(cands: seq<Cand>, kind: Kind, r: Row, rev: nat): Row {
    if IsFull(r, kind) && r.track.Some? && !Known(cands, r.track.value) && Moved(cands, kind, r.track.value.track).Some?
    then RehomeRow(r, Moved(cands, kind, r.track.value.track).value, rev) else r
  }

  function Rehome(rows: Rows, cands: seq<Cand>, kind: Kind, rev: nat): (r: Rows)
    ensures |r| == |rows|
  {
    seq(|rows|, i requires 0 <= i < |rows| => RehomeIf(cands, kind, rows[i], rev))
  }

  function Desired(cands: seq<Cand>, kind: Kind): seq<Cand> {
    if cands == [] then []
    else (if cands[0].class_.Full? && cands[0].kind == kind && !cands[0].paused then [cands[0]] else []) + Desired(cands[1..], kind)
  }

  /** When the row that holds the key was loaded, if one does; of several the last row counts. */
  function LoadedAt(rows: Rows, kind: Kind, key: Key): Option<nat> {
    if rows == [] then None
    else if LoadedAt(rows[1..], kind, key).Some? then LoadedAt(rows[1..], kind, key)
    else if Holds(rows[0], kind, key) then Some(rows[0].loadedAt)
    else None
  }

  function Waits(rows: Rows, kind: Kind, waiting: map<nat, nat>, desired: seq<Cand>, now: nat): map<nat, nat>
    decreases |desired|
  {
    if desired == [] then waiting
    else
      var c := desired[0];
      var w := if LoadedAt(rows, kind, c.key).Some? || c.key.track in waiting then waiting else waiting[c.key.track := now];
      Waits(rows, kind, w, desired[1..], now)
  }

  /** Higher rank first; on a tie the loaded before the waiting, the later loaded first, the longer
      waiting first. */
  predicate Before(rows: Rows, kind: Kind, waiting: map<nat, nat>, now: nat, a: Cand, b: Cand) {
    var (x, y) := (LoadedAt(rows, kind, a.key), LoadedAt(rows, kind, b.key));
    a.rank > b.rank ||
    (a.rank == b.rank &&
     if x.Some? && y.Some? then x.value > y.value
     else if x.Some? || y.Some? then x.Some?
     else Since(waiting, a, now) < Since(waiting, b, now))
  }

  function Earlier(rows: Rows, kind: Kind, waiting: map<nat, nat>, now: nat): (Cand, Cand) -> bool {
    (a, b) => Before(rows, kind, waiting, now, a, b)
  }

  function Since(waiting: map<nat, nat>, c: Cand, now: nat): nat { if c.key.track in waiting then waiting[c.key.track] else now }

  /** A stable sort: c goes behind everything it does not come before. */
  function Insert(c: Cand, s: seq<Cand>, lt: (Cand, Cand) -> bool): seq<Cand> {
    if s == [] then [c] else if lt(c, s[0]) then [c] + s else [s[0]] + Insert(c, s[1..], lt)
  }

  function Sort(s: seq<Cand>, lt: (Cand, Cand) -> bool): seq<Cand> {
    if s == [] then [] else Insert(s[|s| - 1], Sort(s[..|s| - 1], lt), lt)
  }

  function Target(rows: Rows, kind: Kind, waiting: map<nat, nat>, desired: seq<Cand>, now: nat): seq<Cand> {
    var s := Sort(desired, Earlier(rows, kind, waiting, now));
    if |s| <= FULL then s else s[..FULL]
  }

  predicate Among(target: seq<Cand>, key: Key) { exists i :: 0 <= i < |target| && target[i].key == key }

  function UnloadOthers(rows: Rows, kind: Kind, target: seq<Cand>, rev: nat): (r: Rows)
    ensures |r| == |rows|
  {
    seq(|rows|, i requires 0 <= i < |rows| =>
      if IsFull(rows[i], kind) && rows[i].track.Some? && !Among(target, rows[i].track.value) then UnloadRow(rows[i], rev) else rows[i])
  }

  predicate EmptyFull(r: Row, kind: Kind) { IsFull(r, kind) && r.track.None? }

  /** The empty row that was loaded longest ago, the first of several. */
  function Oldest(rows: Rows, kind: Kind): (r: Option<nat>)
    ensures r.Some? ==> r.value < |rows| && EmptyFull(rows[r.value], kind)
    ensures r.Some? ==> forall i :: 0 <= i < |rows| && EmptyFull(rows[i], kind) ==> rows[r.value].loadedAt <= rows[i].loadedAt
    ensures r.None? ==> forall i :: 0 <= i < |rows| ==> !EmptyFull(rows[i], kind)
  {
    if rows == [] then None
    else
      var (r, n) := (Oldest(rows[..|rows| - 1], kind), |rows| - 1);
      if !EmptyFull(rows[n], kind) then r
      else if r.Some? && rows[r.value].loadedAt <= rows[n].loadedAt then r
      else Some(n)
  }

  function Retune(e: Env, w: Work, i: nat, codec: Codec): Work
    requires i < |w.rows|
  {
    var (pt, pts) := PtFor(e, w.pts, w.rows[i].kind, codec);
    Work(w.rows[i := w.rows[i].(codec := codec, pt := pt)], pts)
  }

  /** A row for c: one like it that is empty, a new one, or an empty one retuned; and whether retuned. */
  function Place(e: Env, w: Work, kind: Kind, c: Cand): (r: (Work, Option<nat>))
    ensures r.1.Some? ==> r.1.value < |r.0.rows|
  {
    match Find(w.rows, (r: Row) => EmptyFull(r, kind) && r.codec == c.codec, 0)
    case Some(i) => (w, Some(i))
    case None =>
      if Count(w.rows, FullOf(kind)) < FULL && |w.rows| < e.Limit() then
        (AddRow(e, w, kind, Full, c.codec), Some(|w.rows|))
      else
        match Oldest(w.rows, kind)
        case Some(i) => (Retune(e, w, i, c.codec), Some(i))
        case None => (w, None)
  }

  predicate OnFull(rows: Rows, key: Key) { exists i :: 0 <= i < |rows| && rows[i].class_.Full? && rows[i].track == Some(key) }

  /** Put every target on a row; it then no longer waits. */
  function LoadFull(e: Env, w: Work, waiting: map<nat, nat>, kind: Kind, target: seq<Cand>, rev: nat, now: nat): (Work, map<nat, nat>)
    decreases |target|
  {
    if target == [] then (w, waiting)
    else
      var c := target[0];
      if OnFull(w.rows, c.key) then LoadFull(e, w, waiting - {c.key.track}, kind, target[1..], rev, now)
      else
        var (v, i) := Place(e, w, kind, c);
        if i.None? then LoadFull(e, v, waiting, kind, target[1..], rev, now)
        else LoadFull(e, LoadAt(v, i.value, c, rev, now), waiting - {c.key.track}, kind, target[1..], rev, now)
  }

  /** One kind of full tracks: follow those that moved, choose, take down the others, put up the chosen. */
  function FullPass(e: Env, w: Work, waiting: map<nat, nat>, cands: seq<Cand>, kind: Kind, rev: nat, now: nat): (Work, map<nat, nat>) {
    var rows := Rehome(w.rows, cands, kind, rev);
    var desired := Desired(cands, kind);
    var waits := Waits(rows, kind, waiting, desired, now);
    var target := Target(rows, kind, waits, desired, now);
    LoadFull(e, w.(rows := UnloadOthers(rows, kind, target, rev)), waits, kind, target, rev, now)
  }

  // ---------------------------------------------------------------- synchronising

  predicate Refuses(e: Env, s: State, cands: seq<Cand>) {
    var n := FreshSlots(s.rows, cands, cands, {});
    n > 0 && (Count(s.rows, IsSlot) + n > e.budget || |s.rows| + n > e.Limit())
  }

  function SlotPart(e: Env, s: State, cands: seq<Cand>, now: nat): (Work, bool) {
    var base := UnloadSlots(s.rows, cands, s.arev + 1);
    LoadSlots(e, base, Work(base, s.pts), cands, s.arev + 1, now)
  }

  /** The two passes over full tracks. */
  function Passes(e: Env, w: Work, waiting: map<nat, nat>, cands: seq<Cand>, rev: nat, now: nat): (Work, map<nat, nat>) {
    var (a, wa) := FullPass(e, w, waiting, cands, Audio, rev, now);
    FullPass(e, a, wa, cands, Video, rev, now)
  }

  function StillAround(waiting: map<nat, nat>, cands: seq<Cand>): map<nat, nat> {
    map t | t in waiting && (exists i :: 0 <= i < |cands| && cands[i].key.track == t) :: waiting[t]
  }

  /** Slots, then full audio, then full video. */
  function Assign(e: Env, s: State, cands: seq<Cand>, now: nat): (Work, map<nat, nat>, bool) {
    AfterSlots(e, s, cands, now, SlotPart(e, s, cands, now))
  }

  /** The rest of a round, unless the slots were refused. */
  function AfterSlots(e: Env, s: State, cands: seq<Cand>, now: nat, slots: (Work, bool)): (Work, map<nat, nat>, bool) {
    if slots.1 then (slots.0, s.waiting, true) else AfterPasses(cands, Passes(e, slots.0, s.waiting, cands, s.arev + 1, now))
  }

  function AfterPasses(cands: seq<Cand>, full: (Work, map<nat, nat>)): (Work, map<nat, nat>, bool) {
    (full.0, StillAround(full.1, cands), false)
  }

  /** The table after a round, and whether the round was refused. A changed row always carries the
      new revision, so the table changed exactly if its rows did. */
  function Sync(e: Env, s: State, cands: seq<Cand>, now: nat): (State, bool) {
    if Refuses(e, s, cands) then (s, true) else Closed(s, Assign(e, s, cands, now))
  }

  function Closed(s: State, r: (Work, map<nat, nat>, bool)): (State, bool) {
    (State(r.0.rows, r.0.pts, if !r.2 && r.0.rows != s.rows then s.arev + 1 else s.arev, r.1), r.2)
  }

  lemma AssignIs(e: Env, s: State, cands: seq<Cand>, now: nat, w: Work, v: Work, left: map<nat, nat>)
    requires SlotPart(e, s, cands, now) == (w, false) && Passes(e, w, s.waiting, cands, s.arev + 1, now) == (v, left)
    ensures Assign(e, s, cands, now) == (v, StillAround(left, cands), false)
  {
  }
}
