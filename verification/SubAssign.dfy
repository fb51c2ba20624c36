/** The assignment table as it runs: loops over rows and candidates, in place. */
module SubAssign {
  import opened Wrappers
  import opened T = SubTable
  import G = SubAck

  /** The loop over the codecs of an offer. */
  method ReadOffer(offer: seq<Offered>) returns (reserved: set<nat>, pts: Pts)
    ensures reserved == ReservedBy(offer) && pts == SeededBy(offer)
  {
    reserved, pts := {}, map[];
    for i := 0 to |offer|
      invariant reserved == ReservedBy(offer[..i]) && pts == SeededBy(offer[..i])
    {
      var o := offer[i];
      assert offer[..i + 1][..i] == offer[..i];
      reserved := reserved + {o.pt};
      if o.rtx.Some? { reserved := reserved + {o.rtx.value}; }
      if o.tuple.Some? && o.tuple.value !in pts { pts := pts[o.tuple.value := Pt(o.pt, o.rtx)]; }
    }
    assert offer[..|offer|] == offer;
  }

  class Table {
    const env: Env
    var rows: Rows
    var pts: Pts
    var arev: nat
    var waiting: map<nat, nat>
    var acked: nat

    function Now(): State
      reads this
    {
      State(rows, pts, arev, waiting)
    }

    function Job(): Work
      reads this
    {
      Work(rows, pts)
    }

    /** The table of a subscriber with this offer, which one with two connections does not have. */
    constructor (twoPc: bool, budget: nat, offer: seq<Offered>)
      ensures env == Env(twoPc, budget, ReservedBy(offer)) && Now() == G.Fresh(SeededBy(offer)).s && acked == 0
    {
      var reserved, seeds := ReadOffer(offer);
      env := Env(twoPc, budget, reserved);
      rows, pts, arev, waiting, acked := [], seeds, 0, map[], 0;
    }

    method CountFresh(cands: seq<Cand>) returns (n: nat)
      ensures n == FreshSlots(rows, cands, cands, {})
    {
      n := 0;
      var claimed: set<nat> := {};
      for k := 0 to |cands|
        invariant n + FreshSlots(rows, cands, cands[k..], claimed) == FreshSlots(rows, cands, cands, {})
      {
        assert cands[k..][1..] == cands[k + 1..];
        var c := cands[k];
        if c.class_.Slot? && !Served(rows, c) {
          var i := FindClaimable(rows, cands, claimed, c, 0);
          if i.Some? { claimed := claimed + {i.value}; } else { n := n + 1; }
        }
      }
    }

    method TakeDownSlots(cands: seq<Cand>, rev: nat)
      modifies this`rows
      ensures rows == UnloadSlots(old(rows), cands, rev)
    {
      for i := 0 to |rows|
        invariant |rows| == |old(rows)|
        invariant forall j :: 0 <= j < |rows| ==> rows[j] == if j < i then UnloadSlots(old(rows), cands, rev)[j] else old(rows)[j]
      {
        if Unwanted(cands, rows[i]) { rows := rows[i := UnloadRow(rows[i], rev)]; }
      }
    }

    method Load(i: nat, c: Cand, rev: nat, now: nat)
      requires i < |rows|
      modifies this`rows
      ensures Job() == LoadAt(old(Job()), i, c, rev, now)
    {
      rows := rows[i := LoadRow(rows[i], c, rev, now)];
    }

    method Add(kind: Kind, class_: Class, codec: Codec) returns (i: nat)
      modifies this`rows, this`pts
      ensures Job() == AddRow(env, old(Job()), kind, class_, codec) && i == |old(rows)| < |rows|
    {
      var (pt, more) := PtFor(env, pts, kind, codec);
      pts := more;
      i := |rows|;
      rows := rows + [NewRow(env, i, kind, class_, codec, pt)];
    }

    method PutUpSlots(base: Rows, cands: seq<Cand>, rev: nat, now: nat) returns (refused: bool)
      modifies this`rows, this`pts
      ensures (Job(), refused) == LoadSlots(env, base, old(Job()), cands, rev, now)
    {
      refused := false;
      for k := 0 to |cands|
        invariant LoadSlots(env, base, Job(), cands[k..], rev, now) == LoadSlots(env, base, old(Job()), cands, rev, now)
      {
        assert cands[k..][1..] == cands[k + 1..];
        var c := cands[k];
        if c.class_.Slot? && !Served(base, c) {
          var free := Find(rows, (r: Row) => EmptySlotFor(r, c), 0);
          var i;
          if free.Some? {
            i := free.value;
          } else {
            if Count(rows, IsSlot) >= env.budget || |rows| >= env.Limit() { return true; }
            i := Add(c.kind, Slot, c.codec);
          }
          Load(i, c, rev, now);
        }
      }
    }

    method FollowMoved(cands: seq<Cand>, kind: Kind, rev: nat)
      modifies this`rows
      ensures rows == Rehome(old(rows), cands, kind, rev)
    {
      for i := 0 to |rows|
        invariant |rows| == |old(rows)|
        invariant forall j :: 0 <= j < |rows| ==> rows[j] == if j < i then Rehome(old(rows), cands, kind, rev)[j] else old(rows)[j]
      {
        var r := rows[i];
        if IsFull(r, kind) && r.track.Some? && !Known(cands, r.track.value) {
          var c := Moved(cands, kind, r.track.value.track);
          if c.Some? { rows := rows[i := RehomeRow(r, c.value, rev)]; }
        }
      }
    }

    method TakeDownOthers(kind: Kind, target: seq<Cand>, rev: nat)
      modifies this`rows
      ensures rows == UnloadOthers(old(rows), kind, target, rev)
    {
      for i := 0 to |rows|
        invariant |rows| == |old(rows)|
        invariant forall j :: 0 <= j < |rows| ==> rows[j] == if j < i then UnloadOthers(old(rows), kind, target, rev)[j] else old(rows)[j]
      {
        var r := rows[i];
        if IsFull(r, kind) && r.track.Some? && !Among(target, r.track.value) { rows := rows[i := UnloadRow(r, rev)]; }
      }
    }

    method MarkWaiting(kind: Kind, desired: seq<Cand>, now: nat)
      modifies this`waiting
      ensures waiting == Waits(rows, kind, old(waiting), desired, now)
    {
      for k := 0 to |desired|
        invariant Waits(rows, kind, waiting, desired[k..], now) == Waits(rows, kind, old(waiting), desired, now)
      {
        assert desired[k..][1..] == desired[k + 1..];
        var c := desired[k];
        if LoadedAt(rows, kind, c.key).None? && c.key.track !in waiting { waiting := waiting[c.key.track := now]; }
      }
    }

    /** A row for c: an empty one like it, a new one, or an empty one retuned. */
    method Room(kind: Kind, c: Cand) returns (i: Option<nat>)
      modifies this`rows, this`pts
      ensures (Job(), i) == Place(env, old(Job()), kind, c)
    {
      i := Find(rows, (r: Row) => EmptyFull(r, kind) && r.codec == c.codec, 0);
      if i.None? {
        if Count(rows, FullOf(kind)) < FULL && |rows| < env.Limit() {
          var n := Add(kind, Full, c.codec);
          i := Some(n);
        } else {
          i := Oldest(rows, kind);
          if i.Some? {
            var (pt, more) := PtFor(env, pts, rows[i.value].kind, c.codec);
            pts := more;
            rows := rows[i.value := rows[i.value].(codec := c.codec, pt := pt)];
          }
        }
      }
    }

    method PutUpFull(kind: Kind, target: seq<Cand>, rev: nat, now: nat)
      modifies this`rows, this`pts, this`waiting
      ensures (Job(), waiting) == LoadFull(env, old(Job()), old(waiting), kind, target, rev, now)
    {
      for k := 0 to |target|
        invariant LoadFull(env, Job(), waiting, kind, target[k..], rev, now)
                  == LoadFull(env, old(Job()), old(waiting), kind, target, rev, now)
      {
        assert target[k..][1..] == target[k + 1..];
        var c := target[k];
        if OnFull(rows, c.key) {
          waiting := waiting - {c.key.track};
        } else {
          var i := Room(kind, c);
          if i.Some? {
            waiting := waiting - {c.key.track};
            Load(i.value, c, rev, now);
          }
        }
      }
    }

    method Pass(cands: seq<Cand>, kind: Kind, rev: nat, now: nat)
      modifies this`rows, this`pts, this`waiting
      ensures (Job(), waiting) == FullPass(env, old(Job()), old(waiting), cands, kind, rev, now)
    {
      FollowMoved(cands, kind, rev);
      var desired := Desired(cands, kind);
      MarkWaiting(kind, desired, now);
      var target := Target(rows, kind, waiting, desired, now);
      TakeDownOthers(kind, target, rev);
      PutUpFull(kind, target, rev, now);
    }

    method AssignSlots(cands: seq<Cand>, now: nat) returns (refused: bool)
      modifies this`rows, this`pts
      ensures (Job(), refused) == SlotPart(env, old(Now()), cands, now)
    {
      TakeDownSlots(cands, arev + 1);
      refused := PutUpSlots(rows, cands, arev + 1, now);
    }

    /** Audio first, then video. */
    method BothPasses(cands: seq<Cand>, rev: nat, now: nat)
      modifies this`rows, this`pts, this`waiting
      ensures (Job(), waiting) == Passes(env, old(Job()), old(waiting), cands, rev, now)
    {
      Pass(cands, Audio, rev, now);
      Pass(cands, Video, rev, now);
    }

    /** The full rows, and who still waits. */
    method AssignFull(cands: seq<Cand>, now: nat)
      modifies this`rows, this`pts, this`waiting
      ensures (Job(), waiting, false) == AfterPasses(cands, Passes(env, old(Job()), old(waiting), cands, arev + 1, now))
    {
      BothPasses(cands, arev + 1, now);
      waiting := StillAround(waiting, cands);
    }

    method AssignAll(cands: seq<Cand>, now: nat) returns (refused: bool)
      modifies this`rows, this`pts, this`waiting
      ensures (Job(), waiting, refused) == Assign(env, old(Now()), cands, now)
    {
      ghost var was := Now();
      refused := AssignSlots(cands, now);
      ghost var slots := (Job(), refused);
      if !refused { AssignFull(cands, now); }
      assert (Job(), waiting, refused) == AfterSlots(env, was, cands, now, slots);
      assert slots == SlotPart(env, was, cands, now);
    }

    /** Whether the rows that the slots need would exceed a limit. */
    method TooMany(cands: seq<Cand>) returns (b: bool)
      ensures b == Refuses(env, Now(), cands)
    {
      var n := CountFresh(cands);
      b := n > 0 && (Count(rows, IsSlot) + n > env.budget || |rows| + n > env.Limit());
    }

    method Apply(cands: seq<Cand>, now: nat) returns (refused: bool)
      modifies this
      ensures acked == old(acked)
      ensures !Refuses(env, old(Now()), cands) ==> (Now(), refused) == Sync(env, old(Now()), cands, now)
    {
      var before := rows;
      ghost var was := Now();
      refused := AssignAll(cands, now);
      ghost var done := (Job(), waiting, refused);
      if !refused && rows != before { arev := arev + 1; }
      assert (Now(), refused) == Closed(was, done);
      if !Refuses(env, was, cands) { G.ClosedIs(env, was, cands, now); }
    }

    /** One round of assignment. */
    method Round(cands: seq<Cand>, now: nat) returns (refused: bool)
      modifies this
      ensures (Now(), refused) == Sync(env, old(Now()), cands, now) && acked == old(acked)
    {
      refused := TooMany(cands);
      if !refused { refused := Apply(cands, now); }
    }

    /** The subscriber acknowledges a revision. */
    method Acknowledge(rev: nat)
      modifies this`rows, this`acked
      ensures forall hist :: G.Gate(Now(), acked, hist) == G.Ready(G.Gate(old(Now()), old(acked), hist), rev)
    {
      var ack := if arev < rev then arev else rev;
      if ack > acked { acked := ack; }
      var (before, a) := (rows, acked);
      for i := 0 to |rows|
        invariant |rows| == |before| && acked == a
        invariant forall j :: 0 <= j < |rows| ==> rows[j] == if j < i then G.Activate(before, a)[j] else before[j]
      {
        if !rows[i].active && rows[i].track.Some? && rows[i].since <= acked { rows := rows[i := rows[i].(active := true)]; }
      }
      assert rows == G.Activate(before, a);
    }

    method CarryOver(rev: nat)
      modifies this
      ensures forall hist :: G.Gate(Now(), acked, hist) == G.Carry(G.Gate(old(Now()), old(acked), hist), rev)
    {
      if arev < rev { arev := rev; }
    }
  }
}
