/** The acknowledgement gate: media flows on a row only after the subscriber acknowledged a
    revision in which the row already was as it is now. */
module SubAck {
  import opened Wrappers
  import opened SubTable
  import SubSlots

  /** What the subscriber is told of a row. */
  datatype Entry = Entry(mid: nat, kind: Kind, class_: Class, codec: Codec, pt: Pt, track: Option<Key>)

  function EntryOf(r: Row): Entry { Entry(r.mid, r.kind, r.class_, r.codec, r.pt, r.track) }

  /** hist: the tables published so far, each with its revision, a history. */
  datatype Gate = Gate(s: State, acked: nat, hist: seq<(nat, Rows)>)

  /** A new table, whose offer gave these kinds and codecs their payload types. */
  function Fresh(seeds: Pts): Gate { Gate(State([], seeds, 0, map[]), 0, [(0, [])]) }

  // ---------------------------------------------------------------- steps

  function Round(e: Env, g: Gate, cands: seq<Cand>, now: nat): Gate {
    var s := Sync(e, g.s, cands, now).0;
    g.(s := s, hist := if s.arev != g.s.arev then g.hist + [(s.arev, s.rows)] else g.hist)
  }

  predicate Open(g: Gate, r: Row) { r.since <= g.acked }

  function Activate(rows: Rows, acked: nat): (r: Rows)
    ensures |r| == |rows|
  {
    seq(|rows|, i requires 0 <= i < |rows| =>
      if rows[i].track.Some? && rows[i].since <= acked then rows[i].(active := true) else rows[i])
  }

  /** An acknowledgement never counts beyond the table's own revision and never goes back. */
  function Ready(g: Gate, rev: nat): Gate {
    var ack := Min(g.s.arev, rev);
    var acked := if ack > g.acked then ack else g.acked;
    g.(acked := acked, s := g.s.(rows := Activate(g.s.rows, acked)))
  }

  /** A revision carried over from an earlier connection. */
  function Carry(g: Gate, rev: nat): Gate { if g.s.arev < rev then g.(s := g.s.(arev := rev)) else g }

  // ---------------------------------------------------------------- changed rows carry the revision

  ghost predicate Stamped(a: Rows, b: Rows, rev: nat) {
    && |a| <= |b|
    && (forall i :: 0 <= i < |a| ==> b[i].since == rev || b[i] == a[i])
    && (forall i :: |a| <= i < |b| ==> b[i].since == rev)
  }

  lemma StampedTwice(a: Rows, b: Rows, c: Rows, rev: nat)
    requires Stamped(a, b, rev) && Stamped(b, c, rev)
    ensures Stamped(a, c, rev)
  {
    forall i | 0 <= i < |a| ensures c[i].since == rev || c[i] == a[i] { }
  }

  lemma {:induction false} SlotsStamped(e: Env, base: Rows, w: Work, cs: seq<Cand>, rev: nat, now: nat)
    ensures Stamped(w.rows, LoadSlots(e, base, w, cs, rev, now).0.rows, rev)
    decreases |cs|
  {
    if cs != [] {
      var c := cs[0];
      if !c.class_.Slot? || Served(base, c) {
        SlotsStamped(e, base, w, cs[1..], rev, now);
      } else if Find(w.rows, (r: Row) => EmptySlotFor(r, c), 0).Some? || (Count(w.rows, IsSlot) < e.budget && |w.rows| < e.Limit()) {
        var v := SubSlots.Taken(e, w, c, rev, now);
        SlotsStamped(e, base, v, cs[1..], rev, now);
        StampedTwice(w.rows, v.rows, LoadSlots(e, base, v, cs[1..], rev, now).0.rows, rev);
      }
    }
  }

  lemma PlaceStamped(e: Env, w: Work, kind: Kind, c: Cand, rev: nat, now: nat)
    ensures var (v, i) := Place(e, w, kind, c);
            Stamped(w.rows, (if i.Some? then LoadAt(v, i.value, c, rev, now) else v).rows, rev)
  {
  }

  lemma {:induction false} FullStamped(e: Env, w: Work, waiting: map<nat, nat>, kind: Kind, ts: seq<Cand>, rev: nat, now: nat)
    ensures Stamped(w.rows, LoadFull(e, w, waiting, kind, ts, rev, now).0.rows, rev)
    decreases |ts|
  {
    if ts != [] {
      var c := ts[0];
      if OnFull(w.rows, c.key) {
        FullStamped(e, w, waiting - {c.key.track}, kind, ts[1..], rev, now);
      } else {
        var (v, i) := Place(e, w, kind, c);
        PlaceStamped(e, w, kind, c, rev, now);
        var x := if i.Some? then LoadAt(v, i.value, c, rev, now) else v;
        var left := if i.Some? then waiting - {c.key.track} else waiting;
        FullStamped(e, x, left, kind, ts[1..], rev, now);
        StampedTwice(w.rows, x.rows, LoadFull(e, x, left, kind, ts[1..], rev, now).0.rows, rev);
      }
    }
  }

  lemma PassStamped(e: Env, w: Work, waiting: map<nat, nat>, cands: seq<Cand>, kind: Kind, rev: nat, now: nat)
    ensures Stamped(w.rows, FullPass(e, w, waiting, cands, kind, rev, now).0.rows, rev)
  {
    var rows := Rehome(w.rows, cands, kind, rev);
    var desired := Desired(cands, kind);
    var waits := Waits(rows, kind, waiting, desired, now);
    var target := Target(rows, kind, waits, desired, now);
    var left := UnloadOthers(rows, kind, target, rev);
    assert Stamped(w.rows, rows, rev) && Stamped(rows, left, rev);
    StampedTwice(w.rows, rows, left, rev);
    FullStamped(e, w.(rows := left), waits, kind, target, rev, now);
    StampedTwice(w.rows, left, FullPass(e, w, waiting, cands, kind, rev, now).0.rows, rev);
  }

  /** A round stamps every row it changes or adds with its own revision. */
  lemma RoundStamped(e: Env, s: State, cands: seq<Cand>, now: nat)
    ensures var r := Sync(e, s, cands, now).0;
            Stamped(s.rows, r.rows, s.arev + 1) && r.arev == if r.rows != s.rows then s.arev + 1 else s.arev
  {
    SubSlots.AllOrNothing(e, s, cands, now);
    if !Refuses(e, s, cands) {
      ClosedIs(e, s, cands, now);
      AssignStamped(e, s, cands, now);
    }
  }

  lemma ClosedIs(e: Env, s: State, cands: seq<Cand>, now: nat)
    requires !Refuses(e, s, cands)
    ensures Sync(e, s, cands, now) == Closed(s, Assign(e, s, cands, now))
  {
  }

  lemma AssignStamped(e: Env, s: State, cands: seq<Cand>, now: nat)
    ensures Stamped(s.rows, Assign(e, s, cands, now).0.rows, s.arev + 1)
  {
    var (w, no) := SlotPart(e, s, cands, now);
    SlotPartStamped(e, s, cands, now);
    if !no {
      var (v, left) := Passes(e, w, s.waiting, cands, s.arev + 1, now);
      AssignIs(e, s, cands, now, w, v, left);
      PassesStamped(e, w, s.waiting, cands, s.arev + 1, now);
      StampedTwice(s.rows, w.rows, v.rows, s.arev + 1);
    }
  }

  lemma SlotPartStamped(e: Env, s: State, cands: seq<Cand>, now: nat)
    ensures Stamped(s.rows, SlotPart(e, s, cands, now).0.rows, s.arev + 1)
  {
    var rev := s.arev + 1;
    var base := UnloadSlots(s.rows, cands, rev);
    assert Stamped(s.rows, base, rev);
    SlotsStamped(e, base, Work(base, s.pts), cands, rev, now);
    StampedTwice(s.rows, base, SlotPart(e, s, cands, now).0.rows, rev);
  }

  lemma PassesStamped(e: Env, w: Work, waiting: map<nat, nat>, cands: seq<Cand>, rev: nat, now: nat)
    ensures Stamped(w.rows, Passes(e, w, waiting, cands, rev, now).0.rows, rev)
  {
    var (a, wa) := FullPass(e, w, waiting, cands, Audio, rev, now);
    PassStamped(e, w, waiting, cands, Audio, rev, now);
    PassStamped(e, a, wa, cands, Video, rev, now);
    StampedTwice(w.rows, a.rows, FullPass(e, a, wa, cands, Video, rev, now).0.rows, rev);
  }

  // ---------------------------------------------------------------- the gate

  /** The last table published at or before a revision. */
  function TableAt(hist: seq<(nat, Rows)>, rev: nat): Rows {
    if hist == [] then []
    else if hist[|hist| - 1].0 <= rev then hist[|hist| - 1].1
    else TableAt(hist[..|hist| - 1], rev)
  }

  /** Row i is now as it was in that table. */
  ghost predicate AsPublished(g: Gate, i: nat, rev: nat)
    requires i < |g.s.rows|
  {
    var t := TableAt(g.hist, rev);
    i < |t| && EntryOf(t[i]) == EntryOf(g.s.rows[i])
  }

  ghost predicate Ok(g: Gate) {
    && g.acked <= g.s.arev
    && (forall i :: 0 <= i < |g.s.rows| ==> g.s.rows[i].since <= g.s.arev)
    && (forall k :: 0 <= k < |g.hist| ==> g.hist[k].0 <= g.s.arev)
    && (forall i, rev :: 0 <= i < |g.s.rows| && g.s.rows[i].since <= rev <= g.s.arev ==> AsPublished(g, i, rev))
  }

  lemma RoundOk(e: Env, g: Gate, cands: seq<Cand>, now: nat)
    requires Ok(g)
    ensures Ok(Round(e, g, cands, now))
  {
    RoundStamped(e, g.s, cands, now);
    StampedOk(g, Sync(e, g.s, cands, now).0, Round(e, g, cands, now));
  }

  /** Any change that stamps what it touches with the next revision, and publishes it. */
  lemma StampedOk(g: Gate, s: State, r: Gate)
    requires Ok(g) && Stamped(g.s.rows, s.rows, g.s.arev + 1)
    requires s.arev == if s.rows != g.s.rows then g.s.arev + 1 else g.s.arev
    requires r == g.(s := s, hist := if s.arev != g.s.arev then g.hist + [(s.arev, s.rows)] else g.hist)
    ensures Ok(r)
  {
    var next := g.s.arev + 1;
    if r.s.rows != g.s.rows {
      assert r.hist[..|g.hist|] == g.hist;
      forall i, rev | 0 <= i < |r.s.rows| && r.s.rows[i].since <= rev <= r.s.arev ensures AsPublished(r, i, rev) {
        if rev < next { assert AsPublished(g, i, rev); }
      }
    } else {
      forall i, rev | 0 <= i < |r.s.rows| && r.s.rows[i].since <= rev <= r.s.arev ensures AsPublished(r, i, rev) {
        assert AsPublished(g, i, rev);
      }
    }
  }

  lemma ReadyOk(g: Gate, rev: nat)
    requires Ok(g)
    ensures Ok(Ready(g, rev)) && g.acked <= Ready(g, rev).acked
  {
    var r := Ready(g, rev);
    forall i, v | 0 <= i < |r.s.rows| && r.s.rows[i].since <= v <= r.s.arev ensures AsPublished(r, i, v) { assert AsPublished(g, i, v); }
  }

  /** Beyond the last revision, the last table stands. */
  lemma TableBeyond(hist: seq<(nat, Rows)>, a: nat, b: nat)
    requires a <= b && forall k :: 0 <= k < |hist| ==> hist[k].0 <= a
    ensures TableAt(hist, b) == TableAt(hist, a)
  {
  }

  lemma CarryOk(g: Gate, rev: nat)
    requires Ok(g)
    ensures Ok(Carry(g, rev))
  {
    var r := Carry(g, rev);
    forall i, v | 0 <= i < |r.s.rows| && r.s.rows[i].since <= v <= r.s.arev ensures AsPublished(r, i, v) {
      if v <= g.s.arev {
        assert AsPublished(g, i, v);
      } else {
        assert AsPublished(g, i, g.s.arev);
        TableBeyond(g.hist, g.s.arev, v);
      }
    }
  }

  datatype Event = DoRound(cands: seq<Cand>, now: nat) | DoReady(rev: nat) | DoCarry(rev: nat)

  function Step(e: Env, g: Gate, ev: Event): Gate {
    match ev
    case DoRound(cands, now) => Round(e, g, cands, now)
    case DoReady(rev) => Ready(g, rev)
    case DoCarry(rev) => Carry(g, rev)
  }

  function Run(e: Env, g: Gate, es: seq<Event>): Gate
    decreases |es|
  {
    if es == [] then g else Run(e, Step(e, g, es[0]), es[1..])
  }

  lemma {:induction false} RunOk(e: Env, g: Gate, es: seq<Event>)
    requires Ok(g)
    ensures Ok(Run(e, g, es))
    decreases |es|
  {
    if es != [] {
      match es[0] {
        case DoRound(cands, now) => RoundOk(e, g, cands, now);
        case DoReady(rev) => ReadyOk(g, rev);
        case DoCarry(rev) => CarryOk(g, rev);
      }
      RunOk(e, Step(e, g, es[0]), es[1..]);
    }
  }

  /** MAIN: in every run of rounds, acknowledgements and carried revisions, whatever offer and candidates,
      nothing is acknowledged that was not reached, and every open row is, in track, room, payload
      types and all else told of it, as in the table at the acknowledged revision. */
  lemma OpenRowsAreAcknowledged(e: Env, seeds: Pts, es: seq<Event>)
    ensures var g := Run(e, Fresh(seeds), es);
            && g.acked <= g.s.arev
            && forall i :: 0 <= i < |g.s.rows| && Open(g, g.s.rows[i]) ==> AsPublished(g, i, g.acked)
  {
    RunOk(e, Fresh(seeds), es);
  }

  // ---------------------------------------------------------------- what an acknowledgement does

  /** What the n-th event acknowledged: no more than had been reached. */
  function Reached(e: Env, g: Gate, es: seq<Event>, n: nat): nat
    requires n < |es| && es[n].DoReady?
  {
    Min(Run(e, g, es[..n]).s.arev, es[n].rev)
  }

  lemma {:induction false} RunSplit(e: Env, g: Gate, es: seq<Event>, ev: Event)
    ensures Run(e, g, es + [ev]) == Step(e, Run(e, g, es), ev)
    decreases |es|
  {
    if es == [] {
      assert [ev][1..] == [];
    } else {
      assert (es + [ev])[0] == es[0] && (es + [ev])[1..] == es[1..] + [ev];
      RunSplit(e, Step(e, g, es[0]), es[1..], ev);
    }
  }

  lemma StepAcks(e: Env, g: Gate, ev: Event)
    ensures var a := if ev.DoReady? then Min(g.s.arev, ev.rev) else 0;
            Step(e, g, ev).acked == if a > g.acked then a else g.acked
  {
  }

  /** MAIN: in every run, acknowledged is the most that any acknowledgement reached, and nothing before the first. */
  lemma {:induction false} AcknowledgedExactly(e: Env, seeds: Pts, es: seq<Event>)
    ensures var a := Run(e, Fresh(seeds), es).acked;
            && (forall n: nat :: n < |es| && es[n].DoReady? ==> Reached(e, Fresh(seeds), es, n) <= a)
            && (a == 0 || exists n: nat :: n < |es| && es[n].DoReady? && Reached(e, Fresh(seeds), es, n) == a)
    decreases |es|
  {
    if es != [] {
      var g0 := Fresh(seeds);
      var (before, ev) := (es[..|es| - 1], es[|es| - 1]);
      assert es == before + [ev];
      AcknowledgedExactly(e, seeds, before);
      RunSplit(e, g0, before, ev);
      StepAcks(e, Run(e, g0, before), ev);
      forall n: nat | n < |before| && es[n].DoReady? ensures Reached(e, g0, es, n) == Reached(e, g0, before, n) {
        assert es[..n] == before[..n];
      }
      assert es[..|es| - 1] == before;
      if Run(e, g0, es).acked == Run(e, g0, before).acked != 0 {
        var n: nat :| n < |before| && before[n].DoReady? && Reached(e, g0, before, n) == Run(e, g0, before).acked;
        assert Reached(e, g0, es, n) == Reached(e, g0, before, n);
      }
    }
  }

  /** MAIN: after any run, an acknowledgement changes nothing of a row but that it is open, and opens exactly those
      with a track whose last change it covers: all of them, if it is for the revision reached. A carried revision
      raises the revision and changes no row. */
  lemma ReadyOpensExactly(e: Env, seeds: Pts, es: seq<Event>, rev: nat)
    ensures var g := Run(e, Fresh(seeds), es);
            var r := Step(e, g, DoReady(rev));
            && r.s == g.s.(rows := r.s.rows) && |r.s.rows| == |g.s.rows|
            && (forall i :: 0 <= i < |r.s.rows| ==>
                  var (a, b) := (g.s.rows[i], r.s.rows[i]);
                  b == a.(active := b.active) && (b.active <==> a.active || (a.track.Some? && a.since <= r.acked)))
            && (rev >= g.s.arev ==>
                  forall i :: 0 <= i < |r.s.rows| ==> Open(r, r.s.rows[i]) && (r.s.rows[i].track.Some? ==> r.s.rows[i].active))
    ensures var g := Run(e, Fresh(seeds), es);
            var r := Step(e, g, DoCarry(rev));
            r.s == g.s.(arev := r.s.arev) && r.acked == g.acked && r.s.arev >= rev && r.s.arev >= g.s.arev && r.s.arev in {rev, g.s.arev}
  {
    RunOk(e, Fresh(seeds), es);
  }
}
