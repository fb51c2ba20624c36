/** Whole runs of an assignment table: rounds, acknowledgements and carried revisions. */
module SubRuns {
  import opened Wrappers
  import opened SubTable
  import opened SubSlots
  import opened SubFull
  import opened SubRounds
  import opened SubSync
  import G = SubAck

  // ---------------------------------------------------------------- a catalogue of tracks

  /** The candidates of a round are distinct, and each track has the kind the catalogue says. */
  ghost predicate Catalogued(cands: seq<Cand>, kindOf: nat -> Kind) {
    CandsDiffer(cands) && forall c :: c in cands && c.class_.Full? ==> c.kind == kindOf(c.key.track)
  }

  /** The tracks on full rows are on rows of their kind. */
  ghost predicate KindsHold(rows: Rows, kindOf: nat -> Kind) {
    forall i :: 0 <= i < |rows| && rows[i].class_.Full? && rows[i].track.Some? ==> rows[i].kind == kindOf(rows[i].track.value.track)
  }

  lemma DesiredKind(cands: seq<Cand>, kindOf: nat -> Kind, kind: Kind, key: Key)
    requires Catalogued(cands, kindOf) && Among(Desired(cands, kind), key)
    ensures kindOf(key.track) == kind
  {
    var d := Desired(cands, kind);
    var k :| 0 <= k < |d| && d[k].key == key;
    DesiredIs(cands, kind, d[k]);
  }

  lemma NeverBlocked(s: State, cands: seq<Cand>, now: nat, kindOf: nat -> Kind)
    requires Catalogued(cands, kindOf) && KindsHold(s.rows, kindOf)
    ensures !Blocked(s, cands, now)
  {
    var (t, d) := (AudioChoice(s, cands, now), Desired(cands, Audio));
    ChosenAre(s.rows, s.waiting, cands, Audio, s.arev + 1, now);
    forall k | 0 <= k < |t| ensures kindOf(t[k].key.track) == Audio {
      assert t[k] in t;
      var m :| 0 <= m < |d| && d[m] == t[k];
      DesiredKind(cands, kindOf, Audio, t[k].key);
    }
  }

  lemma RoundKinds(e: Env, s: State, cands: seq<Cand>, now: nat, kindOf: nat -> Kind)
    requires TableOk(e, s.rows) && Catalogued(cands, kindOf) && KindsHold(s.rows, kindOf)
    ensures KindsHold(Sync(e, s, cands, now).0.rows, kindOf)
  {
    var r := Sync(e, s, cands, now).0.rows;
    RoundKeeps(e, s, cands, now);
    AllOrNothing(e, s, cands, now);
    if !Refuses(e, s, cands) {
      forall i | 0 <= i < |r| && r[i].class_.Full? && r[i].track.Some? ensures r[i].kind == kindOf(r[i].track.value.track) {
        assert Busy(r[i], r[i].kind);
        DesiredKind(cands, kindOf, r[i].kind, r[i].track.value);
      }
    }
  }

  // ---------------------------------------------------------------- runs

  /** Acknowledgements touch nothing that the order of a table speaks of. */
  lemma ActivateKeeps(e: Env, rows: Rows, acked: nat)
    requires TableOk(e, rows)
    ensures TableOk(e, G.Activate(rows, acked))
  {
    var r := G.Activate(rows, acked);
    forall kind ensures Count(r, FullOf(kind)) == Count(rows, FullOf(kind)) { CountSame(r, rows, FullOf(kind)); }
    CountSame(r, rows, IsSlot);
    forall i, k, m | 0 <= i < |r| && OnSlot(r[i], k, m) ensures OnSlot(rows[i], k, m) { }
    forall i, k | 0 <= i < |r| && Busy(r[i], k) ensures Busy(rows[i], k) && r[i].track == rows[i].track { }
  }

  lemma StepKeeps(e: Env, g: G.Gate, ev: G.Event)
    requires TableOk(e, g.s.rows) && (ev.DoRound? ==> CandsDiffer(ev.cands))
    ensures TableOk(e, G.Step(e, g, ev).s.rows)
  {
    match ev
    case DoRound(cands, now) => RoundKeeps(e, g.s, cands, now);
    case DoReady(rev) => ActivateKeeps(e, g.s.rows, G.Ready(g, rev).acked);
    case DoCarry(_) =>
  }

  lemma StepKinds(e: Env, g: G.Gate, ev: G.Event, kindOf: nat -> Kind)
    requires TableOk(e, g.s.rows) && KindsHold(g.s.rows, kindOf) && (ev.DoRound? ==> Catalogued(ev.cands, kindOf))
    ensures KindsHold(G.Step(e, g, ev).s.rows, kindOf)
  {
    match ev
    case DoRound(cands, now) => RoundKinds(e, g.s, cands, now, kindOf);
    case DoReady(_) =>
    case DoCarry(_) =>
  }

  ghost predicate AllDiffer(es: seq<G.Event>) { forall ev :: ev in es && ev.DoRound? ==> CandsDiffer(ev.cands) }

  ghost predicate AllCatalogued(es: seq<G.Event>, kindOf: nat -> Kind) {
    forall ev :: ev in es && ev.DoRound? ==> Catalogued(ev.cands, kindOf)
  }

  lemma {:induction false} RunKeeps(e: Env, g: G.Gate, es: seq<G.Event>)
    requires TableOk(e, g.s.rows) && AllDiffer(es)
    ensures TableOk(e, G.Run(e, g, es).s.rows)
    decreases |es|
  {
    if es != [] {
      assert es[0] in es;
      StepKeeps(e, g, es[0]);
      RunKeeps(e, G.Step(e, g, es[0]), es[1..]);
    }
  }

  lemma {:induction false} RunKinds(e: Env, g: G.Gate, es: seq<G.Event>, kindOf: nat -> Kind)
    requires TableOk(e, g.s.rows) && KindsHold(g.s.rows, kindOf) && AllCatalogued(es, kindOf)
    ensures KindsHold(G.Run(e, g, es).s.rows, kindOf)
    decreases |es|
  {
    if es != [] {
      assert es[0] in es;
      StepKeeps(e, g, es[0]);
      StepKinds(e, g, es[0], kindOf);
      RunKinds(e, G.Step(e, g, es[0]), es[1..], kindOf);
    }
  }

  /** MAIN: whatever the offer, in every run of rounds with distinct candidates, acknowledgements and carried revisions, the table
      is in order: no track on two rows, no room and kind on two slots, all limits kept, mids in sequence. */
  lemma TablesStayInOrder(e: Env, seeds: Pts, es: seq<G.Event>)
    requires AllDiffer(es)
    ensures TableOk(e, G.Run(e, G.Fresh(seeds), es).s.rows)
  {
    RunKeeps(e, G.Fresh(seeds), es);
  }

  /** MAIN: with candidates from a catalogue in which a track has one kind, every round of every run is refused
      as a whole or optimal, and repeating one that was not refused changes no row. */
  lemma EveryRoundIsOptimal(e: Env, seeds: Pts, es: seq<G.Event>, cands: seq<Cand>, now: nat, later: nat, kindOf: nat -> Kind)
    requires AllCatalogued(es, kindOf) && Catalogued(cands, kindOf) && e.budget + 2 * FULL <= e.Limit()
    ensures var s := G.Run(e, G.Fresh(seeds), es).s;
            var (r, no) := Sync(e, s, cands, now);
            if no then r == s && Refuses(e, s, cands)
            else Optimal(e, s.rows, r.rows, cands) && Sync(e, r, cands, later).0.rows == r.rows
  {
    var s := G.Run(e, G.Fresh(seeds), es).s;
    RunKeeps(e, G.Fresh(seeds), es);
    RunKinds(e, G.Fresh(seeds), es, kindOf);
    AllOrNothing(e, s, cands, now);
    if !Refuses(e, s, cands) {
      NeverBlocked(s, cands, now, kindOf);
      RoundIsOptimal(e, s, cands, now);
      SecondRoundIdle(e, s, cands, now, later);
    }
  }

  // ---------------------------------------------------------------- a track that changes its kind

  lemma LoneDesired(c: Cand)
    requires c.class_.Full? && !c.paused
    ensures Desired([c], c.kind) == [c]
  {
    assert [c][1..] == [];
    assert Desired([c][1..], c.kind) == [];
    assert [c] + [] == [c];
  }

  /** Alone in an optimal round, a full candidate is loaded. */
  lemma LoneIsLoaded(e: Env, before: Rows, after: Rows, c: Cand)
    requires c.class_.Full? && !c.paused && TopOnRows(before, after, [c], c.kind)
    ensures IsLoaded(after, c.kind, c.key)
  {
    LoneDesired(c);
    var n :| n in Tracks(after, c.kind);
    var i :| 0 <= i < |after| && IsFull(after[i], c.kind) && after[i].track.Some? && after[i].track.value.track == n;
    assert IsLoaded(after, c.kind, after[i].track.value);
  }

  lemma LoneDiffers(c: Cand)
    ensures CandsDiffer([c])
  {
  }

  lemma LoneNotRefused(e: Env, s: State, c: Cand)
    requires c.class_.Full?
    ensures !Refuses(e, s, [c])
  {
    NothingFresh(s.rows, [c], [c], {});
  }

  lemma LoneBlocked(s: State, a: Cand, now: nat)
    requires a.class_.Full? && a.kind.Audio? && !a.paused && IsLoaded(s.rows, Video, a.key)
    ensures Blocked(s, [a], now)
  {
    var t := AudioChoice(s, [a], now);
    LoneDiffers(a);
    LoneDesired(a);
    ChosenAre(s.rows, s.waiting, [a], Audio, s.arev + 1, now);
    assert t[0] in t;
    assert Among(t, a.key);
    var i :| 0 <= i < |s.rows| && Holds(s.rows[i], Video, a.key);
  }

  /** The failing input: a track put up as full video and then offered, in the same room, as full audio. The
      round is not optimal and leaves it on no audio row; the next one puts it up. */
  lemma ChangedKindWaits(e: Env, seeds: Pts, v: Cand, a: Cand, n1: nat, n2: nat, n3: nat)
    requires v.class_.Full? && v.kind.Video? && !v.paused && a.class_.Full? && a.kind.Audio? && !a.paused && v.key == a.key
    requires e.budget + 2 * FULL <= e.Limit()
    ensures var s1 := Sync(e, G.Fresh(seeds).s, [v], n1).0;
            var s2 := Sync(e, s1, [a], n2).0;
            var s3 := Sync(e, s2, [a], n3).0;
            && IsLoaded(s1.rows, Video, a.key)
            && Blocked(s1, [a], n2) && !Optimal(e, s1.rows, s2.rows, [a]) && !TopOnRows(s1.rows, s2.rows, [a], Audio)
            && Optimal(e, s2.rows, s3.rows, [a]) && IsLoaded(s3.rows, Audio, a.key)
  {
    var s0 := G.Fresh(seeds).s;
    var s1 := Sync(e, s0, [v], n1).0;
    LoneDiffers(v);
    LoneDiffers(a);
    LoneNotRefused(e, s0, v);
    LoneNotRefused(e, s1, a);
    RoundKeeps(e, s0, [v], n1);
    RoundTops(e, s0, [v], n1);
    LoneIsLoaded(e, s0.rows, s1.rows, v);
    LoneBlocked(s1, a, n2);
    RoundIsOptimal(e, s1, [a], n2);
    RoundTops(e, s1, [a], n2);
    OptimalInTwo(e, s1, [a], n2, n3, n3);
    LoneIsLoaded(e, Sync(e, s1, [a], n2).0.rows, Sync(e, Sync(e, s1, [a], n2).0, [a], n3).0.rows, a);
  }
}
