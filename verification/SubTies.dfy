/** How a round decides between candidates of one rank, and since when the others are held to have waited. */
module SubTies {
  import opened Wrappers
  import opened SubTable
  import opened SubSlots
  import opened SubFull
  import opened SubRounds
  import opened SubSync

  /** Since when track t waits, from now on at the latest. */
  function WaitsSince(waiting: map<nat, nat>, t: nat, now: nat): nat { if t in waiting then waiting[t] else now }

  // ---------------------------------------------------------------- waiting

  /** Marking as waiting moves no waiting time, and marks exactly the desired ones without a row. */
  lemma {:induction false} MarkedAs(rows: Rows, kind: Kind, waiting: map<nat, nat>, desired: seq<Cand>, now: nat, t: nat)
    ensures var w := Waits(rows, kind, waiting, desired, now);
            && WaitsSince(w, t, now) == WaitsSince(waiting, t, now)
            && (t in w <==> t in waiting || exists c :: c in desired && c.key.track == t && LoadedAt(rows, kind, c.key).None?)
    decreases |desired|
  {
    if desired != [] {
      var c := desired[0];
      var w := if LoadedAt(rows, kind, c.key).Some? || c.key.track in waiting then waiting else waiting[c.key.track := now];
      MarkedAs(rows, kind, w, desired[1..], now, t);
      assert desired == [c] + desired[1..];
    }
  }

  /** Only targets stop waiting. */
  lemma {:induction false} OthersWait(e: Env, w: Work, waiting: map<nat, nat>, kind: Kind, target: seq<Cand>, rev: nat, now: nat, t: nat)
    requires forall c :: c in target ==> c.key.track != t
    ensures var left := LoadFull(e, w, waiting, kind, target, rev, now).1;
            (t in left <==> t in waiting) && WaitsSince(left, t, now) == WaitsSince(waiting, t, now)
    decreases |target|
  {
    if target != [] {
      var c := target[0];
      assert c in target && c.key.track != t;
      if OnFull(w.rows, c.key) {
        OthersWait(e, w, waiting - {c.key.track}, kind, target[1..], rev, now, t);
      } else {
        var (v, i) := Place(e, w, kind, c);
        if i.None? { OthersWait(e, v, waiting, kind, target[1..], rev, now, t); }
        else { OthersWait(e, LoadAt(v, i.value, c, rev, now), waiting - {c.key.track}, kind, target[1..], rev, now, t); }
      }
    }
  }

  // ---------------------------------------------------------------- one pass

  /** In a table where tracks differ the row that holds the key says when it was loaded. */
  lemma {:induction false} LoadedAtRow(rows: Rows, kind: Kind, key: Key, i: nat)
    requires KindDiffer(rows, kind) && i < |rows| && Holds(rows[i], kind, key)
    ensures LoadedAt(rows, kind, key) == Some(rows[i].loadedAt)
  {
    var rest := rows[1..];
    forall j | 0 <= j < |rest| ensures rest[j] == rows[j + 1] { }
    if i > 0 {
      assert Holds(rest[i - 1], kind, key);
      LoadedAtRow(rest, kind, key, i - 1);
    } else {
      LoadedAtIs(rest, kind, key);
      if IsLoaded(rest, kind, key) {
        var j :| 0 <= j < |rest| && Holds(rest[j], kind, key);
        assert Busy(rows[0], kind) && Busy(rows[j + 1], kind);
        assert false;
      }
    }
  }

  lemma RehomeDiffers(rows: Rows, cands: seq<Cand>, kind: Kind, rev: nat)
    requires KindDiffer(rows, kind)
    ensures KindDiffer(Rehome(rows, cands, kind, rev), kind)
  {
    var next := Rehome(rows, cands, kind, rev);
    forall i, j | 0 <= i < j < |next| && Busy(next[i], kind) && Busy(next[j], kind)
      ensures next[i].track.value.track != next[j].track.value.track
    {
      assert Busy(rows[i], kind) && Busy(rows[j], kind);
    }
  }

  /** Row i of the kind carries the track of c. */
  ghost predicate Carries(rows: Rows, kind: Kind, i: int, c: Cand) {
    0 <= i < |rows| && Busy(rows[i], kind) && rows[i].track.value.track == c.key.track
  }

  /** Of two candidates of one rank the first has the better claim: if both are on rows, it was put up no earlier; if
      neither is, it has waited no shorter. */
  ghost predicate Claims(rows: Rows, waiting: map<nat, nat>, kind: Kind, now: nat, a: Cand, b: Cand) {
    && (forall i, j :: Carries(rows, kind, i, a) && Carries(rows, kind, j, b) ==> rows[i].loadedAt >= rows[j].loadedAt)
    && (!Had(rows, kind, a.key.track) && !Had(rows, kind, b.key.track) ==>
          WaitsSince(waiting, a.key.track, now) <= WaitsSince(waiting, b.key.track, now))
  }

  lemma CarriedAt(rows: Rows, cands: seq<Cand>, kind: Kind, rev: nat, c: Cand, i: int)
    requires CandsDiffer(cands) && c in Desired(cands, kind) && KindDiffer(rows, kind) && Carries(rows, kind, i, c)
    ensures LoadedAt(Rehome(rows, cands, kind, rev), kind, c.key) == Some(rows[i].loadedAt)
  {
    var next := Rehome(rows, cands, kind, rev);
    DesiredIs(cands, kind, c);
    RehomedTo(rows[i], cands, kind, rev, c);
    RehomeDiffers(rows, cands, kind, rev);
    assert next[i] == RehomeIf(cands, kind, rows[i], rev);
    LoadedAtRow(next, kind, c.key, i);
  }

  lemma ChosenClaims(rows: Rows, waiting: map<nat, nat>, cands: seq<Cand>, kind: Kind, rev: nat, now: nat, a: Cand, b: Cand)
    requires CandsDiffer(cands) && KindDiffer(rows, kind) && a in Desired(cands, kind) && b in Desired(cands, kind) && a.rank == b.rank
    requires var (next, t) := Chosen(rows, waiting, cands, kind, rev, now);
             && Among(t, a.key) && !Among(t, b.key)
             && IsTop(t, Desired(cands, kind), Earlier(next, kind, Waits(next, kind, waiting, Desired(cands, kind), now), now))
    ensures Claims(rows, waiting, kind, now, a, b)
  {
    var (next, t) := Chosen(rows, waiting, cands, kind, rev, now);
    var waits := Waits(next, kind, waiting, Desired(cands, kind), now);
    var k :| 0 <= k < |t| && t[k].key == a.key;
    DesiredIs(cands, kind, a);
    DesiredIs(cands, kind, t[k]);
    assert t[k] in t;
    OneCand(cands, a, t[k]);
    assert b !in t;
    assert !Before(next, kind, waits, now, b, a);
    NotBefore(rows, waiting, cands, kind, rev, now, a, b, next, waits);
  }

  lemma NotBefore(rows: Rows, waiting: map<nat, nat>, cands: seq<Cand>, kind: Kind, rev: nat, now: nat, a: Cand, b: Cand,
                  next: Rows, waits: map<nat, nat>)
    requires CandsDiffer(cands) && KindDiffer(rows, kind) && a in Desired(cands, kind) && b in Desired(cands, kind) && a.rank == b.rank
    requires next == Rehome(rows, cands, kind, rev) && waits == Waits(next, kind, waiting, Desired(cands, kind), now)
    requires !Before(next, kind, waits, now, b, a)
    ensures Claims(rows, waiting, kind, now, a, b)
  {
    forall i, j | Carries(rows, kind, i, a) && Carries(rows, kind, j, b) ensures rows[i].loadedAt >= rows[j].loadedAt {
      CarriedAt(rows, cands, kind, rev, a, i);
      CarriedAt(rows, cands, kind, rev, b, j);
    }
    LoadedAtIs(next, kind, a.key);
    LoadedAtIs(next, kind, b.key);
    RehomeLoads(rows, cands, kind, rev, a);
    RehomeLoads(rows, cands, kind, rev, b);
    MarkedAs(next, kind, waiting, Desired(cands, kind), now, a.key.track);
    MarkedAs(next, kind, waiting, Desired(cands, kind), now, b.key.track);
  }

  lemma PassClaims(e: Env, w: Work, waiting: map<nat, nat>, cands: seq<Cand>, kind: Kind, rev: nat, now: nat, a: Cand, b: Cand)
    requires KindDiffer(w.rows, kind) && Count(w.rows, FullOf(kind)) <= FULL && Slack(e, w.rows, kind) && CandsDiffer(cands)
    requires Clear(w.rows, kind, Chosen(w.rows, waiting, cands, kind, rev, now).1)
    requires a in Desired(cands, kind) && b in Desired(cands, kind) && a.rank == b.rank
    requires var r := FullPass(e, w, waiting, cands, kind, rev, now).0.rows; IsLoaded(r, kind, a.key) && !IsLoaded(r, kind, b.key)
    ensures Claims(w.rows, waiting, kind, now, a, b)
  {
    var r := FullPass(e, w, waiting, cands, kind, rev, now).0;
    var t := Chosen(w.rows, waiting, cands, kind, rev, now).1;
    PassOk(e, w, waiting, cands, kind, rev, now);
    ExactlyTargets(r.rows, kind, t);
    ChosenClaims(w.rows, waiting, cands, kind, rev, now, a, b);
  }

  // ---------------------------------------------------------------- a round

  lemma ClaimsElsewhere(x: Rows, y: Rows, q: Row -> bool, waiting: map<nat, nat>, later: map<nat, nat>, kind: Kind, now: nat,
                        a: Cand, b: Cand)
    requires Untouched(x, y, q) && Apart(q, kind) && Claims(y, later, kind, now, a, b)
    requires WaitsSince(later, a.key.track, now) == WaitsSince(waiting, a.key.track, now)
    requires WaitsSince(later, b.key.track, now) == WaitsSince(waiting, b.key.track, now)
    ensures Claims(x, waiting, kind, now, a, b)
  {
    UntouchedFull(x, y, q, kind);
    forall i, j | Carries(x, kind, i, a) && Carries(x, kind, j, b) ensures x[i].loadedAt >= x[j].loadedAt {
      assert Carries(y, kind, i, a) && Carries(y, kind, j, b) && y[i] == x[i] && y[j] == x[j];
    }
  }

  lemma AudioClaims(e: Env, s: State, cands: seq<Cand>, now: nat, w: Work, a: Cand, b: Cand)
    requires Half(e, w.rows, cands) && Untouched(s.rows, w.rows, IsSlot) && CandsDiffer(cands) && e.budget + 2 * FULL <= e.Limit()
    requires Clear(w.rows, Audio, Chosen(w.rows, s.waiting, cands, Audio, s.arev + 1, now).1)
    requires a in Desired(cands, Audio) && b in Desired(cands, Audio) && a.rank == b.rank
    requires var v := Passes(e, w, s.waiting, cands, s.arev + 1, now).0.rows; IsLoaded(v, Audio, a.key) && !IsLoaded(v, Audio, b.key)
    ensures Claims(s.rows, s.waiting, Audio, now, a, b)
  {
    var (x, wa) := FullPass(e, w, s.waiting, cands, Audio, s.arev + 1, now);
    PassHalf(e, w, s.waiting, cands, Audio, s.arev + 1, now);
    PassHalf(e, x, wa, cands, Video, s.arev + 1, now);
    UntouchedFull(x.rows, FullPass(e, x, wa, cands, Video, s.arev + 1, now).0.rows, FullOf(Video), Audio);
    HasSlack(e, w.rows, Audio);
    PassClaims(e, w, s.waiting, cands, Audio, s.arev + 1, now, a, b);
    ClaimsElsewhere(s.rows, w.rows, IsSlot, s.waiting, s.waiting, Audio, now, a, b);
  }

  lemma VideoClaims(e: Env, s: State, cands: seq<Cand>, now: nat, w: Work, a: Cand, b: Cand)
    requires Half(e, w.rows, cands) && Untouched(s.rows, w.rows, IsSlot) && CandsDiffer(cands) && e.budget + 2 * FULL <= e.Limit()
    requires a in Desired(cands, Video) && b in Desired(cands, Video) && a.rank == b.rank
    requires var v := Passes(e, w, s.waiting, cands, s.arev + 1, now).0.rows; IsLoaded(v, Video, a.key) && !IsLoaded(v, Video, b.key)
    ensures Claims(s.rows, s.waiting, Video, now, a, b)
  {
    var rev := s.arev + 1;
    var (x, wa) := FullPass(e, w, s.waiting, cands, Audio, rev, now);
    PassHalf(e, w, s.waiting, cands, Audio, rev, now);
    HasSlack(e, x.rows, Video);
    ChosenAre(x.rows, wa, cands, Video, rev, now);
    DesiredClear(x.rows, cands, Video, Audio, Chosen(x.rows, wa, cands, Video, rev, now).1);
    PassClaims(e, x, wa, cands, Video, rev, now, a, b);
    OtherPassWaits(e, w, s.waiting, cands, Video, Audio, rev, now, a);
    OtherPassWaits(e, w, s.waiting, cands, Video, Audio, rev, now, b);
    ClaimsElsewhere(w.rows, x.rows, FullOf(Audio), s.waiting, wa, Video, now, a, b);
    ClaimsElsewhere(s.rows, w.rows, IsSlot, s.waiting, s.waiting, Video, now, a, b);
  }

  /** MAIN: of two candidates of one kind and rank, the one that a round leaves on a row has the better claim over the
      one it leaves without: of two that were on rows, it was put up no earlier; of two that were not, it has waited
      no shorter. (A track that was on a row always comes before one that was not, as the round is optimal.) */
  lemma TiesAreFair(e: Env, s: State, cands: seq<Cand>, now: nat, kind: Kind, a: Cand, b: Cand)
    requires TableOk(e, s.rows) && CandsDiffer(cands) && !Refuses(e, s, cands) && e.budget + 2 * FULL <= e.Limit()
    requires kind.Audio? ==> !Blocked(s, cands, now)
    requires a in Desired(cands, kind) && b in Desired(cands, kind) && a.rank == b.rank
    requires var r := Sync(e, s, cands, now).0.rows; IsLoaded(r, kind, a.key) && !IsLoaded(r, kind, b.key)
    ensures Claims(s.rows, s.waiting, kind, now, a, b)
  {
    var w := SlotPart(e, s, cands, now).0;
    StartHalf(e, s, cands, now);
    SyncIs(e, s, cands, now);
    BlockedBySlots(s, w.rows, cands, now);
    if kind.Audio? { AudioClaims(e, s, cands, now, w, a, b); } else { VideoClaims(e, s, cands, now, w, a, b); }
  }

  // ---------------------------------------------------------------- who waits afterwards

  lemma PlaceLoadsNone(e: Env, w: Work, kind: Kind, c: Cand, key: Key)
    requires !OnFull(w.rows, key)
    ensures !OnFull(Place(e, w, kind, c).0.rows, key)
  {
    var v := Place(e, w, kind, c).0.rows;
    forall i | 0 <= i < |v| && v[i].class_.Full? ensures v[i].track != Some(key) {
      if i < |w.rows| { assert v[i].track == w.rows[i].track && v[i].class_ == w.rows[i].class_; }
    }
  }

  lemma LoadLoadsOne(w: Work, i: nat, c: Cand, rev: nat, now: nat, key: Key)
    requires i < |w.rows| && !OnFull(w.rows, key) && c.key != key
    ensures !OnFull(LoadAt(w, i, c, rev, now).rows, key)
  {
    var v := LoadAt(w, i, c, rev, now).rows;
    forall j | 0 <= j < |v| && v[j].class_.Full? ensures v[j].track != Some(key) {
      if j != i { assert v[j] == w.rows[j]; }
    }
  }

  lemma {:induction false} LoadsTargetsOnly(e: Env, w: Work, waiting: map<nat, nat>, kind: Kind, target: seq<Cand>, rev: nat, now: nat,
                                            key: Key)
    requires !OnFull(w.rows, key) && !Among(target, key)
    ensures !OnFull(LoadFull(e, w, waiting, kind, target, rev, now).0.rows, key)
    decreases |target|
  {
    if target != [] {
      var c := target[0];
      assert c.key != key;
      forall i | 0 <= i < |target[1..]| ensures target[1..][i].key != key { assert target[1..][i] == target[i + 1]; }
      if OnFull(w.rows, c.key) {
        LoadsTargetsOnly(e, w, waiting - {c.key.track}, kind, target[1..], rev, now, key);
      } else {
        var (v, i) := Place(e, w, kind, c);
        PlaceLoadsNone(e, w, kind, c, key);
        if i.None? {
          LoadsTargetsOnly(e, v, waiting, kind, target[1..], rev, now, key);
        } else {
          LoadLoadsOne(v, i.value, c, rev, now, key);
          LoadsTargetsOnly(e, LoadAt(v, i.value, c, rev, now), waiting - {c.key.track}, kind, target[1..], rev, now, key);
        }
      }
    }
  }

  /** Who is put up waits no longer. */
  lemma {:induction false} PutUpWaitsNot(e: Env, w: Work, waiting: map<nat, nat>, kind: Kind, target: seq<Cand>, rev: nat, now: nat, k: nat)
    requires TracksDiffer(target) && k < |target| && OnFull(LoadFull(e, w, waiting, kind, target, rev, now).0.rows, target[k].key)
    ensures target[k].key.track !in LoadFull(e, w, waiting, kind, target, rev, now).1
    decreases |target|
  {
    var (c, rest) := (target[0], target[1..]);
    forall i | 0 <= i < |rest| ensures rest[i] == target[i + 1] { }
    assert TracksDiffer(rest);
    var (v, i) := Place(e, w, kind, c);
    var on := OnFull(w.rows, c.key);
    var v1 := if on || i.None? then w else LoadAt(v, i.value, c, rev, now);
    var w1 := if !on && i.None? then waiting else waiting - {c.key.track};
    assert LoadFull(e, w, waiting, kind, target, rev, now) == LoadFull(e, v1, w1, kind, rest, rev, now);
    if k > 0 {
      PutUpWaitsNot(e, v1, w1, kind, rest, rev, now, k - 1);
    } else if !on && i.None? {
      NeverPutUp(e, w, waiting, kind, c, rest, rev, now);
      assert false;
    } else {
      OthersWait(e, v1, w1, kind, rest, rev, now, c.key.track);
    }
  }

  lemma NeverPutUp(e: Env, w: Work, waiting: map<nat, nat>, kind: Kind, c: Cand, rest: seq<Cand>, rev: nat, now: nat)
    requires !OnFull(w.rows, c.key) && forall x :: x in rest ==> x.key.track != c.key.track
    ensures !OnFull(LoadFull(e, w, waiting, kind, rest, rev, now).0.rows, c.key)
  {
    assert !Among(rest, c.key) by { forall i | 0 <= i < |rest| ensures rest[i].key != c.key { assert rest[i] in rest; } }
    LoadsTargetsOnly(e, w, waiting, kind, rest, rev, now, c.key);
  }

  /** After a round: waiting times of those on rows are forgotten, those of the others stay, and who was on no row
      before waits from now on. */
  ghost predicate WaitsRight(rows: Rows, waiting: map<nat, nat>, after: Rows, left: map<nat, nat>, kind: Kind, now: nat, c: Cand) {
    var t := c.key.track;
    if IsLoaded(after, kind, c.key) then t !in left
    else (t in left <==> t in waiting || !Had(rows, kind, t)) && WaitsSince(left, t, now) == WaitsSince(waiting, t, now)
  }

  lemma PassWaits(e: Env, w: Work, waiting: map<nat, nat>, cands: seq<Cand>, kind: Kind, rev: nat, now: nat, c: Cand)
    requires KindDiffer(w.rows, kind) && Count(w.rows, FullOf(kind)) <= FULL && Slack(e, w.rows, kind) && CandsDiffer(cands)
    requires Clear(w.rows, kind, Chosen(w.rows, waiting, cands, kind, rev, now).1) && c in Desired(cands, kind)
    ensures var (r, left) := FullPass(e, w, waiting, cands, kind, rev, now);
            WaitsRight(w.rows, waiting, r.rows, left, kind, now, c)
  {
    var (next, t) := Chosen(w.rows, waiting, cands, kind, rev, now);
    var (r, left) := FullPass(e, w, waiting, cands, kind, rev, now);
    var waits := Waits(next, kind, waiting, Desired(cands, kind), now);
    var base := w.(rows := UnloadOthers(next, kind, t, rev));
    assert (r, left) == LoadFull(e, base, waits, kind, t, rev, now);
    PassOk(e, w, waiting, cands, kind, rev, now);
    ExactlyTargets(r.rows, kind, t);
    if IsLoaded(r.rows, kind, c.key) {
      var k :| 0 <= k < |t| && t[k].key == c.key;
      LoadedIsOn(r.rows, kind, c.key);
      PutUpWaitsNot(e, base, waits, kind, t, rev, now, k);
    } else {
      PassedWaits(w.rows, waiting, cands, kind, rev, now, c);
      forall x | x in t ensures x.key.track != c.key.track { ChosenOther(cands, kind, t, x, c); }
      OthersWait(e, base, waits, kind, t, rev, now, c.key.track);
    }
  }

  lemma LoadedIsOn(rows: Rows, kind: Kind, key: Key)
    requires IsLoaded(rows, kind, key)
    ensures OnFull(rows, key)
  {
  }

  lemma ChosenOther(cands: seq<Cand>, kind: Kind, t: seq<Cand>, x: Cand, c: Cand)
    requires CandsDiffer(cands) && x in t && x in Desired(cands, kind) && c in Desired(cands, kind) && !Among(t, c.key)
    ensures x.key.track != c.key.track
  {
    DesiredIs(cands, kind, x);
    DesiredIs(cands, kind, c);
    var k :| 0 <= k < |t| && t[k] == x;
    assert x.key != c.key;
    if x.key.track == c.key.track { OneCand(cands, x, c); }
  }

  lemma PassedWaits(rows: Rows, waiting: map<nat, nat>, cands: seq<Cand>, kind: Kind, rev: nat, now: nat, c: Cand)
    requires CandsDiffer(cands) && c in Desired(cands, kind)
    ensures var (t, d) := (c.key.track, Desired(cands, kind));
            var waits := Waits(Rehome(rows, cands, kind, rev), kind, waiting, d, now);
            (t in waits <==> t in waiting || !Had(rows, kind, t)) && WaitsSince(waits, t, now) == WaitsSince(waiting, t, now)
  {
    var (next, d) := (Rehome(rows, cands, kind, rev), Desired(cands, kind));
    MarkedAs(next, kind, waiting, d, now, c.key.track);
    LoadedAtIs(next, kind, c.key);
    RehomeLoads(rows, cands, kind, rev, c);
    forall x | x in d && x.key.track == c.key.track ensures x == c {
      DesiredIs(cands, kind, x);
      DesiredIs(cands, kind, c);
      OneCand(cands, x, c);
    }
  }

  /** A pass of the other kind leaves a candidate's waiting alone. */
  lemma OtherPassWaits(e: Env, w: Work, waiting: map<nat, nat>, cands: seq<Cand>, kind: Kind, other: Kind, rev: nat, now: nat, c: Cand)
    requires CandsDiffer(cands) && c in Desired(cands, kind) && other != kind
    ensures var left := FullPass(e, w, waiting, cands, other, rev, now).1;
            var t := c.key.track;
            (t in left <==> t in waiting) && WaitsSince(left, t, now) == WaitsSince(waiting, t, now)
  {
    var (next, t) := Chosen(w.rows, waiting, cands, other, rev, now);
    var desired := Desired(cands, other);
    MarkedAs(next, other, waiting, desired, now, c.key.track);
    ChosenAre(w.rows, waiting, cands, other, rev, now);
    DesiredIs(cands, kind, c);
    forall a | a in desired ensures a.key.track != c.key.track {
      DesiredIs(cands, other, a);
      if a.key.track == c.key.track { OneCand(cands, a, c); }
    }
    var waits := Waits(next, other, waiting, desired, now);
    OthersWait(e, w.(rows := UnloadOthers(next, other, t, rev)), waits, other, t, rev, now, c.key.track);
  }

  lemma AudioWaiting(e: Env, s: State, cands: seq<Cand>, now: nat, w: Work, c: Cand)
    requires Half(e, w.rows, cands) && Untouched(s.rows, w.rows, IsSlot) && CandsDiffer(cands) && e.budget + 2 * FULL <= e.Limit()
    requires Clear(w.rows, Audio, Chosen(w.rows, s.waiting, cands, Audio, s.arev + 1, now).1) && c in Desired(cands, Audio)
    ensures var (v, left) := Passes(e, w, s.waiting, cands, s.arev + 1, now);
            WaitsRight(s.rows, s.waiting, v.rows, left, Audio, now, c)
  {
    var rev := s.arev + 1;
    var (x, wa) := FullPass(e, w, s.waiting, cands, Audio, rev, now);
    PassHalf(e, w, s.waiting, cands, Audio, rev, now);
    PassHalf(e, x, wa, cands, Video, rev, now);
    UntouchedFull(x.rows, FullPass(e, x, wa, cands, Video, rev, now).0.rows, FullOf(Video), Audio);
    UntouchedFull(s.rows, w.rows, IsSlot, Audio);
    HasSlack(e, w.rows, Audio);
    PassWaits(e, w, s.waiting, cands, Audio, rev, now, c);
    OtherPassWaits(e, x, wa, cands, Audio, Video, rev, now, c);
  }

  lemma VideoWaiting(e: Env, s: State, cands: seq<Cand>, now: nat, w: Work, c: Cand)
    requires Half(e, w.rows, cands) && Untouched(s.rows, w.rows, IsSlot) && CandsDiffer(cands) && e.budget + 2 * FULL <= e.Limit()
    requires c in Desired(cands, Video)
    ensures var (v, left) := Passes(e, w, s.waiting, cands, s.arev + 1, now);
            WaitsRight(s.rows, s.waiting, v.rows, left, Video, now, c)
  {
    var rev := s.arev + 1;
    var (x, wa) := FullPass(e, w, s.waiting, cands, Audio, rev, now);
    PassHalf(e, w, s.waiting, cands, Audio, rev, now);
    HasSlack(e, x.rows, Video);
    ChosenAre(x.rows, wa, cands, Video, rev, now);
    DesiredClear(x.rows, cands, Video, Audio, Chosen(x.rows, wa, cands, Video, rev, now).1);
    UntouchedFull(w.rows, x.rows, FullOf(Audio), Video);
    UntouchedFull(s.rows, w.rows, IsSlot, Video);
    OtherPassWaits(e, w, s.waiting, cands, Video, Audio, rev, now, c);
    PassWaits(e, x, wa, cands, Video, rev, now, c);
  }

  /** MAIN: after a round, a candidate that is on a row no longer waits; one that is not waits since when it did, or
      from this round on if it was on no row before. */
  lemma WaitingExactly(e: Env, s: State, cands: seq<Cand>, now: nat, kind: Kind, c: Cand)
    requires TableOk(e, s.rows) && CandsDiffer(cands) && !Refuses(e, s, cands) && e.budget + 2 * FULL <= e.Limit()
    requires (kind.Audio? ==> !Blocked(s, cands, now)) && c in Desired(cands, kind)
    ensures var r := Sync(e, s, cands, now).0; WaitsRight(s.rows, s.waiting, r.rows, r.waiting, kind, now, c)
  {
    var w := SlotPart(e, s, cands, now).0;
    StartHalf(e, s, cands, now);
    SyncIs(e, s, cands, now);
    BlockedBySlots(s, w.rows, cands, now);
    if kind.Audio? { AudioWaiting(e, s, cands, now, w, c); } else { VideoWaiting(e, s, cands, now, w, c); }
    var (v, left) := Passes(e, w, s.waiting, cands, s.arev + 1, now);
    AssignIs(e, s, cands, now, w, v, left);
    DesiredIs(cands, kind, c);
    StaysAround(left, cands, c);
  }

  lemma StaysAround(left: map<nat, nat>, cands: seq<Cand>, c: Cand)
    requires c in cands
    ensures var kept := StillAround(left, cands);
            (c.key.track in kept <==> c.key.track in left) && (c.key.track in left ==> kept[c.key.track] == left[c.key.track])
  {
    var i :| 0 <= i < |cands| && cands[i] == c;
  }
}
