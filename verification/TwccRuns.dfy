/** Whole runs of a feedback receiver: packets, late ones among them, and reports in any order. */
module TwccRuns {
  import opened Wrappers
  import opened Twcc

  /** A packet with its 16-bit number arrives, or a report is asked for. */
  datatype Event = Got(n: int, at: int) | Make

  /** The report that is made when something is pending. */
  ghost function ReportOf(r: State): Feedback
    requires Ok(r) && Pending(r)
  {
    PendingIs(r);
    ReportTiles(r, FirstFrom(r.arrivals, r.window.value, r.last.value));
    Report(r, FirstFrom(r.arrivals, r.window.value, r.last.value), r.last.value).value
  }

  ghost function Step(r: State, e: Event): State
    requires Ok(r)
  {
    match e
    case Got(n, at) => Record(r, n, at)
    case Make => if Pending(r) then Reported(r, ReportOf(r)) else r
  }

  lemma StepOk(r: State, e: Event)
    requires Ok(r)
    ensures Ok(Step(r, e))
  {
    match e
    case Got(n, at) => RecordOk(r, n, at);
    case Make =>
      if Pending(r) {
        PendingIs(r);
        ReportTiles(r, FirstFrom(r.arrivals, r.window.value, r.last.value));
      }
  }

  /** rs are the states of a run. */
  ghost predicate IsRun(es: seq<Event>, rs: seq<State>) {
    |rs| == |es| + 1 && rs[0] == Start && forall n :: 0 <= n < |es| ==> Ok(rs[n]) && rs[n + 1] == Step(rs[n], es[n])
  }

  /** Every run goes on, whatever happens next. */
  lemma {:induction false} RunOk(es: seq<Event>, rs: seq<State>, n: nat)
    requires IsRun(es, rs) && n <= |es|
    ensures Ok(rs[n])
  {
    if n > 0 { StepOk(rs[n - 1], es[n - 1]); }
  }

  // ---------------------------------------------------------------- what is stored

  /** Event e records number k, in state r. */
  predicate Records(r: State, e: Event, k: int) { e.Got? && Unwrap(r.last, e.n) == k }

  /** A packet that leaves state s behind makes the receiver forget number k, stored at t: it is old and
      behind the window. */
  predicate Forgets(e: Event, s: State, k: int, t: int) {
    e.Got? && s.window.Some? && t < s.newest - KEEP && k < s.window.value
  }

  lemma StepStores(r: State, e: Event, k: int)
    requires Ok(r)
    ensures var s := Step(r, e);
            && (k in r.arrivals ==> (k in s.arrivals <==> !Forgets(e, s, k, r.arrivals[k]))
                                    && (k in s.arrivals ==> s.arrivals[k] == r.arrivals[k]))
            && (k !in r.arrivals ==> (k in s.arrivals <==> Records(r, e, k)) && (k in s.arrivals ==> s.arrivals[k] == e.at))
  {
    if e.Got? { RecordOk(r, e.n, e.at); }
  }

  /** Number k was stored by the j-th event, at time t, and no event before the n-th made the receiver forget it. */
  ghost predicate Stored(es: seq<Event>, rs: seq<State>, j: nat, n: nat, k: int, t: int) {
    && j < n <= |es| < |rs| && Records(rs[j], es[j], k) && k !in rs[j].arrivals && es[j].at == t
    && forall m :: j < m < n ==> !Forgets(es[m], rs[m + 1], k, t)
  }

  lemma {:induction false} StoredStays(es: seq<Event>, rs: seq<State>, j: nat, n: nat, k: int, t: int)
    requires IsRun(es, rs) && Stored(es, rs, j, n, k, t)
    ensures k in rs[n].arrivals && rs[n].arrivals[k] == t
    decreases n
  {
    StepStores(rs[n - 1], es[n - 1], k);
    if n > j + 1 { StoredStays(es, rs, j, n - 1, k, t); }
  }

  lemma {:induction false} StoredTraced(es: seq<Event>, rs: seq<State>, n: nat, k: int) returns (j: nat)
    requires IsRun(es, rs) && n <= |es| && k in rs[n].arrivals
    ensures Stored(es, rs, j, n, k, rs[n].arrivals[k])
    decreases n
  {
    assert n > 0;
    StepStores(rs[n - 1], es[n - 1], k);
    if k in rs[n - 1].arrivals { j := StoredTraced(es, rs, n - 1, k); } else { j := n - 1; }
  }

  // ---------------------------------------------------------------- what is reported

  /** The n-th event makes a report that covers number k. */
  ghost predicate Reports(es: seq<Event>, rs: seq<State>, n: nat, k: int)
    requires IsRun(es, rs)
  {
    n < |es| && es[n] == Make && Pending(rs[n]) && Covers(ReportOf(rs[n]), k)
  }

  ghost predicate MarkedArrived(r: State, k: int)
    requires Ok(r) && Pending(r) && Covers(ReportOf(r), k)
  {
    ReportOf(r).symbols[k - ReportOf(r).base] != NONE
  }

  lemma MarkedIs(r: State, k: int)
    requires Ok(r) && Pending(r) && Covers(ReportOf(r), k)
    ensures MarkedArrived(r, k) <==> k in r.arrivals
    ensures r.window.value <= k < Step(r, Make).window.value
  {
    PendingIs(r);
    ReportTiles(r, FirstFrom(r.arrivals, r.window.value, r.last.value));
    var fb := ReportOf(r);
    TellsAt(r.arrivals, fb.base, fb.reference * 64000, fb.symbols, fb.deltas, k - fb.base);
  }

  /** MAIN: in every run, a report that covers a number marks it as arrived if and only if a packet
      brought it before and no packet since made the receiver forget it, for being more than half a
      second older than the newest and behind the window. */
  lemma ReportedExactly(es: seq<Event>, rs: seq<State>, n: nat, k: int)
    requires IsRun(es, rs) && Reports(es, rs, n, k)
    ensures MarkedArrived(rs[n], k) <==> exists j: nat, t :: Stored(es, rs, j, n, k, t)
  {
    MarkedIs(rs[n], k);
    if k in rs[n].arrivals { var j := StoredTraced(es, rs, n, k); }
    if j: nat, t :| Stored(es, rs, j, n, k, t) { StoredStays(es, rs, j, n, k, t); }
  }

  /** The window goes back over k only for a packet that is itself no later than k. */
  lemma {:induction false} BackFor(es: seq<Event>, rs: seq<State>, a: nat, b: nat, k: int) returns (m: nat)
    requires IsRun(es, rs) && a < b <= |es| && rs[a].window.Some? && rs[a].window.value > k
    requires rs[b].window.Some? && rs[b].window.value <= k
    ensures a <= m < b && es[m].Got? && Unwrap(rs[m].last, es[m].n) <= k
    decreases b
  {
    StepWindow(rs[b - 1], es[b - 1]);
    if rs[b - 1].window.Some? && rs[b - 1].window.value > k {
      m := b - 1;
    } else {
      WindowStays(es, rs, a, b - 1);
      m := BackFor(es, rs, a, b - 1, k);
    }
  }

  lemma StepWindow(r: State, e: Event)
    requires Ok(r)
    ensures r.window.Some? ==> Step(r, e).window.Some?
    ensures r.window.Some? && Step(r, e).window.value < r.window.value ==> e.Got? && Step(r, e).window.value == Unwrap(r.last, e.n)
  {
  }

  lemma {:induction false} WindowStays(es: seq<Event>, rs: seq<State>, a: nat, b: nat)
    requires IsRun(es, rs) && a <= b <= |es| && rs[a].window.Some?
    ensures rs[b].window.Some?
    decreases b
  {
    if a < b {
      WindowStays(es, rs, a, b - 1);
      StepWindow(rs[b - 1], es[b - 1]);
    }
  }

  /** What is stored at a and not at b was forgotten in between, and has not come again since. */
  lemma {:induction false} LostIn(es: seq<Event>, rs: seq<State>, a: nat, b: nat, k: int) returns (m: nat)
    requires IsRun(es, rs) && a < b <= |es| && k in rs[a].arrivals && k !in rs[b].arrivals
    ensures a <= m < b && k in rs[m].arrivals && Forgets(es[m], rs[m + 1], k, rs[m].arrivals[k])
    ensures forall i :: m < i < b ==> !Records(rs[i], es[i], k)
    decreases b
  {
    StepStores(rs[b - 1], es[b - 1], k);
    if k in rs[b - 1].arrivals { m := b - 1; } else { m := LostIn(es, rs, a, b - 1, k); }
  }

  lemma {:induction false} LostStays(es: seq<Event>, rs: seq<State>, m: nat, b: nat, k: int)
    requires IsRun(es, rs) && m < b <= |es| && k in rs[m].arrivals && Forgets(es[m], rs[m + 1], k, rs[m].arrivals[k])
    requires forall i :: m < i < b ==> !Records(rs[i], es[i], k)
    ensures k !in rs[b].arrivals
    decreases b
  {
    StepStores(rs[b - 1], es[b - 1], k);
    if m + 1 < b { LostStays(es, rs, m, b - 1, k); }
  }

  /** A packet in between makes the receiver forget k, which does not come again. */
  ghost predicate Lost(es: seq<Event>, rs: seq<State>, a: nat, b: nat, k: int, m: nat) {
    && a <= m < b <= |es| < |rs| && k in rs[m].arrivals && Forgets(es[m], rs[m + 1], k, rs[m].arrivals[k])
    && forall i :: m < i < b ==> !Records(rs[i], es[i], k)
  }

  /** MAIN: two reports of a run cover the same number only if in between came a packet no later than
      that number; and a number the first marks as arrived is marked otherwise by the second if and
      only if the receiver was made to forget it in between and it did not come again. */
  lemma ReportedTwice(es: seq<Event>, rs: seq<State>, a: nat, b: nat, k: int) returns (late: nat)
    requires IsRun(es, rs) && a < b && Reports(es, rs, a, k) && Reports(es, rs, b, k)
    ensures a < late < b && es[late].Got? && Unwrap(rs[late].last, es[late].n) <= k
    ensures MarkedArrived(rs[a], k) ==> (!MarkedArrived(rs[b], k) <==> exists m: nat :: Lost(es, rs, a, b, k, m))
  {
    MarkedIs(rs[a], k);
    MarkedIs(rs[b], k);
    StepOk(rs[a], es[a]);
    late := BackFor(es, rs, a + 1, b, k);
    if k in rs[a].arrivals {
      if k !in rs[b].arrivals {
        var m := LostIn(es, rs, a, b, k);
        assert Lost(es, rs, a, b, k, m);
      }
      if m: nat :| Lost(es, rs, a, b, k, m) { LostStays(es, rs, m, b, k); }
    }
  }

  // ---------------------------------------------------------------- it does happen

  /** Ten arrives and is reported; eleven arrives 600 milliseconds later and is reported; then comes nine, late. */
  const LateNine: seq<Event> := [Got(10, 0), Make, Got(11, 600000), Make, Got(9, 600001), Make]

  function NineState(i: nat): State {
    if i == 0 then Start
    else if i == 1 then State(map[10 := 0], Some(10), Some(10), 0, 0)
    else if i == 2 then State(map[10 := 0], Some(10), Some(11), 1, 0)
    else if i == 3 then State(map[11 := 600000], Some(11), Some(11), 1, 600000)
    else if i == 4 then State(map[11 := 600000], Some(11), Some(12), 2, 600000)
    else State(map[9 := 600001, 11 := 600000], Some(11), if i == 5 then Some(9) else Some(12), if i == 5 then 2 else 3, 600001)
  }

  lemma WalkSome(a: Arrivals, s: int, max: int, last: int, room: nat, d: int, syms: seq<Symbol>, ds: seq<int>)
    requires s <= max && room > 0 && s in a && d == Quarter(a[s], last) && Fits(d)
    requires Walk(a, s + 1, max, last + 250 * d, room - 1) == (syms, ds)
    ensures Walk(a, s, max, last, room) == ([SymbolOf(d)] + syms, [d] + ds)
  {
  }

  lemma WalkNone(a: Arrivals, s: int, max: int, last: int, room: nat, syms: seq<Symbol>, ds: seq<int>)
    requires s <= max && room > 0 && s !in a && Walk(a, s + 1, max, last, room - 1) == (syms, ds)
    ensures Walk(a, s, max, last, room) == ([NONE] + syms, ds)
  {
  }

  lemma QuarterBound(t: int, last: int)
    requires -2000 <= t - last < 64000
    ensures Fits(Quarter(t, last)) && -125 <= last + 250 * Quarter(t, last) - t <= 125
  {
  }

  /** Only number k is in the window. */
  lemma OneReport(r: State, k: int)
    requires Ok(r) && r.window == Some(k) && r.last == Some(k) && k in r.arrivals
    ensures Pending(r) && Covers(ReportOf(r), k) && MarkedArrived(r, k)
    ensures Step(r, Make) == r.(count := (r.count + 1) % 256, window := Some(k + 1))
  {
    assert Pending(r);
    PendingIs(r);
    var (a, t) := (r.arrivals, r.arrivals[k] / 64000 * 64000);
    QuarterBound(a[k], t);
    WalkSome(a, k, k, t, 65535, Quarter(a[k], t), [], []);
    MarkedIs(r, k);
  }

  /** Numbers k and k + 2 are in the window, shortly after each other. */
  lemma GapWalk(a: Arrivals, k: int, t: int) returns (syms: seq<Symbol>, ds: seq<int>)
    requires k in a && k + 1 !in a && k + 2 in a && 0 <= a[k] - t < 64000 && -1000 <= a[k + 2] - a[k] <= 1000
    ensures Walk(a, k, k + 2, t, 65535) == (syms, ds) && |syms| == 3 && syms[2] != NONE
  {
    var d := Quarter(a[k], t);
    QuarterBound(a[k], t);
    var t1 := t + 250 * d;
    var d2 := Quarter(a[k + 2], t1);
    QuarterBound(a[k + 2], t1);
    WalkSome(a, k + 2, k + 2, t1, 65533, d2, [], []);
    WalkNone(a, k + 1, k + 2, t1, 65534, [SymbolOf(d2)] + [], [d2] + []);
    WalkSome(a, k, k + 2, t, 65535, d, [NONE] + ([SymbolOf(d2)] + []), [d2] + []);
    syms, ds := Walk(a, k, k + 2, t, 65535).0, Walk(a, k, k + 2, t, 65535).1;
  }

  lemma GapReport(r: State, k: int)
    requires Ok(r) && r.window == Some(k) && r.last == Some(k + 2) && k in r.arrivals && k + 1 !in r.arrivals
    requires -1000 <= r.arrivals[k + 2] - r.arrivals[k] <= 1000
    ensures Pending(r) && Covers(ReportOf(r), k + 1) && !MarkedArrived(r, k + 1)
    ensures Step(r, Make) == r.(count := (r.count + 1) % 256, window := Some(k + 3))
  {
    assert Pending(r);
    PendingIs(r);
    var syms, ds := GapWalk(r.arrivals, k, r.arrivals[k] / 64000 * 64000);
    assert Trim(syms) == syms;
    MarkedIs(r, k + 1);
  }

  lemma NineRecords()
    ensures Record(NineState(0), 10, 0) == NineState(1)
    ensures Record(NineState(2), 11, 600000) == NineState(3)
    ensures Record(NineState(4), 9, 600001) == NineState(5)
  {
    assert Unwrap(Some(10), 11) == 11 && Unwrap(Some(11), 9) == 9;
    assert Keep(map[10 := 0], -KEEP, 10) == map[10 := 0];
    assert map[10 := 0][11 := 600000] == map[10 := 0, 11 := 600000];
    assert Keep(map[10 := 0, 11 := 600000], 600000 - KEEP, 11) == map[11 := 600000];
    assert map[11 := 600000][9 := 600001] == map[9 := 600001, 11 := 600000];
    assert Keep(map[9 := 600001, 11 := 600000], 600001 - KEEP, 9) == map[9 := 600001, 11 := 600000];
  }

  lemma NineReports(r: State, i: nat)
    requires i in {1, 3, 5} && Ok(r) && r == NineState(i)
    ensures Step(r, Make) == NineState(i + 1)
  {
    if i == 1 { OneReport(r, 10); }
    if i == 3 { OneReport(r, 11); }
    if i == 5 { GapReport(r, 9); }
  }

  lemma NineNext(i: nat)
    requires i < 6 && Ok(NineState(i))
    ensures Step(NineState(i), LateNine[i]) == NineState(i + 1)
  {
    if i in {1, 3, 5} {
      assert LateNine[i] == Make;
      NineReports(NineState(i), i);
    } else {
      assert i in {0, 2, 4};
      NineRecords();
    }
  }

  lemma {:induction false} NineStep(i: nat)
    requires i < 6
    ensures Ok(NineState(i)) && Step(NineState(i), LateNine[i]) == NineState(i + 1)
  {
    if i > 0 {
      NineStep(i - 1);
      StepOk(NineState(i - 1), LateNine[i - 1]);
    }
    NineNext(i);
  }

  /** The failing input: ten, reported as arrived, is reported again as not arrived. */
  lemma LateNineForgetsTen(rs: seq<State>)
    requires |rs| == 7 && forall i :: 0 <= i < 7 ==> rs[i] == NineState(i)
    ensures IsRun(LateNine, rs)
    ensures Reports(LateNine, rs, 1, 10) && MarkedArrived(rs[1], 10)
    ensures Reports(LateNine, rs, 5, 10) && !MarkedArrived(rs[5], 10)
  {
    forall n | 0 <= n < 6 ensures Ok(rs[n]) && rs[n + 1] == Step(rs[n], LateNine[n]) { NineStep(n); }
    TenFirst(rs[1]);
    TenAgain(rs[5]);
  }

  lemma TenFirst(r: State)
    requires Ok(r) && r == NineState(1)
    ensures Pending(r) && Covers(ReportOf(r), 10) && MarkedArrived(r, 10)
  {
    OneReport(r, 10);
  }

  lemma TenAgain(r: State)
    requires Ok(r) && r == NineState(5)
    ensures Pending(r) && Covers(ReportOf(r), 10) && !MarkedArrived(r, 10)
  {
    GapReport(r, 9);
  }

  // ---------------------------------------------------------------- counting

  /** How many reports were made by the first n events. */
  ghost function Made(es: seq<Event>, rs: seq<State>, n: nat): nat
    requires n <= |es| <= |rs|
  {
    if n == 0 then 0 else Made(es, rs, n - 1) + if es[n - 1] == Make && Pending(rs[n - 1]) then 1 else 0
  }

  /** The latest time among the first n events, and 0 before any. */
  ghost function Latest(es: seq<Event>, n: nat): int
    requires n <= |es|
  {
    if n == 0 then 0 else
    var l := Latest(es, n - 1);
    if es[n - 1].Got? && es[n - 1].at > l then es[n - 1].at else l
  }

  lemma {:induction false} CountIs(es: seq<Event>, rs: seq<State>, n: nat)
    requires IsRun(es, rs) && n <= |es|
    ensures rs[n].count == Made(es, rs, n) % 256 && rs[n].newest == Latest(es, n)
  {
    if n > 0 {
      CountIs(es, rs, n - 1);
      var (r, e) := (rs[n - 1], es[n - 1]);
      assert Ok(r) && rs[n] == Step(r, e);
      StepCounts(r, e);
      NextByte(Made(es, rs, n - 1));
    }
  }

  lemma StepCounts(r: State, e: Event)
    requires Ok(r)
    ensures Step(r, e).count == if e == Make && Pending(r) then (r.count + 1) % 256 else r.count
    ensures Step(r, e).newest == if e.Got? && e.at > r.newest then e.at else r.newest
  {
  }

  lemma NextByte(n: nat)
    ensures (n % 256 + 1) % 256 == (n + 1) % 256
  {
  }

  /** MAIN: in every run, a report carries the number of reports made before it, in eight bits, and the receiver
      knows the latest arrival. */
  lemma ReportsAreCounted(es: seq<Event>, rs: seq<State>, n: nat)
    requires IsRun(es, rs) && n < |es| && es[n] == Make && Pending(rs[n])
    ensures ReportOf(rs[n]).count == Made(es, rs, n) % 256 && Made(es, rs, n + 1) == Made(es, rs, n) + 1
    ensures rs[n].newest == Latest(es, n)
  {
    CountIs(es, rs, n);
    PendingIs(rs[n]);
    ReportTiles(rs[n], FirstFrom(rs[n].arrivals, rs[n].window.value, rs[n].last.value));
  }
}
