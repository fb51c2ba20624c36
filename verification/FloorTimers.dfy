/** Left alone, the floor comes to rest: timer firings alone always terminate. */
module FloorTimers {
  import opened Wrappers
  import opened FloorSpec
  import opened FloorSafety
  import opened FloorSteps

  /** How often the timers of one participant can still fire without a state change. */
  function Chances(p: Part): nat {
    (if p.c8 < C8 then C8 - p.c8 else 0) + (if p.retry then 1 else 0)
    + (if 1 <= p.c21 <= C21 then C21 + 1 - p.c21 else 0)
  }

  ghost function Total(m: map<User, Part>): nat
    decreases m.Keys
  {
    if m.Keys == {} then 0 else
    var k :| k in m.Keys;
    Chances(m[k]) + Total(m - {k})
  }

  lemma {:induction false} TotalWithout(m: map<User, Part>, k: User)
    requires k in m
    ensures Total(m) == Chances(m[k]) + Total(m - {k})
    decreases m.Keys
  {
    var j :| j in m.Keys && Total(m) == Chances(m[j]) + Total(m - {j});
    if j != k {
      TotalWithout(m - {j}, k);
      TotalWithout(m - {k}, j);
      assert m - {j} - {k} == m - {k} - {j};
    }
  }

  lemma TotalWrite(m: map<User, Part>, k: User, p: Part)
    requires k in m
    ensures Total(m[k := p]) + Chances(m[k]) == Total(m) + Chances(p)
  {
    TotalWithout(m, k);
    TotalWithout(m[k := p], k);
    assert m[k := p] - {k} == m - {k};
  }

  lemma {:induction false} TotalSame(m: map<User, Part>, r: map<User, Part>)
    requires m.Keys == r.Keys && forall k :: k in m ==> Chances(m[k]) == Chances(r[k])
    ensures Total(m) == Total(r)
    decreases m.Keys
  {
    if m.Keys != {} {
      var k :| k in m.Keys;
      TotalWithout(m, k);
      TotalWithout(r, k);
      TotalSame(m - {k}, r - {k});
    }
  }

  /** The lexicographic measure: waiters left to serve, group state, repetitions left. */
  function Turns(f: State): nat { if f.g == G.Idle then 0 else |f.queue| + 1 }

  function Phase(f: State): nat {
    match f.g
    case Taken => 2
    case Prevoke => 1
    case Idle => 0
  }

  ghost function Repeats(f: State): nat {
    (if f.c7 < C7 then C7 - f.c7 else 0) + (if f.c20 <= C20 then C20 + 1 - f.c20 else 0) + Total(f.d.parts)
  }

  ghost predicate Descends(f: State, r: State) {
    || Turns(r) < Turns(f)
    || (Turns(r) == Turns(f) && Phase(r) < Phase(f))
    || (Turns(r) == Turns(f) && Phase(r) == Phase(f) && Repeats(r) < Repeats(f))
  }

  lemma ExpireDescends(f: State)
    requires Inv(f) && Neutral(f) && f.g != G.Idle
    ensures Turns(IdleEnter(f)) < Turns(f)
  {
    InvSenders(f);
    IdleEnterOk(f);
  }

  lemma T2Descends(f: State)
    requires Inv(f) && Neutral(f) && f.g == G.Taken
    ensures Turns(FireT2(f)) == Turns(f) && Phase(FireT2(f)) < Phase(f)
  {
  }

  lemma T7Descends(f: State)
    requires Inv(f) && Armed(f, T7)
    ensures Turns(FireT7(f)) == Turns(f) && Phase(FireT7(f)) == Phase(f) && Repeats(FireT7(f)) < Repeats(f)
  {
    var f1 := f.(c7 := f.c7 + 1);
    forall u ensures Shape(f1, u) { assert PartOk(f, u); }
    MembersHaveParts(f1);
    FanHeard(f1, NewMsg(Mt.Idle, f.prev, 0, 0), {});
    var r := FireT7(f);
    forall k | k in f.d.parts ensures Chances(f.d.parts[k]) == Chances(r.d.parts[k]) { assert PartOk(f, k); }
    TotalSame(f.d.parts, r.d.parts);
  }

  lemma T20Descends(f: State)
    requires Inv(f) && Armed(f, T20)
    ensures Turns(FireT20(f)) == Turns(f) && Phase(FireT20(f)) == Phase(f) && Repeats(FireT20(f)) < Repeats(f)
  {
    var sp := f.speaker.value;
    var ev := NewMsg(Mt.Granted, None, f.sprio, f.t2Secs);
    TellGranted(f.d, sp, ev);
    if PartOf(f.d, sp).st in {Some(P.NpIdle), Some(P.NpTaken)} {
      assert PartOk(f, sp);
      TotalWrite(f.d.parts, sp, Entered(f.d.parts[sp], P.Permitted));
    }
  }

  /** A firing that only rewrites one record, to one with fewer chances left. */
  lemma RecordDescends(f: State, r: State, u: User, p: Part)
    requires u in f.d.parts && Chances(p) < Chances(f.d.parts[u])
    requires r.d.parts == f.d.parts[u := p]
    requires r.g == f.g && r.queue == f.queue && r.c7 == f.c7 && r.c20 == f.c20
    ensures Descends(f, r)
  {
    TotalWrite(f.d.parts, u, p);
  }

  lemma PartTimerDescends(f: State, t: Timer)
    requires Armed(f, t) && (t.T8? || t.T9? || t.T21?)
    ensures Descends(f, Fire(f, t))
  {
    var p := f.d.parts[t.u];
    match t
    case T8(u) => RecordDescends(f, FireT8(f, u), u, p.(c8 := p.c8 + 1));
    case T9(u) => RecordDescends(f, FireT9(f, u), u, p.(retry := false));
    case T21(u) => RecordDescends(f, FireT21(f, u), u, p.(c21 := p.c21 + 1));
  }

  lemma ExpiryDescends(f: State, f1: State)
    requires Inv(f) && Neutral(f) && f.g != G.Idle && f1 == f.(prev := f1.prev)
    ensures Turns(IdleEnter(f1)) < Turns(f)
  {
    forall x ensures PartOk(f1, x) { assert PartOk(f, x); }
    ExpireDescends(f1);
  }

  lemma FireDescends(f: State, t: Timer)
    requires Inv(f) && Neutral(f) && Armed(f, t)
    ensures Descends(f, Fire(f, t))
  {
    match t
    case T1 => ExpiryDescends(f, f.(prev := if f.g == G.Taken then f.speaker else f.revoking));
    case T3 => ExpiryDescends(f, f.(prev := f.revoking));
    case T2 => T2Descends(f);
    case T7 => T7Descends(f);
    case T20 => T20Descends(f);
    case _ => PartTimerDescends(f, t);
  }

  lemma CleanSlate(f0: State, f: State)
    requires Inv(f0) && f == f0.(fx := [], d := f0.d.(out := []))
    ensures Inv(f) && Neutral(f) && Turns(f) == Turns(f0) && Phase(f) == Phase(f0) && Repeats(f) == Repeats(f0)
  {
    forall x ensures PartOk(f, x) { assert PartOk(f0, x); }
  }

  /** Every armed firing makes the measure smaller. */
  lemma TimerDescends(f0: State, t: Timer)
    requires Inv(f0) && Armed(f0, t)
    ensures Descends(f0, Apply(f0, Tick(t)))
  {
    var f := f0.(fx := [], d := f0.d.(out := []));
    CleanSlate(f0, f);
    assert Armed(f, t);
    FireDescends(f, t);
  }

  /** A floor with no timer armed is idle and nobody waits. */
  lemma QuietIsIdle(f: State)
    requires Inv(f) && forall t :: !Armed(f, t)
    ensures f.g == G.Idle && f.queue == [] && Holder(f) == None
  {
    assert !Armed(f, T1);
  }

  ghost predicate TimerStep(f: State, t: Timer, r: State) { Armed(f, t) && r == Apply(f, Tick(t)) }

  lemma TimerStepDescends(f: State, t: Timer, r: State)
    requires Inv(f) && TimerStep(f, t, r)
    ensures Inv(r) && Descends(f, r)
  {
    StepGood(f, Tick(t));
    TimerDescends(f, t);
  }

  /** A sequence of states cannot descend for ever. */
  lemma {:induction false} DescentStops(states: nat -> State, step: nat -> bool, i: nat) returns (j: nat)
    requires Inv(states(i))
    requires forall k: nat {:trigger step(k)} :: step(k) && Inv(states(k)) ==> Inv(states(k + 1)) && Descends(states(k), states(k + 1))
    ensures i <= j && !step(j) && Inv(states(j)) && forall k {:trigger step(k)} :: i <= k < j ==> step(k)
    decreases Turns(states(i)), Phase(states(i)), Repeats(states(i))
  {
    if !step(i) {
      j := i;
    } else {
      j := DescentStops(states, step, i + 1);
    }
  }

  /** Each step taken is the firing of an armed timer, and a step is taken as long as one is armed. */
  ghost predicate TimersOnly(states: nat -> State, fired: nat -> Timer, step: nat -> bool) {
    && (forall i: nat {:trigger fired(i)} :: step(i) ==> TimerStep(states(i), fired(i), states(i + 1)))
    && (forall i: nat, t {:trigger step(i), Armed(states(i), t)} :: !step(i) ==> !Armed(states(i), t))
  }

  lemma OneDescends(states: nat -> State, fired: nat -> Timer, step: nat -> bool, k: nat)
    requires TimersOnly(states, fired, step) && step(k) && Inv(states(k))
    ensures Inv(states(k + 1)) && Descends(states(k), states(k + 1))
  {
    TimerStepDescends(states(k), fired(k), states(k + 1));
  }

  lemma AllDescend(states: nat -> State, fired: nat -> Timer, step: nat -> bool)
    requires TimersOnly(states, fired, step)
    ensures forall k: nat {:trigger step(k)} :: step(k) && Inv(states(k)) ==> Inv(states(k + 1)) && Descends(states(k), states(k + 1))
  {
    forall k: nat | step(k) && Inv(states(k)) ensures Inv(states(k + 1)) && Descends(states(k), states(k + 1)) {
      OneDescends(states, fired, step, k);
    }
  }

  /** From any reachable state a run of timer firings that goes on as long as a timer is
      armed is finite, and it ends idle, with nobody waiting and nothing armed. */
  lemma TimersComeToRest(states: nat -> State, fired: nat -> Timer, step: nat -> bool) returns (n: nat)
    requires Inv(states(0)) && TimersOnly(states, fired, step)
    ensures forall k {:trigger step(k)} :: 0 <= k < n ==> step(k)
    ensures forall t :: !Armed(states(n), t)
    ensures states(n).g == G.Idle && states(n).queue == [] && Holder(states(n)) == None
  {
    AllDescend(states, fired, step);
    n := DescentStops(states, step, 0);
    QuietIsIdle(states(n));
  }
}
