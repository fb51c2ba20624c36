/** Media binding: effects of the floor are numbered when decided and applied later,
    in any order; the slot still ends up bound to the holder of the floor. */
module MediaBinding {
  import opened Wrappers
  import F = FloorSpec
  import FloorSafety
  import FloorSteps
  import FloorRuns

  type User = F.User

  datatype Effect = Bind(user: User, g: nat) | Release(g: nat)

  /** What a slot remembers: the bound user with its grant number, and the highest number seen. */
  datatype Binding = Binding(bound: Option<(User, nat)>, maxSeen: Option<nat>)

  const UNBOUND := Binding(None, None)

  function Applied(s: Binding, e: Effect): Binding {
    match e
    case Bind(user, g) =>
      if s.maxSeen.Some? && g <= s.maxSeen.value then s else Binding(Some((user, g)), Some(g))
    case Release(g) =>
      Binding(if s.bound.Some? && s.bound.value.1 <= g then None else s.bound,
              Some(if s.maxSeen.Some? && s.maxSeen.value > g then s.maxSeen.value else g))
  }

  /** One media slot of a room. */
  class Slot {
    var bound: Option<(User, nat)>
    var maxSeen: Option<nat>

    ghost function Now(): Binding
      reads this
    {
      Binding(bound, maxSeen)
    }

    constructor ()
      ensures Now() == UNBOUND
    {
      bound, maxSeen := None, None;
    }

    /** Says whether the effect took hold; a late effect is dropped. */
    method Apply(e: Effect) returns (taken: bool)
      modifies this
      ensures Now() == Applied(old(Now()), e)
      ensures old(Sane(Now())) ==> Sane(Now()) && (taken <==> bound != old(bound))
    {
      match e
      case Bind(user, g) =>
        if maxSeen.Some? && g <= maxSeen.value {
          return false;
        }
        maxSeen := Some(g);
        bound := Some((user, g));
        taken := true;
      case Release(g) =>
        maxSeen := Some(if maxSeen.Some? && maxSeen.value > g then maxSeen.value else g);
        taken := bound.Some? && bound.value.1 <= g;
        if taken {
          bound := None;
        }
    }
  }

  function AppliedAll(s: Binding, es: seq<Effect>): Binding
    decreases es
  {
    if es == [] then s else AppliedAll(Applied(s, es[0]), es[1..])
  }

  // ---------------------------------------------------------------- order does not matter

  lemma {:induction false} StaysBound(s: Binding, es: seq<Effect>, u: User, g: nat)
    requires s == Binding(Some((u, g)), Some(g))
    requires forall e :: e in es ==> e == Bind(u, g) || e.g < g
    ensures AppliedAll(s, es).bound == Some((u, g))
    decreases es
  {
    if es != [] {
      assert es[0] in es;
      StaysBound(Applied(s, es[0]), es[1..], u, g);
    }
  }

  /** If one grant is newer than everything else, it is what remains bound. */
  lemma {:induction false} NewestGrantWins(s: Binding, es: seq<Effect>, u: User, g: nat)
    requires s.maxSeen.Some? ==> s.maxSeen.value < g
    requires Bind(u, g) in es && forall e :: e in es ==> e == Bind(u, g) || e.g < g
    ensures AppliedAll(s, es).bound == Some((u, g))
    decreases es
  {
    assert es[0] in es;
    if es[0] == Bind(u, g) {
      StaysBound(Applied(s, es[0]), es[1..], u, g);
    } else {
      NewestGrantWins(Applied(s, es[0]), es[1..], u, g);
    }
  }

  lemma {:induction false} StaysFree(s: Binding, es: seq<Effect>, g: nat)
    requires s == Binding(None, Some(g)) && forall e :: e in es ==> e.g <= g
    ensures AppliedAll(s, es).bound == None
    decreases es
  {
    if es != [] {
      assert es[0] in es;
      StaysFree(Applied(s, es[0]), es[1..], g);
    }
  }

  /** If no grant is newer than some release, nothing remains bound. */
  lemma {:induction false} NewestReleaseWins(s: Binding, es: seq<Effect>, g: nat)
    requires (s.maxSeen.Some? ==> s.maxSeen.value <= g) && (s.bound.Some? ==> s.bound.value.1 <= g)
    requires Release(g) in es && forall e :: e in es ==> e.g <= g
    ensures AppliedAll(s, es).bound == None
    decreases es
  {
    assert es[0] in es;
    if es[0] == Release(g) {
      StaysFree(Applied(s, es[0]), es[1..], g);
    } else {
      NewestReleaseWins(Applied(s, es[0]), es[1..], g);
    }
  }

  lemma {:induction false} NothingBinds(s: Binding, es: seq<Effect>)
    requires s.bound == None && forall e :: e in es ==> e.Release?
    ensures AppliedAll(s, es).bound == None
    decreases es
  {
    if es != [] {
      assert es[0] in es;
      NothingBinds(Applied(s, es[0]), es[1..]);
    }
  }

  ghost predicate Sane(s: Binding) {
    s.bound.Some? ==> s.maxSeen.Some? && s.bound.value.1 <= s.maxSeen.value
  }

  /** b is not older than a. */
  ghost predicate NotBefore(a: Binding, b: Binding) {
    && (a.maxSeen.Some? ==> b.maxSeen.Some? && a.maxSeen.value <= b.maxSeen.value)
    && (b.bound.Some? && b.bound != a.bound ==> a.maxSeen.Some? ==> a.maxSeen.value < b.bound.value.1)
    && (a.bound.Some? && b.bound.Some? ==> a.bound.value.1 <= b.bound.value.1)
  }

  /** Whatever is applied, in whatever order, the bound grant number never goes back. */
  lemma {:induction false} GrantNeverGoesBack(s: Binding, es: seq<Effect>)
    requires Sane(s)
    ensures Sane(AppliedAll(s, es)) && NotBefore(s, AppliedAll(s, es))
    decreases es
  {
    if es != [] {
      GrantNeverGoesBack(Applied(s, es[0]), es[1..]);
    }
  }

  // ---------------------------------------------------------------- numbering

  /** The effects of one step, numbered: each binding takes the next grant number and a
      release carries the current one. */
  function Numbered(fx: seq<F.Fx>, g: nat): seq<Effect>
    decreases fx
  {
    if fx == [] then []
    else if fx[0].Bind? then [Bind(fx[0].user, g + 1)] + Numbered(fx[1..], g + 1)
    else [Release(g)] + Numbered(fx[1..], g)
  }

  function GrantsAfter(fx: seq<F.Fx>, g: nat): nat
    decreases fx
  {
    if fx == [] then g else GrantsAfter(fx[1..], if fx[0].Bind? then g + 1 else g)
  }

  /** The next effect of a step, numbered behind those already done. */
  lemma NumberedStep(fx: seq<F.Fx>, i: nat, g: nat, done: seq<Effect>)
    requires i < |fx|
    ensures var (e, n) := if fx[i].Bind? then (Bind(fx[i].user, g + 1), g + 1) else (Release(g), g);
            && done + Numbered(fx[i..], g) == (done + [e]) + Numbered(fx[i + 1..], n)
            && GrantsAfter(fx[i..], g) == GrantsAfter(fx[i + 1..], n)
  {
    assert fx[i..][1..] == fx[i + 1..];
  }

  function RunEffects(f: F.State, es: seq<F.Event>, g: nat): seq<Effect>
    decreases es
  {
    if es == [] then [] else
    var r := F.Apply(f, es[0]);
    Numbered(r.fx, g) + RunEffects(r, es[1..], GrantsAfter(r.fx, g))
  }

  function RunGrants(f: F.State, es: seq<F.Event>, g: nat): nat
    decreases es
  {
    if es == [] then g else
    var r := F.Apply(f, es[0]);
    RunGrants(r, es[1..], GrantsAfter(r.fx, g))
  }

  /** The effects so far determine the holder: its grant is the newest effect, or, on an
      idle floor, the newest effect is a release. */
  ghost predicate Settled(f: F.State, effs: seq<Effect>, g: nat) {
    && (forall e :: e in effs ==> e.g <= g)
    && (match F.Holder(f)
        case Some(u) => Bind(u, g) in effs && forall e :: e in effs && e.g == g ==> e == Bind(u, g)
        case None => Release(g) in effs || forall e :: e in effs ==> e.Release?)
  }

  lemma StepSettled(f: F.State, e: F.Event, effs: seq<Effect>, g: nat)
    requires FloorSafety.Inv(f) && F.Enabled(f, e) && Settled(f, effs, g)
    ensures FloorSafety.Inv(F.Apply(f, e))
    ensures Settled(F.Apply(f, e), effs + Numbered(F.Apply(f, e).fx, g), GrantsAfter(F.Apply(f, e).fx, g))
  {
    FloorSteps.StepGood(f, e);
    var f0 := f.(fx := [], d := f.d.(out := []));
    SettledMove(f0, F.Apply(f, e), effs, g);
  }

  lemma SettledMove(f: F.State, r: F.State, effs: seq<Effect>, g: nat)
    requires f.fx == [] && FloorSteps.FxStep(f, r) && FloorSafety.GroupOk(f) && FloorSafety.GroupOk(r) && Settled(f, effs, g)
    ensures Settled(r, effs + Numbered(r.fx, g), GrantsAfter(r.fx, g))
  {
    if r.fx == [] {
      assert effs + Numbered(r.fx, g) == effs;
    } else if r.g == F.G.Taken {
      assert r.fx == [F.Bind(r.speaker.value)];
      assert Numbered(r.fx, g) == [Bind(r.speaker.value, g + 1)];
    } else {
      assert |r.fx| == 1 && r.fx[0].Release?;
      assert Numbered(r.fx, g) == [Release(g)];
    }
  }

  lemma EffectsSplit(f: F.State, es: seq<F.Event>, effs: seq<Effect>, g: nat)
    requires es != []
    ensures var r := F.Apply(f, es[0]);
            effs + RunEffects(f, es, g) == effs + Numbered(r.fx, g) + RunEffects(r, es[1..], GrantsAfter(r.fx, g))
  {
    var r := F.Apply(f, es[0]);
    EffectsOf(f, es, g, r);
    Appended(effs, Numbered(r.fx, g), RunEffects(r, es[1..], GrantsAfter(r.fx, g)));
  }

  lemma EffectsOf(f: F.State, es: seq<F.Event>, g: nat, r: F.State)
    requires es != [] && r == F.Apply(f, es[0])
    ensures RunEffects(f, es, g) == Numbered(r.fx, g) + RunEffects(r, es[1..], GrantsAfter(r.fx, g))
  {
  }

  lemma Appended(a: seq<Effect>, b: seq<Effect>, c: seq<Effect>)
    ensures a + (b + c) == a + b + c
  {
  }

  lemma {:induction false} RunSettled(f: F.State, es: seq<F.Event>, effs: seq<Effect>, g: nat)
    requires FloorSafety.Inv(f) && F.IsRun(f, es) && Settled(f, effs, g)
    ensures Settled(F.Run(f, es), effs + RunEffects(f, es, g), RunGrants(f, es, g))
    decreases es
  {
    if es == [] {
      assert effs + RunEffects(f, es, g) == effs;
    } else {
      var r := F.Apply(f, es[0]);
      StepSettled(f, es[0], effs, g);
      RunSettled(r, es[1..], effs + Numbered(r.fx, g), GrantsAfter(r.fx, g));
      EffectsSplit(f, es, effs, g);
    }
  }

  lemma SettledBinding(f: F.State, effs: seq<Effect>, g: nat, order: seq<Effect>)
    requires Settled(f, effs, g) && forall e :: e in order <==> e in effs
    ensures AppliedAll(UNBOUND, order).bound == match F.Holder(f) case Some(u) => Some((u, g)) case None => None
  {
    match F.Holder(f)
    case Some(u) =>
      assert forall e :: e in order ==> e == Bind(u, g) || e.g < g;
      NewestGrantWins(UNBOUND, order, u, g);
    case None =>
      if Release(g) in effs { NewestReleaseWins(UNBOUND, order, g); } else { NothingBinds(UNBOUND, order); }
  }

  /** For every run of the floor, applying the numbered effects in any order leaves the
      slot bound to exactly the holder, with the latest grant number. */
  lemma BindingConverges(qmax: nat, t2Secs: nat, es: seq<F.Event>, order: seq<Effect>)
    requires F.IsRun(F.Init(qmax, t2Secs), es)
    requires multiset(order) == multiset(RunEffects(F.Init(qmax, t2Secs), es, 0))
    ensures var f := F.Run(F.Init(qmax, t2Secs), es);
            AppliedAll(UNBOUND, order).bound ==
            match F.Holder(f) case Some(u) => Some((u, RunGrants(F.Init(qmax, t2Secs), es, 0))) case None => None
  {
    var f := F.Init(qmax, t2Secs);
    var effs := RunEffects(f, es, 0);
    FloorRuns.InitInv(qmax, t2Secs);
    RunSettled(f, es, [], 0);
    assert [] + effs == effs;
    forall e ensures e in order <==> e in effs {
      assert e in order <==> e in multiset(order);
      assert e in effs <==> e in multiset(effs);
    }
    SettledBinding(F.Run(f, es), effs, RunGrants(f, es, 0), order);
  }

  /** The clock of a room floor: grant numbers and timer deadlines. */
  class Clock {
    var grantNo: nat
    var grantedAt: nat
    var firstRtpAt: Option<nat>
    var lastRtpAt: Option<nat>
    var timers: map<F.Timer, nat>

    constructor ()
      ensures grantNo == 0 && timers == map[]
    {
      grantNo, grantedAt, firstRtpAt, lastRtpAt, timers := 0, 0, None, None, map[];
    }

    /** Numbers the effects of one step. */
    method Stamp(fx: seq<F.Fx>, now: nat) returns (effects: seq<Effect>)
      modifies this`grantNo, this`grantedAt, this`firstRtpAt, this`lastRtpAt
      ensures effects == Numbered(fx, old(grantNo)) && grantNo == GrantsAfter(fx, old(grantNo))
    {
      effects := [];
      var i := 0;
      while i < |fx|
        invariant i <= |fx|
        invariant effects + Numbered(fx[i..], grantNo) == Numbered(fx, old(grantNo))
        invariant GrantsAfter(fx[i..], grantNo) == GrantsAfter(fx, old(grantNo))
      {
        NumberedStep(fx, i, grantNo, effects);
        if fx[i].Bind? {
          grantNo := grantNo + 1;
          grantedAt, firstRtpAt, lastRtpAt := now, None, None;
          effects := effects + [Bind(fx[i].user, grantNo)];
        } else {
          effects := effects + [Release(grantNo)];
        }
        i := i + 1;
      }
    }

    /** The base of a deadline that is armed now. */
    function Base(t: F.Timer, now: nat): nat
      reads this
    {
      match t
      case T1 => if lastRtpAt.Some? && lastRtpAt.value > grantedAt then lastRtpAt.value else grantedAt
      case T2 => firstRtpAt.GetOr(now)
      case _ => now
    }

    /** Exactly the armed timers run afterwards; those that ran already keep their deadline. */
    method Rearm(f: F.State, now: nat, duration: F.Timer -> nat)
      modifies this`timers
      ensures forall t :: t in timers <==> F.Armed(f, t)
      ensures forall t :: t in timers ==>
                timers[t] == if t in old(timers) then old(timers)[t] else Base(t, now) + duration(t)
    {
      var want := F.ArmedSet(f);
      F.ArmedSetLists(f);
      timers := map t | t in want :: if t in timers then timers[t] else Base(t, now) + duration(t);
    }
  }
}
