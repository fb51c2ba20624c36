/** The sequence numbers on Taken and Idle notices: which recipients of a fan-out share one. */
module FloorNumbers {
  import opened FloorSpec

  predicate IsNumbered(t: Mt) { t == Mt.Taken || t == Mt.Idle }

  /** One participant: at most one notice of the event's own type, with the event's number, or
      the next one if that is zero. */
  lemma TellNumber(d: Desk, u: User, ev: Msg)
    requires IsNumbered(ev.t)
    ensures var r := Tell(d, u, ev);
            var next := (d.seqNo + 1) % 65536;
            || (r.out == d.out && r.seqNo == d.seqNo)
            || (|r.out| == |d.out| + 1 && r.out[..|d.out|] == d.out
                && r.out[|d.out|].to == u && r.out[|d.out|].m.t == ev.t
                && r.out[|d.out|].m.q == (if ev.q == 0 then next else ev.q)
                && r.seqNo == (if ev.q == 0 then next else d.seqNo))
  {
    var r := Tell(d, u, ev);
    if r.out != d.out { assert r.out[..|d.out|] == d.out; }
  }

  /** How notices since n are numbered: all alike, or counting on from the number before. */
  ghost predicate Alike(d: Desk, n: nat, t: Mt, q: nat) {
    n <= |d.out| && forall i :: n <= i < |d.out| ==> d.out[i].m.t == t && d.out[i].m.q == q
  }

  ghost predicate Counting(d: Desk, n: nat, t: Mt, before: nat) {
    && n <= |d.out| && d.seqNo == (before + (|d.out| - n)) % 65536
    && forall i :: n <= i < |d.out| ==> d.out[i].m.t == t && d.out[i].m.q == (before + (i - n) + 1) % 65536
  }

  lemma {:induction false} TellAllAlike(d: Desk, us: seq<User>, ev: Msg, n: nat)
    requires IsNumbered(ev.t) && ev.q != 0 && Alike(d, n, ev.t, ev.q)
    ensures Alike(TellAll(d, us, ev), n, ev.t, ev.q) && TellAll(d, us, ev).seqNo == d.seqNo
    ensures d.out <= TellAll(d, us, ev).out
    decreases us
  {
    if us != [] {
      TellNumber(d, us[0], ev);
      TellAllAlike(Tell(d, us[0], ev), us[1..], ev, n);
    }
  }

  lemma {:induction false} TellAllCounts(d: Desk, us: seq<User>, ev: Msg, n: nat, before: nat)
    requires IsNumbered(ev.t) && ev.q == 0 && Counting(d, n, ev.t, before)
    ensures Counting(TellAll(d, us, ev), n, ev.t, before)
    ensures d.out <= TellAll(d, us, ev).out
    decreases us
  {
    if us != [] {
      TellNumber(d, us[0], ev);
      TellAllCounts(Tell(d, us[0], ev), us[1..], ev, n, before);
    }
  }

  /** MAIN: where the next number is not zero, all recipients of a fan-out of Taken or Idle get it
      and the counter stands there; where the counter wraps to zero, each recipient gets a number
      of its own, counting from one. So recipients share a number if and only if the next number is
      not zero or at most one is told. */
  lemma FanNumbers(f: State, ev: Msg, skip: set<User>)
    requires IsNumbered(ev.t)
    ensures var (r, n, s) := (Fan(f, ev, skip), |f.d.out|, (f.d.seqNo + 1) % 65536);
            && f.d.out <= r.d.out
            && (s != 0 ==> Alike(r.d, n, ev.t, s) && r.d.seqNo == s)
            && (s == 0 ==> Counting(r.d, n, ev.t, 0))
            && ((exists q :: Alike(r.d, n, ev.t, q)) <==> s != 0 || |r.d.out| <= n + 1)
  {
    var (r, n, s) := (Fan(f, ev, skip), |f.d.out|, (f.d.seqNo + 1) % 65536);
    var us := Ascending(f.members - skip);
    if s != 0 {
      TellAllAlike(f.d.(seqNo := s), us, ev.(q := s), n);
    } else {
      TellAllCounts(f.d.(seqNo := s), us, ev.(q := s), n, 0);
      if |r.d.out| <= n + 1 {
        assert Alike(r.d, n, ev.t, 1);
      } else {
        assert r.d.out[n].m.q == 1 && r.d.out[n + 1].m.q == 2;
      }
    }
  }
}
