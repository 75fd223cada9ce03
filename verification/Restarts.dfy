/**
  The recovery loop of the leader controller, monitorWorkloads in pkg/leader/leader.go: workloads
  that look unhealthy are stopped and started again, at growing distances. Times in milliseconds.
 */
module Restarts {
  import opened Wrappers

  function Pow2(n: nat): (p: nat)
    ensures p >= 1
  {
    if n == 0 then 1 else 2 * Pow2(n - 1)
  }

  lemma {:induction false} Pow2Grows(m: nat, n: nat)
    requires m <= n
    ensures Pow2(m) <= Pow2(n)
    decreases n
  {
    if m < n {
      Pow2Grows(m, n - 1);
    }
  }

  /** The distance kept from a restart: powers of two, in seconds, up to a minute. */
  function Delay(attempts: nat): nat {
    1_000 * if Pow2(attempts) < 60 then Pow2(attempts) else 60
  }

  /** The delays after the restarts numbered `first`, `first` + 1, and so on. */
  function Delays(first: nat, count: nat): nat
    decreases count
  {
    if count == 0 then 0 else Delay(first) + Delays(first + 1, count - 1)
  }

  datatype Complaint = Silent | PodPending | Other

  /** What one iteration sees of a workload, and the clock when it looks and when it is done. */
  datatype Look = Look(now: int, done: int, active: bool, normal: bool, healthy: bool, complaint: Complaint,
                       lastTransition: int, present: bool)

  /** How often a workload was restarted, and when last. */
  datatype Track = Track(attempts: nat, last: int)

  predicate Ailing(look: Look) {
    look.active && look.normal && !look.healthy && !look.complaint.Silent?
  }

  predicate Due(t: Option<Track>, now: int) {
    t.Some? ==> now - t.value.last >= Delay(t.value.attempts)
  }

  /** The exact condition of a restart. */
  predicate Restarted(t: Option<Track>, look: Look) {
    && Ailing(look) && !look.complaint.PodPending?
    && look.lastTransition + 120_000 <= look.now
    && Due(t, look.now)
    && look.present
  }

  function Next(t: Option<Track>, look: Look): Option<Track> {
    if Restarted(t, look) then Some(Track(if t.Some? then t.value.attempts + 1 else 1, look.done))
    else if look.healthy then None
    else t
  }

  // ---------------------------------------------------------------------------------------
  // The loop
  // ---------------------------------------------------------------------------------------

  class RecoveryLoop {
    var restartAttempts: map<string, nat>
    var lastRestartTime: map<string, int>

    constructor ()
      ensures InStep() && restartAttempts == map[]
    {
      restartAttempts := map[];
      lastRestartTime := map[];
    }

    /** The two maps always have the same keys. */
    predicate InStep()
      reads this
    {
      restartAttempts.Keys == lastRestartTime.Keys
    }

    function Tracked(name: string): Option<Track>
      requires InStep()
      reads this
    {
      if name in restartAttempts then Some(Track(restartAttempts[name], lastRestartTime[name])) else None
    }

    /** One workload of one tick. */
    method Recover(name: string, look: Look) returns (restarted: bool)
      requires InStep()
      modifies this
      ensures InStep()
      ensures restarted == Restarted(old(Tracked(name)), look)
      ensures restarted <==>
                && look.active && look.normal && !look.healthy && look.complaint == Other && look.present
                && look.now - look.lastTransition >= 120_000
                && (old(Tracked(name)).Some? ==>
                      var t := old(Tracked(name)).value;
                      look.now - t.last >= 60_000 || look.now - t.last >= 1_000 * Pow2(t.attempts))
      ensures Tracked(name) == Next(old(Tracked(name)), look)
      ensures Tracked(name) ==
                if look.healthy then None
                else if !restarted then old(Tracked(name))
                else if old(Tracked(name)).None? then Some(Track(1, look.done))
                else Some(Track(old(Tracked(name)).value.attempts + 1, look.done))
      ensures forall n :: n != name ==> Tracked(n) == old(Tracked(n))
    {
      restarted := false;
      if look.active && look.normal && !look.healthy && look.complaint != Silent {
        if look.complaint == PodPending {
          return;
        }
        if look.lastTransition + 120_000 > look.now {
          return;
        }
        var attempts := if name in restartAttempts then restartAttempts[name] else 0;
        var hasRestarted := name in lastRestartTime;
        var backoffDelay := Delay(attempts);
        if hasRestarted && look.now - lastRestartTime[name] < backoffDelay {
          return;
        }
        if look.present {
          restarted := true;
          restartAttempts := restartAttempts[name := attempts + 1];
          lastRestartTime := lastRestartTime[name := look.done];
        }
      } else if look.healthy {
        if name in restartAttempts {
          restartAttempts := restartAttempts - {name};
          lastRestartTime := lastRestartTime - {name};
        }
      }
    }

    /** One tick: every workload once, in any order, and only on the leader. */
    method Tick(leader: bool, looks: map<string, Look>)
      requires InStep()
      modifies this
      ensures InStep()
      ensures forall name :: Tracked(name) ==
                if leader && name in looks then Next(old(Tracked(name)), looks[name]) else old(Tracked(name))
    {
      if !leader {
        return;
      }
      var left := looks.Keys;
      while left != {}
        invariant InStep() && left <= looks.Keys
        invariant forall name :: Tracked(name) ==
                    if name in looks && name !in left then Next(old(Tracked(name)), looks[name]) else old(Tracked(name))
        decreases |left|
      {
        var name :| name in left;
        var _ := Recover(name, looks[name]);
        left := left - {name};
      }
    }
  }

  // ---------------------------------------------------------------------------------------
  // Histories of one workload
  // ---------------------------------------------------------------------------------------

  /** Time passes between looks and during them, and no look finds the workload healthy. */
  predicate Sick(since: int, h: seq<Look>)
    decreases |h|
  {
    h == [] || (since <= h[0].now <= h[0].done && !h[0].healthy && Sick(h[0].done, h[1..]))
  }

  function After(t: Option<Track>, h: seq<Look>): Option<Track>
    decreases |h|
  {
    if h == [] then t else After(Next(t, h[0]), h[1..])
  }

  function Restartings(t: Option<Track>, h: seq<Look>): nat
    decreases |h|
  {
    if h == [] then 0 else (if Restarted(t, h[0]) then 1 else 0) + Restartings(Next(t, h[0]), h[1..])
  }

  /** Over any history without a healthy look, restarts are counted one by one, and n of them take at
      least the n delays. */
  lemma {:induction false} RestartsAreSpaced(t: Track, h: seq<Look>)
    requires Sick(t.last, h)
    ensures var n := Restartings(Some(t), h);
            && After(Some(t), h).Some?
            && After(Some(t), h).value.attempts == t.attempts + n
            && After(Some(t), h).value.last >= t.last + Delays(t.attempts, n)
    decreases |h|
  {
    if h != [] {
      if Restarted(Some(t), h[0]) {
        RestartsAreSpaced(Track(t.attempts + 1, h[0].done), h[1..]);
      } else {
        SickFromEarlier(t.last, h[0].done, h[1..]);
        RestartsAreSpaced(t, h[1..]);
      }
    }
  }

  lemma SickFromEarlier(earlier: int, since: int, h: seq<Look>)
    requires earlier <= since && Sick(since, h)
    ensures Sick(earlier, h)
  {
  }

  function Attempts(t: Option<Track>): nat {
    if t.Some? then t.value.attempts else 0
  }

  /** The restarts of a history since its last healthy look, on top of `n` if there was none. */
  function SinceHealthy(n: nat, t: Option<Track>, h: seq<Look>): nat
    decreases |h|
  {
    if h == [] then n
    else
      SinceHealthy(if h[0].healthy then 0 else if Restarted(t, h[0]) then n + 1 else n, Next(t, h[0]), h[1..])
  }

  /** Over every history, what counts is the restarts since the last healthy look: a workload that was
      healthy after its restarts is forgotten, and is restarted without delay when it fails again. */
  lemma {:induction false} HealthClearsTheCount(t: Option<Track>, h: seq<Look>)
    requires t.Some? ==> t.value.attempts >= 1
    ensures Attempts(After(t, h)) == SinceHealthy(Attempts(t), t, h)
    ensures After(t, h).None? <==> SinceHealthy(Attempts(t), t, h) == 0
    decreases |h|
  {
    if h != [] {
      HealthClearsTheCount(Next(t, h[0]), h[1..]);
    }
  }

  /** From the first restart on: the further restarts take at least 2, 4, 8, 16, 32 seconds and then a
      minute each. */
  lemma DelaysInClosedForm(n: nat)
    requires n >= 5
    ensures Delays(1, n) == 1_000 * (62 + 60 * (n - 5))
  {
    assert Delays(1, n) == 2_000 + (4_000 + (8_000 + (16_000 + (32_000 + Delays(6, n - 5))))) by {
      assert Pow2(1) == 2 && Pow2(2) == 4 && Pow2(3) == 8 && Pow2(4) == 16 && Pow2(5) == 32;
      assert Delays(1, n) == 2_000 + Delays(2, n - 1);
      assert Delays(2, n - 1) == 4_000 + Delays(3, n - 2);
      assert Delays(3, n - 2) == 8_000 + Delays(4, n - 3);
      assert Delays(4, n - 3) == 16_000 + Delays(5, n - 4);
      assert Delays(5, n - 4) == 32_000 + Delays(6, n - 5);
    }
    MinutesOnly(6, n - 5);
  }

  lemma {:induction false} MinutesOnly(first: nat, count: nat)
    requires first >= 6
    ensures Delays(first, count) == 60_000 * count
    decreases count
  {
    assert Pow2(6) == 64;
    Pow2Grows(6, first);
    if count > 0 {
      MinutesOnly(first + 1, count - 1);
    }
  }

  /** Looks that come exactly when the delay is over. */
  function Eager(t: Track, n: nat): (h: seq<Look>)
    decreases n
  {
    if n == 0 then []
    else
      var now := t.last + Delay(t.attempts);
      [Look(now, now, true, true, false, Other, now - 120_000, true)] + Eager(Track(t.attempts + 1, now), n - 1)
  }

  /** The bound is attained: the delays are all that keeps restarts apart. */
  lemma {:induction false} SpacingIsAttained(t: Track, n: nat)
    ensures Sick(t.last, Eager(t, n)) && Restartings(Some(t), Eager(t, n)) == n
    ensures After(Some(t), Eager(t, n)) == Some(Track(t.attempts + n, t.last + Delays(t.attempts, n)))
    decreases n
  {
    if n > 0 {
      var now := t.last + Delay(t.attempts);
      SpacingIsAttained(Track(t.attempts + 1, now), n - 1);
      assert Eager(t, n)[1..] == Eager(Track(t.attempts + 1, now), n - 1);
    }
  }
}
