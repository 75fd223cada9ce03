/**
  pkg/workloads/manager.go: starting all workloads at once, and retrying the ones that failed.
  Times in nanoseconds, as in the program's durations.
 */
module Startup {
  import opened Restarts

  datatype Failure = Failure(count: nat, lastAttempt: int)

  type Failures = map<string, Failure>

  /** How one start ends, and when. */
  datatype Ending = Started | Failed(severe: bool, at: int)

  datatype Report = Fine | SomeFailed | SomeSevere

  predicate Severe(endings: map<string, Ending>, name: string) {
    name in endings && endings[name].Failed? && endings[name].severe
  }

  /** The failures among these workloads, each counted once. */
  function Recorded(endings: map<string, Ending>, names: set<string>): Failures
    requires names <= endings.Keys
  {
    map name | name in names && endings[name].Failed? :: Failure(1, endings[name].at)
  }

  lemma RecordedGrows(endings: map<string, Ending>, names: set<string>, name: string)
    requires names <= endings.Keys && name in endings
    ensures Recorded(endings, names + {name}) ==
            if endings[name].Failed? then Recorded(endings, names)[name := Failure(1, endings[name].at)]
            else Recorded(endings, names)
  {
  }

  // ---------------------------------------------------------------------------------------
  // StartAll
  // ---------------------------------------------------------------------------------------

  class ManagerImpl {
    var workloads: set<string>
    var failedWorkloads: Failures
    var isShuttingDown: bool
    var retryLoops: nat

    constructor ()
      ensures workloads == {} && failedWorkloads == map[] && !isShuttingDown && retryLoops == 0
    {
      workloads := {};
      failedWorkloads := map[];
      isShuttingDown := false;
      retryLoops := 0;
    }

    method AddWorkload(name: string) returns (ok: bool)
      modifies this`workloads
      ensures ok <==> name !in old(workloads)
      ensures workloads == old(workloads) + {name}
    {
      if name in workloads {
        return false;
      }
      workloads := workloads + {name};
      return true;
    }

    method RemoveWorkload(name: string) returns (ok: bool)
      modifies this`workloads
      ensures ok <==> name in old(workloads)
      ensures workloads == old(workloads) - {name}
    {
      if name !in workloads {
        return false;
      }
      workloads := workloads - {name};
      return true;
    }

    /** All workloads are started side by side; they end in any order, which the choices in the loop
        stand for. Whatever the order, exactly the failed ones are on record, each with one failure,
        and the report is severe exactly if some failure was. One more retry loop runs afterwards. */
    method StartAll(endings: map<string, Ending>) returns (report: Report)
      requires workloads <= endings.Keys
      modifies this`failedWorkloads, this`isShuttingDown, this`retryLoops
      ensures !isShuttingDown && retryLoops == old(retryLoops) + 1
      ensures failedWorkloads == Recorded(endings, workloads)
      ensures forall name :: name in failedWorkloads <==> name in workloads && endings[name].Failed?
      ensures forall name :: name in failedWorkloads ==> failedWorkloads[name] == Failure(1, endings[name].at)
      ensures report == SomeSevere <==> exists name :: name in workloads && Severe(endings, name)
      ensures report == Fine <==> failedWorkloads == map[]
    {
      isShuttingDown := false;
      failedWorkloads := map[];
      retryLoops := retryLoops + 1;
      var running, errors := workloads, {};
      while running != {}
        invariant running <= workloads && !isShuttingDown && retryLoops == old(retryLoops) + 1
        invariant failedWorkloads == Recorded(endings, workloads - running)
        invariant errors == failedWorkloads.Keys
        decreases |running|
      {
        var name :| name in running;
        RecordedGrows(endings, workloads - running, name);
        assert workloads - (running - {name}) == (workloads - running) + {name};
        running := running - {name};
        if endings[name].Failed? {
          failedWorkloads := failedWorkloads[name := Failure(1, endings[name].at)];
          errors := errors + {name};  // the error channel
        }
      }
      assert workloads - running == workloads;
      var severeErrors := set name | name in errors && endings[name].severe;
      if severeErrors != {} {
        var name :| name in severeErrors;
        assert Severe(endings, name);
        return SomeSevere;
      }
      assert forall name :: name in workloads && Severe(endings, name) ==> name in severeErrors;
      if errors != {} {
        return SomeFailed;
      }
      return Fine;
    }
  }

  // ---------------------------------------------------------------------------------------
  // Backoff
  // ---------------------------------------------------------------------------------------

  const FIRST: int := 5_000_000_000
  const LONGEST: int := 300_000_000_000
  const MAX_INT64: int := 0x7FFF_FFFF_FFFF_FFFF
  const MIN_INT64: int := -0x8000_0000_0000_0000

  /** A float beyond the range of int64 converts to the least integer on amd64, to the greatest on
      arm64. The product itself is exact. */
  datatype Cpu = Amd64 | Arm64

  function ToInt64(cpu: Cpu, x: int): int {
    if MIN_INT64 <= x <= MAX_INT64 then x
    else if cpu.Amd64? then MIN_INT64
    else if x > 0 then MAX_INT64 else MIN_INT64
  }

  function Backoff(cpu: Cpu, count: nat): int
    requires count >= 1
  {
    var backoff := ToInt64(cpu, FIRST * Pow2(count - 1));
    if backoff > LONGEST then LONGEST else backoff
  }

  lemma Powers()
    ensures Pow2(6) == 64 && Pow2(30) == 0x4000_0000 && Pow2(31) == 0x8000_0000
  {
    assert Pow2(10) == 1_024;
    assert Pow2(20) == 1_024 * 1_024 by { assert Pow2(15) == 32 * 1_024; }
    assert Pow2(25) == 32 * Pow2(20);
    assert Pow2(30) == 32 * Pow2(25);
  }

  /** Five seconds, doubled with every failure, up to five minutes: that, and a backoff within these
      bounds at all, hold exactly up to the 31st failure, or on a machine that saturates. */
  lemma BackoffExactly(cpu: Cpu, count: nat)
    requires count >= 1
    ensures FIRST <= Backoff(cpu, count) <= LONGEST <==> count <= 31 || cpu.Arm64?
    ensures count <= 31 || cpu.Arm64? ==>
              Backoff(cpu, count) == (if FIRST * Pow2(count - 1) < LONGEST then FIRST * Pow2(count - 1) else LONGEST)
    ensures count > 31 && cpu.Amd64? ==> Backoff(cpu, count) == MIN_INT64
  {
    Powers();
    if count <= 31 {
      Pow2Grows(count - 1, 30);
    } else {
      Pow2Grows(31, count - 1);
    }
  }

  lemma BackoffGrows(cpu: Cpu, m: nat, n: nat)
    requires 1 <= m <= n && (n <= 31 || cpu.Arm64?)
    ensures Backoff(cpu, m) <= Backoff(cpu, n)
    ensures n >= 7 ==> Backoff(cpu, n) == LONGEST
  {
    BackoffExactly(cpu, m);
    BackoffExactly(cpu, n);
    Pow2Grows(m - 1, n - 1);
    Powers();
    if n >= 7 {
      Pow2Grows(6, n - 1);
    }
  }

  // ---------------------------------------------------------------------------------------
  // Retry loops
  // ---------------------------------------------------------------------------------------

  /** A loop copies the failures, then goes through its copy. */
  datatype Loop =
    | Idle
    | Sweeping(todo: Failures)
    | Trying(name: string, info: Failure, todo: Failures)

  datatype World = World(now: int, failed: Failures, loops: map<nat, Loop>)

  datatype Action =
    | Pass(to: int)
    | Snapshot(id: nat)
    | Skip(id: nat, name: string)   // not yet
    | Begin(id: nat, name: string)  // start the workload again
    | Finish(id: nat, ok: bool)

  predicate Ripe(cpu: Cpu, info: Failure, now: int) {
    info.count >= 1 && now - info.lastAttempt >= Backoff(cpu, info.count)
  }

  predicate Enabled(cpu: Cpu, w: World, a: Action) {
    match a
    case Pass(to) => w.now <= to
    case Snapshot(id) => id in w.loops && (w.loops[id].Idle? || w.loops[id] == Sweeping(map[]))
    case Skip(id, name) =>
      id in w.loops && w.loops[id].Sweeping? && name in w.loops[id].todo && !Ripe(cpu, w.loops[id].todo[name], w.now)
    case Begin(id, name) =>
      id in w.loops && w.loops[id].Sweeping? && name in w.loops[id].todo && Ripe(cpu, w.loops[id].todo[name], w.now)
    case Finish(id, _) => id in w.loops && w.loops[id].Trying?
  }

  function Do(cpu: Cpu, w: World, a: Action): World
    requires Enabled(cpu, w, a)
  {
    match a
    case Pass(to) => w.(now := to)
    case Snapshot(id) => w.(loops := w.loops[id := Sweeping(w.failed)])
    case Skip(id, name) => w.(loops := w.loops[id := Sweeping(w.loops[id].todo - {name})])
    case Begin(id, name) =>
      var todo := w.loops[id].todo;
      w.(loops := w.loops[id := Trying(name, todo[name], todo - {name})])
    case Finish(id, ok) =>
      var l := w.loops[id];
      w.(failed := if ok then w.failed - {l.name} else w.failed[l.name := Failure(l.info.count + 1, w.now)],
         loops := w.loops[id := Sweeping(l.todo)])
  }

  predicate Runs(cpu: Cpu, w: World, acts: seq<Action>)
    decreases |acts|
  {
    acts == [] || (Enabled(cpu, w, acts[0]) && Runs(cpu, Do(cpu, w, acts[0]), acts[1..]))
  }

  /** Every retry comes when the record it is about to replace says so. */
  predicate Spaced(cpu: Cpu, w: World, acts: seq<Action>)
    requires Runs(cpu, w, acts)
    decreases |acts|
  {
    acts == []
    || (&& (acts[0].Begin? ==> acts[0].name in w.failed && Ripe(cpu, w.failed[acts[0].name], w.now))
        && Spaced(cpu, Do(cpu, w, acts[0]), acts[1..]))
  }

  /** The records after a start, before any loop did anything. */
  predicate Initial(w: World) {
    forall id :: id in w.loops ==> w.loops[id].Idle?
  }

  /** What a loop still has on its list is what is on record. */
  predicate UpToDate(w: World, id: nat)
    requires id in w.loops
  {
    match w.loops[id]
    case Idle => true
    case Sweeping(todo) => todo.Items <= w.failed.Items
    case Trying(name, info, todo) => todo.Items <= w.failed.Items && name !in todo
  }

  lemma SubMap(small: Failures, large: Failures)
    ensures small.Items <= large.Items <==> forall n :: n in small ==> n in large && large[n] == small[n]
  {
    if small.Items <= large.Items {
      forall n | n in small ensures n in large && large[n] == small[n] {
        assert (n, small[n]) in small.Items;
      }
    }
    if forall n :: n in small ==> n in large && large[n] == small[n] {
      forall item | item in small.Items ensures item in large.Items {
        assert large[item.0] == item.1;
      }
    }
  }

  lemma AloneStaysUpToDate(cpu: Cpu, w: World, a: Action, id: nat)
    requires w.loops.Keys == {id} && UpToDate(w, id) && Enabled(cpu, w, a)
    ensures var v := Do(cpu, w, a); v.loops.Keys == {id} && UpToDate(v, id)
  {
  }

  lemma {:induction false} AloneIsSpaced(cpu: Cpu, w: World, acts: seq<Action>, id: nat)
    requires w.loops.Keys == {id} && UpToDate(w, id) && Runs(cpu, w, acts)
    ensures Spaced(cpu, w, acts)
    decreases |acts|
  {
    if acts != [] {
      if acts[0].Begin? {
        SubMap(w.loops[id].todo, w.failed);
      }
      AloneStaysUpToDate(cpu, w, acts[0], id);
      AloneIsSpaced(cpu, Do(cpu, w, acts[0]), acts[1..], id);
    }
  }

  /** The loop works on the record that stands, and not before its time. */
  predicate Current(cpu: Cpu, w: World, id: nat)
    requires id in w.loops
  {
    && UpToDate(w, id)
    && (w.loops[id].Trying? ==>
          var info := w.loops[id].info;
          w.loops[id].name in w.failed && w.failed[w.loops[id].name] == info && Ripe(cpu, info, w.now))
  }

  lemma AloneStaysCurrent(cpu: Cpu, w: World, a: Action, id: nat)
    requires w.loops.Keys == {id} && Current(cpu, w, id) && Enabled(cpu, w, a)
    ensures var v := Do(cpu, w, a); v.loops.Keys == {id} && Current(cpu, v, id)
  {
    AloneStaysUpToDate(cpu, w, a, id);
    if a.Begin? {
      SubMap(w.loops[id].todo, w.failed);
    }
  }

  /** How often the retries of a workload ended so. */
  function Endings(cpu: Cpu, w: World, acts: seq<Action>, name: string, ok: bool): nat
    requires Runs(cpu, w, acts)
    decreases |acts|
  {
    if acts == [] then 0
    else
      (if acts[0].Finish? && acts[0].ok == ok && w.loops[acts[0].id].name == name then 1 else 0)
      + Endings(cpu, Do(cpu, w, acts[0]), acts[1..], name, ok)
  }

  function End(cpu: Cpu, w: World, acts: seq<Action>): World
    requires Runs(cpu, w, acts)
    decreases |acts|
  {
    if acts == [] then w else End(cpu, Do(cpu, w, acts[0]), acts[1..])
  }

  /** The backoffs after the failures numbered `count`, `count` + 1, and so on. */
  function Backoffs(cpu: Cpu, count: nat, n: nat): int
    requires count >= 1
    decreases n
  {
    if n == 0 then 0 else Backoff(cpu, count) + Backoffs(cpu, count + 1, n - 1)
  }

  /** In every run of one loop: the record of a workload goes with its first good retry and does not
      come back; until then it counts every failed one, and these take at least the growing backoffs. */
  lemma {:induction false} RetriesAreCounted(cpu: Cpu, w: World, acts: seq<Action>, id: nat, name: string)
    requires w.loops.Keys == {id} && Current(cpu, w, id) && Runs(cpu, w, acts)
    requires name in w.failed && w.failed[name].count >= 1
    ensures var e, n, was := End(cpu, w, acts), Endings(cpu, w, acts, name, false), w.failed[name];
            && (name in e.failed <==> Endings(cpu, w, acts, name, true) == 0)
            && (name in e.failed ==>
                  && e.failed[name].count == was.count + n
                  && e.failed[name].lastAttempt >= was.lastAttempt + Backoffs(cpu, was.count, n))
    decreases |acts|
  {
    if acts != [] {
      var v := Do(cpu, w, acts[0]);
      AloneStaysCurrent(cpu, w, acts[0], id);
      if name in v.failed {
        RetriesAreCounted(cpu, v, acts[1..], id, name);
      } else {
        ForgottenStaysForgotten(cpu, v, acts[1..], id, name);
      }
    }
  }

  lemma {:induction false} ForgottenStaysForgotten(cpu: Cpu, w: World, acts: seq<Action>, id: nat, name: string)
    requires w.loops.Keys == {id} && Current(cpu, w, id) && Runs(cpu, w, acts) && name !in w.failed
    ensures name !in End(cpu, w, acts).failed
    decreases |acts|
  {
    if acts != [] {
      AloneStaysCurrent(cpu, w, acts[0], id);
      ForgottenStaysForgotten(cpu, Do(cpu, w, acts[0]), acts[1..], id, name);
    }
  }

  /** With any number of loops, a retry that ends rewrites or removes the record it set out with. */
  lemma RetryRewritesRecord(cpu: Cpu, w: World, id: nat, ok: bool)
    requires Enabled(cpu, w, Finish(id, ok))
    ensures var name, v := w.loops[id].name, Do(cpu, w, Finish(id, ok));
            && (ok ==> name !in v.failed)
            && (!ok ==> name in v.failed && v.failed[name] == Failure(w.loops[id].info.count + 1, w.now))
            && forall other :: other != name ==>
                 (other in v.failed <==> other in w.failed) && (other in v.failed ==> v.failed[other] == w.failed[other])
  {
  }

  lemma NoLoopIsSpaced(cpu: Cpu, w: World, acts: seq<Action>)
    requires w.loops == map[] && Runs(cpu, w, acts)
    ensures Spaced(cpu, w, acts)
    decreases |acts|
  {
    if acts != [] {
      NoLoopIsSpaced(cpu, Do(cpu, w, acts[0]), acts[1..]);
    }
  }

  ghost predicate AlwaysSpaced(cpu: Cpu, loops: set<nat>) {
    forall w, acts :: Initial(w) && w.loops.Keys == loops && Runs(cpu, w, acts) ==> Spaced(cpu, w, acts)
  }

  /** One more step of a run that ends in a retry out of turn. */
  lemma Unroll(cpu: Cpu, w: World, a: Action, rest: seq<Action>)
    requires Enabled(cpu, w, a) && Runs(cpu, Do(cpu, w, a), rest) && !Spaced(cpu, Do(cpu, w, a), rest)
    ensures Runs(cpu, w, [a] + rest) && !Spaced(cpu, w, [a] + rest)
  {
  }

  lemma OutOfTurn(cpu: Cpu, w: World, id: nat, name: string)
    requires Enabled(cpu, w, Begin(id, name))
    requires name in w.failed && !Ripe(cpu, w.failed[name], w.now)
    ensures Runs(cpu, w, [Begin(id, name)]) && !Spaced(cpu, w, [Begin(id, name)])
  {
  }

  lemma SecondComesAtOnce(cpu: Cpu, w: World, a: nat, b: nat)
    requires a in w.loops && b in w.loops && a != b && w.now == FIRST
    requires w.loops[a] == w.loops[b] == Sweeping(map["w" := Failure(1, 0)])
    ensures var acts := [Begin(a, "w")] + ([Finish(a, false)] + [Begin(b, "w")]);
            Runs(cpu, w, acts) && !Spaced(cpu, w, acts)
  {
    assert Backoff(cpu, 1) == FIRST && Backoff(cpu, 2) == 2 * FIRST;
    var w1 := Do(cpu, w, Begin(a, "w"));
    var w2 := Do(cpu, w1, Finish(a, false));
    assert w2.failed["w"] == Failure(2, FIRST);
    OutOfTurn(cpu, w2, b, "w");
    Unroll(cpu, w1, Finish(a, false), [Begin(b, "w")]);
    Unroll(cpu, w, Begin(a, "w"), [Finish(a, false)] + [Begin(b, "w")]);
  }

  /** Two loops copy the same record; the second one retries right after the first one failed. */
  lemma TwoLoopsRetryTwice(cpu: Cpu, loops: set<nat>, a: nat, b: nat)
    requires a in loops && b in loops && a != b
    ensures !AlwaysSpaced(cpu, loops)
  {
    var w0 := World(0, map["w" := Failure(1, 0)], map id | id in loops :: Idle);
    var w1 := Do(cpu, w0, Pass(FIRST));
    var w2 := Do(cpu, w1, Snapshot(a));
    var w3 := Do(cpu, w2, Snapshot(b));
    var tail := [Begin(a, "w")] + ([Finish(a, false)] + [Begin(b, "w")]);
    SecondComesAtOnce(cpu, w3, a, b);
    Unroll(cpu, w2, Snapshot(b), tail);
    Unroll(cpu, w1, Snapshot(a), [Snapshot(b)] + tail);
    Unroll(cpu, w0, Pass(FIRST), [Snapshot(a)] + ([Snapshot(b)] + tail));
    assert Initial(w0) && w0.loops.Keys == loops;
  }

  /** Every StartAll leaves one more loop running. Retries of a workload keep their distance in all
      runs exactly while there is at most one. */
  lemma SpacingExactly(cpu: Cpu, loops: set<nat>)
    ensures AlwaysSpaced(cpu, loops) <==> |loops| <= 1
  {
    if a, b :| a in loops && b in loops && a != b {
      TwoLoopsRetryTwice(cpu, loops, a, b);
      assert {a, b} <= loops;
      Contained({a, b}, loops);
    } else {
      forall w, acts | Initial(w) && w.loops.Keys == loops && Runs(cpu, w, acts) ensures Spaced(cpu, w, acts) {
        if id :| id in loops {
          assert loops == {id};
          AloneIsSpaced(cpu, w, acts, id);
        } else {
          assert w.loops == map[];
          NoLoopIsSpaced(cpu, w, acts);
        }
      }
      if id :| id in loops {
        assert loops == {id};
      }
    }
  }

  lemma Contained(small: set<nat>, large: set<nat>)
    requires small <= large
    ensures |small| <= |large|
  {
    assert large == small + (large - small);
  }
}
