/**
  When exclusivity fails, and the exact condition under which it does not.
 */
module Limits {
  import opened Leases
  import opened Wrappers
  import opened Controllers
  import opened Discipline
  import opened Election
  import opened Safety
  import opened Scenes

  // ---------------------------------------------------------------------------------------
  // Reads succeed, renewals do not
  // ---------------------------------------------------------------------------------------

  lemma OwnCheckNow(cfg: Config, w0: World, w: World, a: string, b: string) returns (w': World)
    requires Scene(cfg, w, a, b) && Reaches(cfg, w0, w) && w.nodes[a].ctl.phase.Checking?
    requires HeldBy(cfg.backend, w.store, Key(cfg, a), a, w.now)
    ensures Scene(cfg, w', a, b) && Reaches(cfg, w0, w')
    ensures w'.now == w.now && w'.nodes[b] == w.nodes[b] && w'.store == w.store
    ensures w'.nodes[a].ctl == Recover(w.nodes[a].ctl).(phase := Renewing)
    ensures w'.nodes[a].deadline == w'.now + cfg.call
  {
    assert a != "";
    w' := Call(cfg, w0, w, a, b, Answered);
  }

  /** A leader finds its own name in the lock, and goes on to renew. */
  lemma OwnCheck(cfg: Config, w0: World, w: World, a: string, b: string, wait: nat) returns (w': World)
    requires Scene(cfg, w, a, b) && Reaches(cfg, w0, w) && w.nodes[a].ctl.phase.Checking?
    requires w.now + wait <= w.nodes[a].deadline && !InTenure(w.nodes[b].ctl)
    requires HeldBy(cfg.backend, w.store, Key(cfg, a), a, w.now + wait)
    ensures Scene(cfg, w', a, b) && Reaches(cfg, w0, w')
    ensures w'.now == w.now + wait && w'.nodes[b] == w.nodes[b] && w'.store == w.store
    ensures w'.nodes[a].ctl == Recover(w.nodes[a].ctl).(phase := Renewing)
    ensures w'.nodes[a].deadline == w'.now + cfg.call
  {
    w' := Await(cfg, w0, w, a, b, wait);
    w' := OwnCheckNow(cfg, w0, w', a, b);
  }

  lemma WriteIsLost(cfg: Config, w0: World, w: World, a: string, b: string) returns (w': World)
    requires Scene(cfg, w, a, b) && Reaches(cfg, w0, w) && !cfg.wholeTick && !InTenure(w.nodes[b].ctl)
    requires var n := w.nodes[a]; n.ctl.phase.Renewing? && n.ctl.leader && n.ctl.failures == 0 && w.now <= n.deadline
    ensures Scene(cfg, w', a, b) && Reaches(cfg, w0, w')
    ensures w'.now == w.now && w'.nodes[b] == w.nodes[b] && w'.store == w.store
    ensures var c := w'.nodes[a].ctl;
            c.phase.Idle? && c.leader && c.failures == 1 && w'.nodes[a].deadline == w'.now + RENEW_INTERVAL
  {
    w' := Call(cfg, w0, w, a, b, Broken(true, false));
  }

  /** One round of a leader whose reads are answered and whose renewals are lost: the count of
      failures starts again with every read, and the lock is never extended. */
  lemma FutileLap(cfg: Config, w0: World, w: World, a: string, b: string) returns (w': World)
    requires Scene(cfg, w, a, b) && Reaches(cfg, w0, w) && !cfg.wholeTick
    requires var c := w.nodes[a].ctl; c.phase.Idle? && c.leader && w.nodes[a].deadline == w.now + RENEW_INTERVAL
    requires !InTenure(w.nodes[b].ctl)
    requires HeldBy(cfg.backend, w.store, Key(cfg, a), a, w.now + RENEW_INTERVAL)
    ensures Scene(cfg, w', a, b) && Reaches(cfg, w0, w')
    ensures w'.now == w.now + RENEW_INTERVAL && w'.nodes[b] == w.nodes[b] && w'.store == w.store
    ensures var c := w'.nodes[a].ctl;
            c.phase.Idle? && c.leader && c.failures == 1 && w'.nodes[a].deadline == w'.now + RENEW_INTERVAL
  {
    w' := Awake(cfg, w0, w, a, b, RENEW_INTERVAL);
    w' := OwnCheck(cfg, w0, w', a, b, 0);
    w' := WriteIsLost(cfg, w0, w', a, b);
  }

  lemma {:induction false} FutileLaps(cfg: Config, w0: World, w: World, a: string, b: string, n: nat) returns (w': World)
    requires Scene(cfg, w, a, b) && Reaches(cfg, w0, w) && !cfg.wholeTick
    requires var c := w.nodes[a].ctl; c.phase.Idle? && c.leader && w.nodes[a].deadline == w.now + RENEW_INTERVAL
    requires !InTenure(w.nodes[b].ctl)
    requires HeldBy(cfg.backend, w.store, Key(cfg, a), a, w.now + n * RENEW_INTERVAL)
    ensures Scene(cfg, w', a, b) && Reaches(cfg, w0, w')
    ensures w'.now == w.now + n * RENEW_INTERVAL && w'.nodes[b] == w.nodes[b] && w'.store == w.store
    ensures var c := w'.nodes[a].ctl; c.phase.Idle? && c.leader && w'.nodes[a].deadline == w'.now + RENEW_INTERVAL
    decreases n
  {
    w' := w;
    if n > 0 {
      w' := FutileLap(cfg, w0, w, a, b);
      w' := FutileLaps(cfg, w0, w', a, b, n - 1);
    }
  }

  /** The first leader, at rest. */
  lemma FirstLeads(cfg: Config, a: string, b: string) returns (w: World)
    requires Rivals(cfg, b, a)
    ensures Scene(cfg, w, b, a) && Reaches(cfg, Birth(cfg), w) && w.now == 0
    ensures w.nodes[b].ctl.phase.Idle? && w.nodes[b].ctl.leader && w.nodes[b].deadline == RENEW_INTERVAL
    ensures w.store == map[Key(cfg, b) := Fresh(cfg.backend, 0, b, LOCK_TTL)] && w.nodes[a].ctl == Newborn
    ensures w.nodes[b].ctl.gauge == Gauge(Normal, true, Normal) && w.nodes[b].ctl.past == Past("", b, None, false)
  {
    var w0 := Birth(cfg);
    BirthScene(cfg, b, a);
    w := Takes(cfg, w0, w0, b, a);
    w := Turn(cfg, w0, w, b, a, 0, Answered);
  }

  /** A leader whose lock lapsed unrenewed. */
  lemma FutileTenure(cfg: Config, a: string, b: string) returns (w: World)
    requires Rivals(cfg, a, b) && !cfg.wholeTick
    ensures Scene(cfg, w, a, b) && Reaches(cfg, Birth(cfg), w)
    ensures Leading(w.nodes[a].ctl) && w.now <= w.nodes[a].deadline && !Live(cfg.backend, w.store, Key(cfg, a), w.now)
    ensures w.nodes[b].ctl == Newborn
  {
    var w0 := Birth(cfg);
    w := FirstLeads(cfg, b, a);
    w := FutileLaps(cfg, w0, w, a, b, if cfg.backend.Memory? then 20 else 19);
    w := Await(cfg, w0, w, a, b, LOCK_TTL + 1 - Margin(cfg.backend) - w.now);
  }

  /** However short the calls: a storage that answers reads and loses renewals gives one lock two
      leaders. */
  lemma PartialOutageBreaksExclusivity(cfg: Config, a: string, b: string) returns (w: World)
    requires Rivals(cfg, a, b) && !cfg.wholeTick
    ensures Reaches(cfg, Birth(cfg), w) && Valid(cfg, w) && !Exclusive(cfg, w)
  {
    w := FutileTenure(cfg, a, b);
    SceneSwap(cfg, w, a, b);
    w := Takes(cfg, Birth(cfg), w, b, a);
  }

  // ---------------------------------------------------------------------------------------
  // The budget is exact
  // ---------------------------------------------------------------------------------------

  /** Three of the four reads fail, as slowly as `call` allows or faster. */
  lemma ThreeFailures(cfg: Config, w0: World, w: World, a: string, b: string, call: nat) returns (w': World)
    requires Scene(cfg, w, a, b) && Reaches(cfg, w0, w) && call <= cfg.call
    requires var n := w.nodes[a]; n.ctl.phase.Reading? && n.ctl.phase.attempt == 0 && n.deadline == w.now + cfg.call
    requires !InTenure(w.nodes[b].ctl)
    ensures Scene(cfg, w', a, b) && Reaches(cfg, w0, w')
    ensures w'.now == w.now + 3 * call + 2 * RETRY_SLEEP && w'.nodes[b] == w.nodes[b] && w'.store == w.store
    ensures w'.nodes[a].ctl == w.nodes[a].ctl.(phase := Reading(w.nodes[a].ctl.phase.site, 3))
    ensures w'.nodes[a].deadline == w'.now + RETRY_SLEEP + cfg.call
  {
    var lost := Broken(true, false);
    w' := Turn(cfg, w0, w, a, b, call, lost);
    w' := Turn(cfg, w0, w', a, b, RETRY_SLEEP + call, lost);
    w' := Turn(cfg, w0, w', a, b, RETRY_SLEEP + call, lost);
  }

  ghost predicate Resting(cfg: Config, w: World, a: string, failures: nat)
    requires Valid(cfg, w) && a in w.nodes
  {
    var c := w.nodes[a].ctl;
    && c.phase.Idle? && c.leader && c.failures == failures
    && w.nodes[a].deadline == w.now + RENEW_INTERVAL
  }

  /** A renewal whose read is lost, for the first or the second time. */
  lemma LostTick(cfg: Config, w0: World, w: World, a: string, b: string, call: nat, failures: nat) returns (w': World)
    requires Scene(cfg, w, a, b) && Reaches(cfg, w0, w) && call <= cfg.call
    requires Resting(cfg, w, a, failures) && failures < 2 && !InTenure(w.nodes[b].ctl)
    ensures Scene(cfg, w', a, b) && Reaches(cfg, w0, w') && Resting(cfg, w', a, failures + 1)
    ensures w'.now == w.now + RENEW_INTERVAL + call && w'.nodes[b] == w.nodes[b] && w'.store == w.store
  {
    w' := Awake(cfg, w0, w, a, b, RENEW_INTERVAL);
    w' := Turn(cfg, w0, w', a, b, call, Broken(true, false));
  }

  lemma WriteIsRefused(cfg: Config, w0: World, w: World, a: string, b: string, call: nat) returns (w': World)
    requires Scene(cfg, w, a, b) && Reaches(cfg, w0, w) && call <= cfg.call
    requires w.nodes[a].ctl.phase.Renewing? && w.nodes[a].ctl.leader && w.nodes[a].deadline == w.now + cfg.call
    requires !InTenure(w.nodes[b].ctl)
    ensures Scene(cfg, w', a, b) && Reaches(cfg, w0, w')
    ensures var n := w'.nodes[a];
            n.ctl.phase == Reading(AfterLoss, 0) && n.ctl.leader && n.deadline == w'.now + cfg.call
    ensures w'.now == w.now + call && w'.nodes[b] == w.nodes[b] && w'.store == w.store
  {
    w' := Turn(cfg, w0, w, a, b, call, Broken(false, false));
  }

  lemma IsRefused(cfg: Config, w0: World, w: World, a: string, b: string, call: nat) returns (w': World)
    requires Scene(cfg, w, a, b) && Reaches(cfg, w0, w) && call <= cfg.call
    requires w.nodes[a].ctl.phase.Checking? && w.nodes[a].ctl.leader && w.nodes[a].deadline == w.now + cfg.call
    requires !InTenure(w.nodes[b].ctl) && HeldBy(cfg.backend, w.store, Key(cfg, a), a, w.now + call)
    ensures Scene(cfg, w', a, b) && Reaches(cfg, w0, w')
    ensures var n := w'.nodes[a];
            n.ctl.phase == Reading(AfterLoss, 0) && n.ctl.leader && n.deadline == w'.now + cfg.call
    ensures w'.now == w.now + 2 * call && w'.nodes[b] == w.nodes[b] && w'.store == w.store
  {
    w' := OwnCheck(cfg, w0, w, a, b, call);
    w' := WriteIsRefused(cfg, w0, w', a, b, call);
  }

  /** A renewal whose read is answered and whose write is refused: the leader starts to step down. */
  lemma RefusedTick(cfg: Config, w0: World, w: World, a: string, b: string, call: nat) returns (w': World)
    requires Scene(cfg, w, a, b) && Reaches(cfg, w0, w) && call <= cfg.call
    requires Resting(cfg, w, a, 2) && !InTenure(w.nodes[b].ctl)
    requires HeldBy(cfg.backend, w.store, Key(cfg, a), a, w.now + RENEW_INTERVAL + call)
    ensures Scene(cfg, w', a, b) && Reaches(cfg, w0, w')
    ensures var n := w'.nodes[a];
            n.ctl.phase == Reading(AfterLoss, 0) && n.ctl.leader && n.deadline == w'.now + cfg.call
    ensures w'.now == w.now + RENEW_INTERVAL + 2 * call && w'.nodes[b] == w.nodes[b] && w'.store == w.store
  {
    w' := Awake(cfg, w0, w, a, b, RENEW_INTERVAL);
    w' := IsRefused(cfg, w0, w', a, b, call);
  }

  /** Four failed reads, and the flag is set. */
  lemma SlowVerification(cfg: Config, w0: World, w: World, a: string, b: string, call: nat) returns (w': World)
    requires Scene(cfg, w, a, b) && Reaches(cfg, w0, w) && call <= cfg.call
    requires var n := w.nodes[a];
             n.ctl.phase == Reading(AfterAcquire, 0) && !n.ctl.leader && n.ctl.past.selfRestart && n.deadline == w.now + cfg.call
    requires !InTenure(w.nodes[b].ctl)
    ensures Scene(cfg, w', a, b) && Reaches(cfg, w0, w')
    ensures var n := w'.nodes[a];
            n.ctl.phase.Reusing? && n.ctl.leader && n.ctl.failures == 0 && n.deadline == w'.now + cfg.reuse
    ensures w'.now == w.now + 4 * call + 3 * RETRY_SLEEP && w'.nodes[b] == w.nodes[b] && w'.store == w.store
  {
    w' := ThreeFailures(cfg, w0, w, a, b, call);
    w' := Wins(cfg, w0, w', a, b, RETRY_SLEEP + call, Broken(true, false));
  }

  /** The workloads are looked at, and cannot be kept. */
  lemma LooksInVain(cfg: Config, w0: World, w: World, a: string, b: string, reuse: nat) returns (w': World)
    requires Scene(cfg, w, a, b) && Reaches(cfg, w0, w) && reuse <= cfg.reuse && !InTenure(w.nodes[b].ctl)
    requires var n := w.nodes[a];
             n.ctl.phase.Reusing? && n.ctl.leader && n.ctl.failures == 0 && n.deadline == w.now + cfg.reuse
    ensures Scene(cfg, w', a, b) && Reaches(cfg, w0, w')
    ensures var n := w'.nodes[a];
            n.ctl.phase.Waiting? && n.ctl.leader && n.ctl.failures == 0 && n.deadline == w'.now + MAX_WORKLOAD_WAIT
    ensures w'.now == w.now + reuse && w'.nodes[b] == w.nodes[b] && w'.store == w.store
  {
    w' := Turn(cfg, w0, w, a, b, reuse, Broken(false, false));
  }

  /** The whole wait, and a slow start. */
  lemma SlowStart(cfg: Config, w0: World, w: World, a: string, b: string, start: nat) returns (w': World)
    requires Scene(cfg, w, a, b) && Reaches(cfg, w0, w) && start <= cfg.start && !InTenure(w.nodes[b].ctl)
    requires var n := w.nodes[a];
             n.ctl.phase.Waiting? && n.ctl.leader && n.ctl.failures == 0 && n.deadline == w.now + MAX_WORKLOAD_WAIT
    ensures Scene(cfg, w', a, b) && Reaches(cfg, w0, w') && Resting(cfg, w', a, 0)
    ensures w'.now == w.now + MAX_WORKLOAD_WAIT + start && w'.nodes[b] == w.nodes[b] && w'.store == w.store
  {
    w' := Turn(cfg, w0, w, a, b, MAX_WORKLOAD_WAIT, Answered);
    w' := Turn(cfg, w0, w', a, b, start, Answered);
  }

  /** The slow hand-over: four failed reads, a look in vain, the whole wait, a slow start. */
  lemma SlowHandover(cfg: Config, w0: World, w: World, a: string, b: string, slow: Slowness) returns (w': World)
    requires Scene(cfg, w, a, b) && Reaches(cfg, w0, w) && Within(cfg, slow)
    requires var n := w.nodes[a];
             n.ctl.phase == Reading(AfterAcquire, 0) && !n.ctl.leader && n.ctl.past.selfRestart && n.deadline == w.now + cfg.call
    requires !InTenure(w.nodes[b].ctl)
    ensures Scene(cfg, w', a, b) && Reaches(cfg, w0, w') && Resting(cfg, w', a, 0)
    ensures w'.now == w.now + 4 * slow.call + 3 * RETRY_SLEEP + slow.reuse + MAX_WORKLOAD_WAIT + slow.start
    ensures w'.nodes[b] == w.nodes[b] && w'.store == w.store
  {
    w' := SlowVerification(cfg, w0, w, a, b, slow.call);
    w' := LooksInVain(cfg, w0, w', a, b, slow.reuse);
    w' := SlowStart(cfg, w0, w', a, b, slow.start);
  }

  /** How long things take in a particular run. */
  datatype Slowness = Slowness(call: nat, reuse: nat, start: nat)

  predicate Within(cfg: Config, slow: Slowness) {
    slow.call <= cfg.call && slow.reuse <= cfg.reuse && slow.start <= cfg.start
  }

  lemma TwoLostTicks(cfg: Config, w0: World, w: World, a: string, b: string, call: nat) returns (w': World)
    requires Scene(cfg, w, a, b) && Reaches(cfg, w0, w) && call <= cfg.call
    requires Resting(cfg, w, a, 0) && !InTenure(w.nodes[b].ctl)
    ensures Scene(cfg, w', a, b) && Reaches(cfg, w0, w') && Resting(cfg, w', a, 2)
    ensures w'.now == w.now + 2 * (RENEW_INTERVAL + call) && w'.nodes[b] == w.nodes[b] && w'.store == w.store
  {
    w' := LostTick(cfg, w0, w, a, b, call, 0);
    w' := LostTick(cfg, w0, w', a, b, call, 1);
  }

  /** The slowest tenure that was never renewed. */
  lemma SlowTenure(cfg: Config, w0: World, w: World, a: string, b: string, slow: Slowness) returns (w': World)
    requires Scene(cfg, w, a, b) && Reaches(cfg, w0, w) && Within(cfg, slow)
    requires var n := w.nodes[a];
             n.ctl.phase == Reading(AfterAcquire, 0) && !n.ctl.leader && n.ctl.past.selfRestart && n.deadline == w.now + cfg.call
    requires !InTenure(w.nodes[b].ctl)
    requires 13 * slow.call + slow.reuse + slow.start <= 19_013
    requires HeldBy(cfg.backend, w.store, Key(cfg, a), a, w.now + 97_013)
    ensures Scene(cfg, w', a, b) && Reaches(cfg, w0, w') && Leading(w'.nodes[a].ctl)
    ensures w'.now == w.now + 80_000 + 11 * slow.call + slow.reuse + slow.start
    ensures w'.nodes[a].deadline == w'.now + RETRY_SLEEP + cfg.call
    ensures w'.nodes[b] == w.nodes[b] && w'.store == w.store
  {
    w' := SlowHandover(cfg, w0, w, a, b, slow);
    w' := TwoLostTicks(cfg, w0, w', a, b, slow.call);
    w' := RefusedTick(cfg, w0, w', a, b, slow.call);
    w' := ThreeFailures(cfg, w0, w', a, b, slow.call);
  }

  /** A leader gave its lock back, and nobody came: its next tenure is a restart of its own. */
  lemma GaveBack(cfg: Config, a: string, b: string) returns (w: World)
    requires Rivals(cfg, a, b)
    ensures Scene(cfg, w, a, b) && Reaches(cfg, Birth(cfg), w) && w.now == 0
    ensures w.nodes[b].ctl == Newborn && Key(cfg, a) !in w.store
    ensures var c := w.nodes[a].ctl; c.phase.Idle? && !c.leader && c.past == Past("", a, Some(0), false)
  {
    w := FirstLeads(cfg, b, a);
    w := GivesBack(cfg, Birth(cfg), w, a, b);
  }

  /** A leader's cluster falls sick; it begins to give the lock back. */
  lemma FallsSick(cfg: Config, w0: World, w: World, a: string, b: string) returns (w': World)
    requires Scene(cfg, w, a, b) && Reaches(cfg, w0, w)
    requires w.nodes[a].ctl.phase.Idle? && w.nodes[a].ctl.leader
    ensures Scene(cfg, w', a, b) && Reaches(cfg, w0, w')
    ensures w'.now == w.now && w'.nodes[b] == w.nodes[b] && w'.store == w.store
    ensures w'.nodes[a].ctl == BeginRelease(w.nodes[a].ctl, false)
  {
    ReachStep(cfg, w0, w, Sicken(a));
    w' := Do(cfg, w, Sicken(a));
    ReachStep(cfg, w0, w', Yield(a));
    w' := Do(cfg, w', Yield(a));
  }

  lemma GivesBack(cfg: Config, w0: World, w: World, a: string, b: string) returns (w': World)
    requires Scene(cfg, w, a, b) && Reaches(cfg, w0, w)
    requires w.nodes[a].ctl.phase.Idle? && w.nodes[a].ctl.leader
    requires HeldBy(cfg.backend, w.store, Key(cfg, a), a, w.now)
    ensures Scene(cfg, w', a, b) && Reaches(cfg, w0, w')
    ensures w'.now == w.now && w'.nodes[b] == w.nodes[b] && w'.store == w.store - {Key(cfg, a)}
    ensures var c := w'.nodes[a].ctl;
            c.phase.Idle? && !c.leader && c.past == w.nodes[a].ctl.past.(lastRelease := Some(w.now))
  {
    w' := LetsGo(cfg, w0, w, a, b);
    w' := ChecksGone(cfg, w0, w', a, b);
    w' := ComesToRest(cfg, w0, w', a, b);
  }

  /** The record has been read for the log; the release comes next. */
  lemma BeginsToRelease(cfg: Config, w0: World, w: World, a: string, b: string) returns (w': World)
    requires Scene(cfg, w, a, b) && Reaches(cfg, w0, w)
    requires w.nodes[a].ctl.phase.Idle? && w.nodes[a].ctl.leader
    ensures Scene(cfg, w', a, b) && Reaches(cfg, w0, w')
    ensures w'.now == w.now && w'.nodes[b] == w.nodes[b] && w'.store == w.store
    ensures w'.nodes[a].ctl == BeginRelease(w.nodes[a].ctl, false).(phase := ReleaseCall)
  {
    w' := FallsSick(cfg, w0, w, a, b);
    w' := Call(cfg, w0, w', a, b, Answered);
  }

  /** A sick leader has released the lock, and is still marked as the leader. */
  lemma LetsGo(cfg: Config, w0: World, w: World, a: string, b: string) returns (w': World)
    requires Scene(cfg, w, a, b) && Reaches(cfg, w0, w)
    requires w.nodes[a].ctl.phase.Idle? && w.nodes[a].ctl.leader
    requires HeldBy(cfg.backend, w.store, Key(cfg, a), a, w.now)
    ensures Scene(cfg, w', a, b) && Reaches(cfg, w0, w')
    ensures w'.now == w.now && w'.nodes[b] == w.nodes[b] && w'.store == w.store - {Key(cfg, a)}
    ensures w'.nodes[a].ctl == w.nodes[a].ctl.(phase := ReleaseCheck, halting := false)
  {
    w' := BeginsToRelease(cfg, w0, w, a, b);
    w' := Releases(cfg, w0, w', a, b);
  }

  /** The lock is read once more. */
  lemma ChecksGone(cfg: Config, w0: World, w: World, a: string, b: string) returns (w': World)
    requires Scene(cfg, w, a, b) && Reaches(cfg, w0, w) && w.nodes[a].ctl.phase.ReleaseCheck?
    ensures Scene(cfg, w', a, b) && Reaches(cfg, w0, w')
    ensures w'.now == w.now && w'.nodes[b] == w.nodes[b] && w'.store == w.store
    ensures var c := w'.nodes[a].ctl;
            && c.phase == Stopping(false) && !c.leader && c.halting == w.nodes[a].ctl.halting
            && c.past == w.nodes[a].ctl.past.(lastRelease := Some(w.now))
  {
    w' := Call(cfg, w0, w, a, b, Answered);
  }

  /** The workloads have stopped. */
  lemma ComesToRest(cfg: Config, w0: World, w: World, a: string, b: string) returns (w': World)
    requires Scene(cfg, w, a, b) && Reaches(cfg, w0, w)
    requires w.nodes[a].ctl.phase == Stopping(false) && !w.nodes[a].ctl.halting
    ensures Scene(cfg, w', a, b) && Reaches(cfg, w0, w')
    ensures w'.now == w.now && w'.nodes[b] == w.nodes[b] && w'.store == w.store
    ensures w'.nodes[a].ctl == w.nodes[a].ctl.(phase := Idle)
  {
    w' := Call(cfg, w0, w, a, b, Answered);
  }

  lemma Releases(cfg: Config, w0: World, w: World, a: string, b: string) returns (w': World)
    requires Scene(cfg, w, a, b) && Reaches(cfg, w0, w) && w.nodes[a].ctl.phase.ReleaseCall?
    requires HeldBy(cfg.backend, w.store, Key(cfg, a), a, w.now)
    ensures Scene(cfg, w', a, b) && Reaches(cfg, w0, w')
    ensures w'.now == w.now && w'.nodes[b] == w.nodes[b] && w'.store == w.store - {Key(cfg, a)}
    ensures w'.nodes[a].ctl == w.nodes[a].ctl.(phase := ReleaseCheck)
  {
    w' := Call(cfg, w0, w, a, b, Answered);
  }

  /** The lock is handed over before the flag is cleared: during a release, another controller may
      already lead while `isLeader` is still set. Exclusivity is about leaders that are not
      releasing. */
  lemma ReleaseWindowHasTwoFlags(cfg: Config, a: string, b: string) returns (w: World)
    requires Rivals(cfg, a, b)
    ensures Reaches(cfg, Birth(cfg), w) && Scene(cfg, w, b, a)
    ensures w.nodes[a].ctl.leader && w.nodes[b].ctl.leader && w.nodes[a].ctl.phase == ReleaseCheck
  {
    var w0 := Birth(cfg);
    BirthScene(cfg, a, b);
    w := Takes(cfg, w0, w0, a, b);
    w := Call(cfg, w0, w, a, b, Answered);
    w := LetsGo(cfg, w0, w, a, b);
    SceneSwap(cfg, w, a, b);
    w := Takes(cfg, w0, w, b, a);
  }

  function Least(a: nat, b: nat): nat {
    if a <= b then a else b
  }

  /** A budget exceeded by as little as possible. */
  function TightBudget(cfg: Config): Slowness {
    var limit := 19_001 - Margin(cfg.backend);
    var start := Least(limit, cfg.start);
    var reuse := Least(limit - start, cfg.reuse);
    Slowness((limit - start - reuse + 12) / 13, reuse, start)
  }

  lemma TightBudgetFits(cfg: Config)
    requires !BudgetCloses(cfg)
    ensures var slow := TightBudget(cfg);
            Within(cfg, slow) && 19_001 - Margin(cfg.backend) <= 13 * slow.call + slow.reuse + slow.start <= 19_013
  {
  }

  /** The slowest tenure of all: its leader still leads when the lock has lapsed. */
  lemma LapsedLeader(cfg: Config, a: string, b: string) returns (w: World)
    requires Rivals(cfg, a, b) && !BudgetCloses(cfg)
    ensures Scene(cfg, w, a, b) && Reaches(cfg, Birth(cfg), w)
    ensures Leading(w.nodes[a].ctl) && w.now <= w.nodes[a].deadline && !Live(cfg.backend, w.store, Key(cfg, a), w.now)
    ensures w.nodes[b].ctl.phase.Idle? && !w.nodes[b].ctl.leader
  {
    var w0 := Birth(cfg);
    TightBudgetFits(cfg);
    w := GaveBack(cfg, a, b);
    w := Asks(cfg, w0, w, a, b);
    w := GrantedLate(cfg, w0, w, a, b, TightBudget(cfg).call);
    w := SlowTenure(cfg, w0, w, a, b, TightBudget(cfg));
    var lapse := LOCK_TTL + 1 - Margin(cfg.backend);
    if w.now < lapse {
      w := Await(cfg, w0, w, a, b, lapse - w.now);
    }
  }

  /** As soon as the budget is exceeded by a millisecond, one lock can get two leaders. */
  lemma ExceededBudgetBreaksExclusivity(cfg: Config, a: string, b: string) returns (w: World)
    requires Rivals(cfg, a, b) && !BudgetCloses(cfg)
    ensures Reaches(cfg, Birth(cfg), w) && Valid(cfg, w) && !Exclusive(cfg, w)
  {
    w := LapsedLeader(cfg, a, b);
    SceneSwap(cfg, w, a, b);
    w := Takes(cfg, Birth(cfg), w, b, a);
  }

  /** No run has two leaders for one lock. */
  ghost predicate AlwaysExclusive(cfg: Config) {
    forall w, acts :: Start(cfg, w) && Runs(cfg, w, acts) ==> Exclusive(cfg, End(cfg, w, acts))
  }

  lemma OneRunRefutes(cfg: Config, w: World)
    requires Start(cfg, Birth(cfg)) && Reaches(cfg, Birth(cfg), w) && Valid(cfg, w) && !Exclusive(cfg, w)
    ensures !AlwaysExclusive(cfg)
  {
    var acts :| Runs(cfg, Birth(cfg), acts) && End(cfg, Birth(cfg), acts) == w;
    assert !Exclusive(cfg, End(cfg, Birth(cfg), acts));
  }

  lemma BudgetSuffices(cfg: Config)
    requires cfg.wholeTick && BudgetCloses(cfg)
    ensures AlwaysExclusive(cfg)
  {
    forall w, acts | Start(cfg, w) && Runs(cfg, w, acts) ensures Exclusive(cfg, End(cfg, w, acts)) {
      StartIsOrderly(cfg, w);
      RunsAreCovered(cfg, w, acts);
    }
  }

  /** Exclusivity holds in all runs exactly if the lease budget closes and no renewal loses its
      write after a successful read. */
  lemma ExclusivityExactly(cfg: Config, a: string, b: string)
    requires Rivals(cfg, a, b)
    ensures AlwaysExclusive(cfg)
            <==> cfg.wholeTick && 13 * cfg.call + cfg.reuse + cfg.start <= (if cfg.backend.Memory? then 19_000 else 18_999)
  {
    if cfg.wholeTick && BudgetCloses(cfg) {
      BudgetSuffices(cfg);
    } else {
      BirthScene(cfg, a, b);
      var bad;
      if !cfg.wholeTick {
        bad := PartialOutageBreaksExclusivity(cfg, a, b);
      } else {
        bad := ExceededBudgetBreaksExclusivity(cfg, a, b);
      }
      OneRunRefutes(cfg, bad);
    }
  }

  // ---------------------------------------------------------------------------------------
  // Two flags
  // ---------------------------------------------------------------------------------------

  /** Nobody gives the lock back: no cluster falls sick, and no controller is stopped. */
  predicate NoReleases(acts: seq<Action>) {
    forall a :: a in acts ==> !a.Yield? && !a.Stop?
  }

  predicate NobodyReleasing(w: World) {
    forall id :: id in w.nodes ==> !Releasing(w.nodes[id].ctl.phase)
  }

  lemma NoReplyStartsARelease(who: Who, c: Ctl, now: int, a: Answer)
    requires !Releasing(c.phase)
    ensures !Releasing(Resume(who, c, now, a).phase)
  {
    if c.phase.Reading? {
      NoReadStartsARelease(who, c, now, a);
    }
  }

  lemma NoReadStartsARelease(who: Who, c: Ctl, now: int, a: Answer)
    requires c.phase.Reading?
    ensures !Releasing(Resume(who, c, now, a).phase)
  {
  }

  lemma NobodyStartsReleasing(cfg: Config, w: World, a: Action, id: string)
    requires Valid(cfg, w) && Enabled(cfg, w, a) && NobodyReleasing(w) && !a.Yield? && !a.Stop? && id in w.nodes
    ensures !Releasing(Do(cfg, w, a).nodes[id].ctl.phase)
  {
    if !Acts(a, id) {
      BystanderUnmoved(cfg, w, a, id);
    } else if a.Hear? {
      NoReplyStartsARelease(WhoIs(cfg, id), w.nodes[id].ctl, w.now, w.nodes[id].reply.value);
    }
  }

  lemma {:induction false} RunsWithoutReleases(cfg: Config, w: World, acts: seq<Action>)
    requires Valid(cfg, w) && Runs(cfg, w, acts) && NoReleases(acts) && NobodyReleasing(w)
    ensures NobodyReleasing(End(cfg, w, acts))
    decreases |acts|
  {
    if acts != [] {
      var w' := Do(cfg, w, acts[0]);
      assert acts[0] in acts;
      forall id | id in w'.nodes ensures !Releasing(w'.nodes[id].ctl.phase) {
        NobodyStartsReleasing(cfg, w, acts[0], id);
      }
      RunsWithoutReleases(cfg, w', acts[1..]);
    }
  }

  /** At most one controller has `isLeader` set, releasing or not. */
  predicate OneFlag(cfg: Config, w: World)
    requires Valid(cfg, w)
  {
    forall a, b :: a in w.nodes && b in w.nodes && a != b && w.nodes[a].ctl.leader && w.nodes[b].ctl.leader
                   ==> Key(cfg, a) != Key(cfg, b)
  }

  ghost predicate AlwaysOneFlag(cfg: Config, releases: bool) {
    forall w, acts :: Start(cfg, w) && Runs(cfg, w, acts) && (releases || NoReleases(acts)) ==> OneFlag(cfg, End(cfg, w, acts))
  }

  lemma OneFlagWithoutReleases(cfg: Config)
    requires AlwaysExclusive(cfg)
    ensures AlwaysOneFlag(cfg, false)
  {
    forall w, acts | Start(cfg, w) && Runs(cfg, w, acts) && NoReleases(acts) ensures OneFlag(cfg, End(cfg, w, acts)) {
      RunsWithoutReleases(cfg, w, acts);
      assert Exclusive(cfg, End(cfg, w, acts));
    }
  }

  lemma ReleasesBreakOneFlag(cfg: Config, a: string, b: string)
    requires Rivals(cfg, a, b)
    ensures !AlwaysOneFlag(cfg, true)
  {
    var w := ReleaseWindowHasTwoFlags(cfg, a, b);
    BirthScene(cfg, a, b);
    var acts :| Runs(cfg, Birth(cfg), acts) && End(cfg, Birth(cfg), acts) == w;
    assert !OneFlag(cfg, End(cfg, Birth(cfg), acts));
  }

  /** Where at most one controller leads, at most one is marked as the leader in all runs exactly if
      nobody ever gives the lock back. */
  lemma OneFlagExactly(cfg: Config, releases: bool, a: string, b: string)
    requires Rivals(cfg, a, b) && AlwaysExclusive(cfg)
    ensures AlwaysOneFlag(cfg, releases) <==> !releases
  {
    if releases {
      ReleasesBreakOneFlag(cfg, a, b);
    } else {
      OneFlagWithoutReleases(cfg);
    }
  }
}
