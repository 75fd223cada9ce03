/**
  One leader controller of pkg/leader/leader.go, twice.

  `Resume` is the controller as an automaton: a phase per point of the code that waits for
  somebody else (a storage call, the hand-over wait, starting or stopping workloads), and one
  step per reply. Other controllers may act between any two steps. `LeaderController` is the
  code itself; each tick is proved to be exactly a run of the automaton.
 */
module Controllers {
  import opened Leases
  import opened Wrappers

  const RENEW_INTERVAL := 5_000
  const LOCK_TTL := 100_000
  const MAX_CONSECUTIVE_DB_FAILURES := 3
  const MAX_WORKLOAD_WAIT := 60_000
  const RETRY_SLEEP := 1_000
  const SELF_RESTART_WINDOW := 300_000

  datatype ControllerState = Normal | Degraded

  /** What a storage call comes back with. `isConnectionError` is the boolean of a failure. */
  datatype Answer = Got(reply: Reply) | Failed(conn: bool)

  /** The holder named by a read, "" when there is none. */
  function Holder(a: Answer): string {
    if a.Got? && a.reply.Record? && a.reply.found.Some? then a.reply.found.value.value else ""
  }

  /** The empty string, which the source uses for "no leader". */
  predicate Blank(id: string) {
    |id| == 0
  }

  predicate Yes(a: Answer) {
    a.Got? && a.reply == Flag(true)
  }

  /** The four places that call getCurrentLeader. */
  datatype Site = BeforeTick | BeforeAcquire | AfterAcquire | AfterLoss

  datatype Phase =
    | Idle
    | Reading(site: Site, attempt: nat)
    | Acquiring
    | Reusing              // waitForPreviousWorkloads after a self restart: canReuseExistingWorkloads
    | Waiting              // and its timed wait
    | Starting             // startWorkloads
    | Checking             // RenewLeadership reads the lock
    | Renewing
    | Measuring(renewed: bool)  // RenewLeadership reads the remaining lifetime for a metric
    | Stopping(report: bool)    // stopWorkloads; `report` clears the monitor's flag afterwards
    | ReleaseInfo | ReleaseCall | ReleaseCheck  // releaseLeadership
    | Halted

  /** What the controller and its monitoring server say about the controller's health. */
  datatype Gauge = Gauge(state: ControllerState, monLeader: bool, monState: ControllerState)

  /** What the controller remembers of earlier tenures. */
  datatype Past = Past(previousLeader: string, previousSelf: string, lastRelease: Option<int>, selfRestart: bool)

  datatype Ctl = Ctl(
    phase: Phase,
    leader: bool,
    failures: nat,
    gauge: Gauge,
    past: Past,
    started: bool,   // StartAll was called after the last StopAll
    halting: bool)   // the stop channel is closed

  datatype Who = Who(id: string, remainFollower: bool)

  const Newborn := Ctl(Idle, false, 0, Gauge(Normal, false, Normal), Past("", "", None, false), false, false)

  // ---------------------------------------------------------------------------------------
  // The automaton
  // ---------------------------------------------------------------------------------------

  function SetState(g: Gauge, state: ControllerState): Gauge {
    if g.state != state then Gauge(state, g.monLeader, state) else g
  }

  function Report(c: Ctl, leader: bool): Ctl {
    c.(gauge := c.gauge.(monLeader := leader))
  }

  function NoteFailure(c: Ctl): Ctl {
    c.(failures := c.failures + 1, gauge := SetState(c.gauge, Degraded))
  }

  function Recover(c: Ctl): Ctl {
    c.(failures := 0, gauge := SetState(c.gauge, Normal))
  }

  /** SetLeader(false), then stopWorkloads. */
  function StepDown(c: Ctl, report: bool): Ctl {
    c.(leader := false, started := false, phase := Stopping(report))
  }

  /** TryAcquireLeadership returns false: to the renewal that called it, or to the loop. */
  function Refused(c: Ctl): Ctl {
    c.(phase := if c.leader then Reading(AfterLoss, 0) else Idle)
  }

  predicate MustWait(p: Past) {
    p.selfRestart || !Blank(p.previousLeader)
  }

  /** TryAcquireLeadership returns true. */
  function Won(c: Ctl): Ctl {
    if c.leader then c.(phase := Idle)
    else if MustWait(c.past) then
      c.(phase := if c.past.selfRestart then Reusing else Waiting, leader := true, failures := 0)
    else c.(phase := Starting, leader := true, failures := 0, started := true)
  }

  /** Remember who led before, and whether that was this very controller. */
  function Learn(who: Who, p: Past, now: int, current: string): Past {
    var p := if !Blank(current) && current != who.id then p.(previousLeader := current) else p;
    if Blank(current) && p.previousSelf == who.id && p.lastRelease.Some?
       && now - p.lastRelease.value < SELF_RESTART_WINDOW
    then p.(previousLeader := who.id, selfRestart := true)
    else p
  }

  /** What follows the last read of getCurrentLeader. */
  function Conclude(who: Who, c: Ctl, now: int, site: Site, a: Answer): Ctl {
    match site
    case BeforeTick =>
      if who.remainFollower then Refused(c) else c.(phase := Reading(BeforeAcquire, 0))
    case BeforeAcquire =>
      var c := if a.Failed? && a.conn then NoteFailure(c) else c;
      c.(phase := Acquiring, past := Learn(who, c.past, now, Holder(a)))
    case AfterAcquire => Won(c)
    case AfterLoss =>
      StepDown(if !Blank(Holder(a)) then c.(failures := 0) else c, true)
  }

  function OnRead(who: Who, c: Ctl, now: int, site: Site, attempt: nat, a: Answer): Ctl {
    if a.Failed? && attempt <= 2 then c.(phase := Reading(site, attempt + 1))
    else Conclude(who, c, now, site, a)
  }

  function OnAcquire(who: Who, c: Ctl, a: Answer): Ctl {
    if a.Failed? then Refused(c)
    else if Yes(a) then
      Report(Recover(c), true).(past := c.past.(previousSelf := who.id), phase := Reading(AfterAcquire, 0))
    else Refused(Report(Recover(c), false))
  }

  /** A leader's call failed: a bounded number of lost connections is tolerated. */
  function Tolerate(c: Ctl, conn: bool): Ctl {
    var c := if conn then NoteFailure(c) else c;
    c.(phase := if conn && c.failures < MAX_CONSECUTIVE_DB_FAILURES then Idle else Reading(AfterLoss, 0))
  }

  function OnCheck(who: Who, c: Ctl, a: Answer): Ctl {
    if a.Failed? then Tolerate(c, a.conn)
    else
      var c := Recover(c);
      if Blank(Holder(a)) then
        if who.remainFollower then Refused(c) else c.(phase := Reading(BeforeAcquire, 0))
      else c.(phase := if Holder(a) == who.id then Renewing else Reading(AfterLoss, 0))
  }

  function OnRenew(c: Ctl, a: Answer): Ctl {
    if a.Failed? then Tolerate(c, a.conn) else Recover(c).(phase := Measuring(Yes(a)))
  }

  function OnRelease(c: Ctl, a: Answer): Ctl {
    if a.Failed? then StepDown(c, false)
    else if Yes(a) then c.(phase := ReleaseCheck)
    else StepDown(Report(c, false), false)
  }

  function Resume(who: Who, c: Ctl, now: int, a: Answer): Ctl {
    match c.phase
    case Idle => c
    case Halted => c
    case Reading(site, attempt) => OnRead(who, c, now, site, attempt, a)
    case Acquiring => OnAcquire(who, c, a)
    case Reusing => if Yes(a) then c.(phase := Starting, started := true) else c.(phase := Waiting)
    case Waiting => c.(phase := Starting, started := true)
    case Starting => Report(c, true).(phase := Idle)
    case Checking => OnCheck(who, c, a)
    case Renewing => OnRenew(c, a)
    case Measuring(renewed) => c.(phase := if renewed then Idle else Reading(AfterLoss, 0))
    case Stopping(report) =>
      (if report then Report(c, false) else c).(phase := if c.halting then Halted else Idle)
    case ReleaseInfo => c.(phase := ReleaseCall)
    case ReleaseCall => OnRelease(c, a)
    case ReleaseCheck => StepDown(Report(c, false).(past := c.past.(lastRelease := Some(now))), false)
  }

  /** The election ticker fires. */
  function BeginTick(c: Ctl): Ctl {
    c.(phase := if c.leader then Checking else Reading(BeforeTick, 0))
  }

  /** The health monitor, or Stop, starts to give the lock back. */
  function BeginRelease(c: Ctl, halting: bool): Ctl {
    c.(phase := ReleaseInfo, halting := halting)
  }

  /** The lock monitor acts on the holder it saw earlier. */
  function Watched(who: Who, c: Ctl, seen: string): Ctl {
    if c.leader && seen != who.id then StepDown(c, true) else c
  }

  /** The storage call a phase makes, if it makes one. */
  function Request(who: Who, phase: Phase, key: string): Option<Op> {
    match phase
    case Reading(_, _) => Some(Info(key))
    case Acquiring => Some(Acquire(key, who.id, LOCK_TTL))
    case Checking => Some(Info(key))
    case Renewing => Some(Renew(key, who.id, LOCK_TTL))
    case Measuring(_) => Some(Info(key))
    case ReleaseInfo => Some(Info(key))
    case ReleaseCall => Some(Release(key, who.id))
    case ReleaseCheck => Some(Info(key))
    case _ => None
  }

  // ---------------------------------------------------------------------------------------
  // Every tick ends
  // ---------------------------------------------------------------------------------------

  predicate Busy(phase: Phase) {
    !phase.Idle? && !phase.Halted?
  }

  function Retries(attempt: nat): nat {
    if attempt <= 3 then 3 - attempt else 0
  }

  function Depth(leader: bool, site: Site): nat {
    match site
    case BeforeTick => 13
    case BeforeAcquire => if leader then 7 else 9
    case AfterAcquire => if leader then 1 else 4
    case AfterLoss => 2
  }

  /** An upper bound on the replies a controller still waits for in the current tick. */
  function Rank(leader: bool, phase: Phase): nat {
    match phase
    case Idle => 0
    case Halted => 0
    case Reading(site, k) => Depth(leader, site) + Retries(k)
    case Acquiring => if leader then 6 else 8
    case Reusing => 3
    case Waiting => 2
    case Starting => 1
    case Checking => 11
    case Renewing => 7
    case Measuring(_) => 6
    case Stopping(_) => 1
    case ReleaseInfo => 4
    case ReleaseCall => 3
    case ReleaseCheck => 2
  }

  /** A leader renews; a follower looks for a lock. */
  predicate Placed(c: Ctl) {
    match c.phase
    case Reading(BeforeTick, _) => !c.leader
    case Checking => c.leader
    case Renewing => c.leader
    case Measuring(_) => c.leader
    case _ => true
  }

  lemma RankFalls(who: Who, c: Ctl, now: int, a: Answer)
    requires Busy(c.phase) && Placed(c)
    ensures var c' := Resume(who, c, now, a); Placed(c') && Rank(c'.leader, c'.phase) < Rank(c.leader, c.phase)
  {
    if c.phase.Reading? {
      RankFallsReading(who, c, now, a);
    }
  }

  lemma RankFallsReading(who: Who, c: Ctl, now: int, a: Answer)
    requires c.phase.Reading? && Placed(c)
    ensures var c' := Resume(who, c, now, a); Placed(c') && Rank(c'.leader, c'.phase) < Rank(c.leader, c.phase)
  {
  }

  /** A reply and the time it arrives. */
  datatype Event = Event(at: int, answer: Answer)

  /** All the replies a controller will ever get. */
  type Feed = nat -> Event

  ghost predicate Moves(who: Who, e: Event, c: Ctl, c': Ctl) {
    Busy(c.phase) && c' == Resume(who, c, e.at, e.answer)
  }

  /** A run of the automaton that consumes the replies of the feed from `pos` on. */
  ghost predicate Path(who: Who, feed: Feed, pos: nat, path: seq<Ctl>) {
    path != [] && forall i :: 0 <= i < |path| - 1 ==> Hop(who, feed, pos, path, i)
  }

  ghost predicate Hop(who: Who, feed: Feed, pos: nat, path: seq<Ctl>, i: nat)
    requires i < |path| - 1
  {
    Moves(who, feed(pos + i), path[i], path[i + 1])
  }

  /** No tick waits for more than sixteen replies, and no renewal for more than eleven, whatever they
      are. */
  lemma {:induction false} TicksEnd(who: Who, feed: Feed, pos: nat, path: seq<Ctl>)
    requires Path(who, feed, pos, path)
    requires Placed(path[0])
    ensures Placed(path[|path| - 1])
    ensures |path| - 1 <= Rank(path[0].leader, path[0].phase) - Rank(path[|path| - 1].leader, path[|path| - 1].phase)
    ensures path[0].phase == Reading(BeforeTick, 0) ==> |path| - 1 <= 16
    ensures path[0].phase == Checking ==> |path| - 1 <= 11
    decreases |path|
  {
    var n := |path| - 1;
    if n > 0 {
      assert Hop(who, feed, pos, path, n - 1);
      var shorter := path[..n];
      forall i | 0 <= i < |shorter| - 1
        ensures Hop(who, feed, pos, shorter, i)
      {
        assert Hop(who, feed, pos, path, i);
      }
      TicksEnd(who, feed, pos, shorter);
      RankFalls(who, path[n - 1], feed(pos + (n - 1)).at, feed(pos + (n - 1)).answer);
    }
  }

  /** getCurrentLeader reads four times at most: the fourth failure is passed on. */
  lemma FourReads(who: Who, c: Ctl, now: int, a: Answer)
    requires c.phase.Reading? && c.phase.attempt <= 3
    ensures var p := Resume(who, c, now, a).phase;
            p == Reading(c.phase.site, c.phase.attempt + 1) <==> a.Failed? && c.phase.attempt < 3
  {
  }

  lemma Extend(who: Who, feed: Feed, pos: nat, path: seq<Ctl>, c: Ctl)
    requires Path(who, feed, pos, path)
    requires Moves(who, feed(pos + (|path| - 1)), path[|path| - 1], c)
    ensures Path(who, feed, pos, path + [c])
  {
    var longer := path + [c];
    forall i | 0 <= i < |longer| - 1
      ensures Hop(who, feed, pos, longer, i)
    {
      if i < |path| - 1 {
        assert Hop(who, feed, pos, path, i);
      }
    }
  }

  // ---------------------------------------------------------------------------------------
  // The monitoring server and the controller as code
  // ---------------------------------------------------------------------------------------

  /** The part of pkg/monitoring/monitoring.go that gates the workloads. */
  class MonitoringServer {
    var isLeader: bool
    var controllerState: ControllerState

    constructor ()
      ensures !isLeader && controllerState == Normal
    {
      isLeader, controllerState := false, Normal;
    }

    method UpdateControllerState(state: ControllerState)
      modifies this`controllerState
      ensures controllerState == state
    {
      controllerState := state;
    }

    method UpdateLeaderStatus(leader: bool)
      modifies this`isLeader
      ensures isLeader == leader
    {
      isLeader := leader;
    }
  }

  datatype Error = NoError | StorageError(conn: bool) | NoLeader

  class LeaderController {
    const who: Who
    const monitor: MonitoringServer
    const feed: Feed
    var consumed: nat           // replies received so far
    var isLeader: bool
    var controllerState: ControllerState
    var dbFailureCount: nat
    var previousLeader: string
    var previousSelfID: string
    var lastLeadershipReleaseTime: Option<int>
    var isSelfRestart: bool
    var workloadsStarted: bool  // StartAll was called after the last StopAll
    var stopping: bool          // the stop channel is closed
    ghost var origin: nat       // replies received before the current tick
    ghost var trail: seq<Ctl>   // the automaton's run through the current tick

    constructor (who: Who, monitor: MonitoringServer, feed: Feed)
      requires !monitor.isLeader
      modifies monitor
      ensures this.who == who && this.monitor == monitor && this.feed == feed
      ensures Fields() == Newborn && consumed == 0
    {
      this.who, this.monitor, this.feed, consumed := who, monitor, feed, 0;
      isLeader, controllerState, dbFailureCount := false, Normal, 0;
      previousLeader, previousSelfID, lastLeadershipReleaseTime := "", "", None;
      isSelfRestart, workloadsStarted, stopping := false, false, false;
      new;
      monitor.UpdateControllerState(Normal);
    }

    /** The controller's fields; the phase is wherever its code has got to. */
    ghost function Fields(): Ctl
      reads this, monitor
    {
      Ctl(Idle, isLeader, dbFailureCount,
          Gauge(controllerState, monitor.isLeader, monitor.controllerState),
          Past(previousLeader, previousSelfID, lastLeadershipReleaseTime, isSelfRestart),
          workloadsStarted, stopping)
    }

    /** The code waits where the automaton does, in the state `c`. */
    ghost predicate Awaits(c: Ctl)
      reads this
    {
      && Path(who, feed, origin, trail)
      && trail[|trail| - 1] == c
      && consumed == origin + (|trail| - 1)
    }

    /** A reply has come, and the automaton has not moved on yet. */
    ghost predicate Answered(c: Ctl)
      reads this
    {
      && Path(who, feed, origin, trail)
      && trail[|trail| - 1] == c
      && consumed == origin + |trail|
    }

    /** Still in the tick that had got to `earlier`. */
    ghost predicate Begun(start: nat, earlier: seq<Ctl>)
      reads this`origin, this`trail
    {
      origin == start && earlier != [] && earlier <= trail
    }

    method Receive(ghost c: Ctl) returns (e: Event)
      requires Awaits(c)
      modifies this`consumed
      ensures Answered(c) && consumed == old(consumed) + 1 && e == feed(old(consumed))
    {
      e := feed(consumed);
      consumed := consumed + 1;
    }

    ghost method Arrive(c: Ctl, c': Ctl)
      requires Answered(c) && Moves(who, feed(consumed - 1), c, c')
      modifies this`trail
      ensures Awaits(c') && Begun(old(origin), old(trail))
    {
      Extend(who, feed, origin, trail, c');
      trail := trail + [c'];
    }

    /** The chain of reads is over. */
    ghost method ArriveRead(c: Ctl, c': Ctl)
      requires Answered(c) && c.phase.Reading?
      requires feed(consumed - 1).answer.Failed? ==> c.phase.attempt > 2
      requires var e := feed(consumed - 1); c' == Conclude(who, c, e.at, c.phase.site, e.answer)
      modifies this`trail
      ensures Awaits(c') && Begun(old(origin), old(trail))
    {
      Arrive(c, c');
    }

    method SetControllerState(state: ControllerState)
      modifies this`controllerState, monitor`controllerState
      ensures Fields() == old(Fields()).(gauge := SetState(old(Fields().gauge), state))
    {
      if controllerState != state {
        controllerState := state;
        monitor.UpdateControllerState(state);
      }
    }

    /** The block that every failed connection runs through. */
    method CountFailure()
      modifies this`dbFailureCount, this`controllerState, monitor`controllerState
      ensures Fields() == NoteFailure(old(Fields()))
      ensures dbFailureCount == old(dbFailureCount) + 1 && controllerState == Degraded
    {
      dbFailureCount := dbFailureCount + 1;
      if controllerState != Degraded {
        SetControllerState(Degraded);
        monitor.UpdateControllerState(Degraded);
      }
    }

    /** The block that every answered call of the election runs through. */
    method ConnectionRestored()
      modifies this`dbFailureCount, this`controllerState, monitor`controllerState
      ensures Fields() == Recover(old(Fields()))
      ensures dbFailureCount == 0 && controllerState == Normal
    {
      if dbFailureCount > 0 {
        dbFailureCount := 0;
      }
      if controllerState == Degraded {
        SetControllerState(Normal);
        monitor.UpdateControllerState(Normal);
      }
    }

    /** Reads the lock until a read succeeds, four times at most. The last answer is left for the
        caller to act on. */
    method GetCurrentLeader(attempt: nat, ghost site: Site, ghost c: Ctl)
      returns (val: string, err: Error, now: int, ghost c': Ctl, ghost a: Answer)
      requires attempt <= 3 && c.phase == Reading(site, attempt) && Awaits(c)
      modifies this`consumed, this`trail
      ensures Begun(old(origin), old(trail))
      ensures c'.phase.Reading? && c' == c.(phase := Reading(site, c'.phase.attempt)) && Answered(c')
      ensures feed(consumed - 1) == Event(now, a) && (a.Failed? ==> c'.phase.attempt > 2)
      ensures val == Holder(a)
      ensures err == if a.Failed? then StorageError(a.conn) else if Blank(val) then NoLeader else NoError
      decreases 3 - attempt
    {
      c' := c;
      var e := Receive(c);
      now, a := e.at, e.answer;
      if e.answer.Failed? {
        if attempt > 2 {
          return "", StorageError(e.answer.conn), now, c', a;
        }
        c' := c.(phase := Reading(site, attempt + 1));
        Arrive(c, c');
        val, err, now, c', a := GetCurrentLeader(attempt + 1, site, c');
        return;
      }
      val := Holder(e.answer);
      if Blank(val) {
        return "", NoLeader, now, c', a;
      }
      return val, NoError, now, c', a;
    }

    method RememberLeader(currentLeader: string, now: int)
      modifies this`previousLeader, this`isSelfRestart
      ensures Fields() == old(Fields()).(past := Learn(who, old(Fields().past), now, currentLeader))
      ensures var soon := && currentLeader == "" && previousSelfID == who.id && lastLeadershipReleaseTime.Some?
                          && now - lastLeadershipReleaseTime.value < 300_000;
              && previousLeader == (if currentLeader !in {"", who.id} then currentLeader
                                    else if soon then who.id
                                    else old(previousLeader))
              && isSelfRestart == (old(isSelfRestart) || soon)
    {
      if !Blank(currentLeader) && currentLeader != who.id {
        previousLeader := currentLeader;
      }
      var restart := false;
      if Blank(currentLeader) && previousSelfID == who.id {
        if lastLeadershipReleaseTime.Some? && now - lastLeadershipReleaseTime.value < SELF_RESTART_WINDOW {
          restart := true;
        }
      }
      if restart {
        previousLeader := who.id;
        isSelfRestart := true;
      }
    }

    method TryAcquireLeadership() returns (ok: bool)
      requires Awaits(if who.remainFollower then Refused(Fields())
                      else Fields().(phase := Reading(BeforeAcquire, 0)))
      modifies this, monitor
      ensures Begun(old(origin), old(trail)) && isLeader == old(isLeader) && stopping == old(stopping)
      ensures Awaits(if ok then Won(Fields()) else Refused(Fields()))
    {
      if who.remainFollower {
        return false;
      }
      FindPreviousLeader();
      ok := AskForLock();
    }

    /** The first half of TryAcquireLeadership: who led before? */
    method FindPreviousLeader()
      requires Awaits(Fields().(phase := Reading(BeforeAcquire, 0)))
      modifies this, monitor
      ensures Begun(old(origin), old(trail)) && isLeader == old(isLeader) && stopping == old(stopping)
      ensures Awaits(Fields().(phase := Acquiring))
    {
      var currentLeader, err, now, c, _ := GetCurrentLeader(0, BeforeAcquire, Fields().(phase := Reading(BeforeAcquire, 0)));
      NotePreviousLeader(currentLeader, err.StorageError? && err.conn, now, c);
    }

    method NotePreviousLeader(currentLeader: string, lost: bool, now: int, ghost c: Ctl)
      requires c.phase.Reading? && c == Fields().(phase := Reading(BeforeAcquire, c.phase.attempt)) && Answered(c)
      requires var e := feed(consumed - 1);
               && now == e.at && currentLeader == Holder(e.answer) && lost == (e.answer.Failed? && e.answer.conn)
               && (e.answer.Failed? ==> c.phase.attempt > 2)
      modifies this, monitor
      ensures Begun(old(origin), old(trail)) && isLeader == old(isLeader) && stopping == old(stopping)
      ensures Awaits(Fields().(phase := Acquiring))
    {
      if lost {
        CountFailure();
      }
      RememberLeader(currentLeader, now);
      ArriveRead(c, Fields().(phase := Acquiring));
    }

    /** The second half of TryAcquireLeadership: the lock is requested and verified. */
    method AskForLock() returns (ok: bool)
      requires Awaits(Fields().(phase := Acquiring))
      modifies this, monitor
      ensures Begun(old(origin), old(trail)) && isLeader == old(isLeader) && stopping == old(stopping)
      ensures Awaits(if ok then Won(Fields()) else Refused(Fields()))
    {
      ghost var c := Fields().(phase := Acquiring);
      var e := Receive(c);
      if e.answer.Failed? {
        Arrive(c, Refused(Fields()));
        return false;
      }
      ok := HearAnswer(Yes(e.answer), c);
    }

    method HearAnswer(yes: bool, ghost c: Ctl) returns (ok: bool)
      requires c == Fields().(phase := Acquiring) && Answered(c)
      requires feed(consumed - 1).answer.Got? && Yes(feed(consumed - 1).answer) == yes
      modifies this, monitor
      ensures Begun(old(origin), old(trail)) && isLeader == old(isLeader) && stopping == old(stopping)
      ensures Awaits(if ok then Won(Fields()) else Refused(Fields()))
    {
      ConnectionRestored();
      if yes {
        monitor.UpdateLeaderStatus(true);
        previousSelfID := who.id;
        Arrive(c, Fields().(phase := Reading(AfterAcquire, 0)));
        VerifyLock();
        return true;
      } else {
        monitor.UpdateLeaderStatus(false);
        Arrive(c, Refused(Fields()));
        return false;
      }
    }

    /** The verification is only logged. */
    method VerifyLock()
      requires Awaits(Fields().(phase := Reading(AfterAcquire, 0)))
      modifies this`consumed, this`trail
      ensures Begun(old(origin), old(trail)) && Awaits(Won(Fields()))
    {
      var _, _, _, c, _ := GetCurrentLeader(0, AfterAcquire, Fields().(phase := Reading(AfterAcquire, 0)));
      ArriveRead(c, Won(Fields()));
    }

    /** A leader's storage call failed: lost connections are tolerated up to a limit. */
    method SurvivesFailure(conn: bool, ghost c: Ctl) returns (ok: bool)
      requires c.phase.Checking? || c.phase.Renewing?
      requires c == Fields().(phase := c.phase) && Answered(c)
      requires feed(consumed - 1).answer == Failed(conn)
      modifies this`dbFailureCount, this`controllerState, this`trail, monitor`controllerState
      ensures Begun(old(origin), old(trail))
      ensures Awaits(Fields().(phase := if ok then Idle else Reading(AfterLoss, 0)))
      ensures dbFailureCount == old(dbFailureCount) + (if conn then 1 else 0)
      ensures ok <==> conn && dbFailureCount < 3
    {
      if conn {
        CountFailure();
        if dbFailureCount >= MAX_CONSECUTIVE_DB_FAILURES {
          Arrive(c, Fields().(phase := Reading(AfterLoss, 0)));
          return false;
        }
        Arrive(c, Fields());
        return true;
      }
      Arrive(c, Fields().(phase := Reading(AfterLoss, 0)));
      return false;
    }

    method RenewLeadership() returns (ok: bool)
      requires isLeader && Awaits(Fields().(phase := Checking))
      modifies this, monitor
      ensures Begun(old(origin), old(trail))
      ensures isLeader && stopping == old(stopping)
      ensures Awaits(Fields().(phase := if ok then Idle else Reading(AfterLoss, 0)))
    {
      ghost var c := Fields().(phase := Checking);
      var e := Receive(c);
      if e.answer.Failed? {
        ok := SurvivesFailure(e.answer.conn, c);
        return;
      }
      ConnectionRestored();
      var val := Holder(e.answer);
      if Blank(val) {
        Arrive(c, if who.remainFollower then Refused(Fields()) else Fields().(phase := Reading(BeforeAcquire, 0)));
        ok := TryAcquireLeadership();
        return;
      }
      if val != who.id {
        Arrive(c, Fields().(phase := Reading(AfterLoss, 0)));
        return false;
      }
      Arrive(c, Fields().(phase := Renewing));
      ok := ExtendLock();
    }

    /** The second half of RenewLeadership: the lock is still ours, and its expiry is moved. */
    method ExtendLock() returns (ok: bool)
      requires Awaits(Fields().(phase := Renewing))
      modifies this, monitor
      ensures Begun(old(origin), old(trail)) && isLeader == old(isLeader) && stopping == old(stopping)
      ensures Awaits(Fields().(phase := if ok then Idle else Reading(AfterLoss, 0)))
    {
      ghost var c := Fields().(phase := Renewing);
      var e := Receive(c);
      if e.answer.Failed? {
        ok := SurvivesFailure(e.answer.conn, c);
        return;
      }
      ConnectionRestored();
      ok := Yes(e.answer);
      Arrive(c, Fields().(phase := Measuring(ok)));
      MeasureTtl(ok);
    }

    /** The remaining lifetime is read for a metric; the renewal's outcome stands. */
    method MeasureTtl(ok: bool)
      requires Awaits(Fields().(phase := Measuring(ok)))
      modifies this`consumed, this`trail
      ensures Begun(old(origin), old(trail))
      ensures Awaits(Fields().(phase := if ok then Idle else Reading(AfterLoss, 0)))
    {
      ghost var c := Fields().(phase := Measuring(ok));
      var _ := Receive(c);
      Arrive(c, Fields().(phase := if ok then Idle else Reading(AfterLoss, 0)));
    }

    method StopWorkloads()
      modifies this`workloadsStarted
      ensures !workloadsStarted
    {
      workloadsStarted := false;
    }

    ghost method Begin(c: Ctl)
      modifies this`origin, this`trail
      ensures Awaits(c) && trail == [c] && origin == consumed
    {
      origin, trail := consumed, [c];
    }

    /** One pass of runLeaderElectionLoop under the workload mutex. */
    method ElectionTick()
      requires !stopping
      modifies this, monitor
      ensures Begun(old(consumed), [BeginTick(old(Fields()))])
      ensures Awaits(Fields())
    {
      ghost var c := BeginTick(Fields());
      Begin(c);
      if isLeader {
        RenewOrStepDown();
      } else {
        var _, _, _, c', _ := GetCurrentLeader(0, BeforeTick, c);
        ArriveRead(c', if who.remainFollower then Refused(Fields()) else Fields().(phase := Reading(BeforeAcquire, 0)));
        var ok := TryAcquireLeadership();
        if ok {
          TakeOver();
        }
      }
    }

    /** The leader's branch of the loop. */
    method RenewOrStepDown()
      requires isLeader && !stopping && Awaits(Fields().(phase := Checking))
      modifies this, monitor
      ensures Begun(old(origin), old(trail))
      ensures !stopping && Awaits(Fields())
    {
      var ok := RenewLeadership();
      if !ok {
        LoseLeadership();
        ReportLoss();
      }
    }

    method LoseLeadership()
      requires Awaits(Fields().(phase := Reading(AfterLoss, 0)))
      modifies this, monitor
      ensures Begun(old(origin), old(trail)) && stopping == old(stopping)
      ensures !isLeader && !workloadsStarted && Awaits(Fields().(phase := Stopping(true)))
    {
      var newLeader, err, _, c, _ := GetCurrentLeader(0, AfterLoss, Fields().(phase := Reading(AfterLoss, 0)));
      LeaveOffice(err == NoError, c);
    }

    method LeaveOffice(known: bool, ghost c: Ctl)
      requires c.phase.Reading? && c == Fields().(phase := Reading(AfterLoss, c.phase.attempt)) && Answered(c)
      requires var a := feed(consumed - 1).answer;
               known == !Blank(Holder(a)) && (a.Failed? ==> c.phase.attempt > 2)
      modifies this, monitor
      ensures Begun(old(origin), old(trail)) && stopping == old(stopping)
      ensures !isLeader && !workloadsStarted && Awaits(Fields().(phase := Stopping(true)))
    {
      if known {
        dbFailureCount := 0;
      }
      isLeader := false;
      StopWorkloads();
      ArriveRead(c, Fields().(phase := Stopping(true)));
    }

    method ReportLoss()
      requires !stopping && Awaits(Fields().(phase := Stopping(true)))
      modifies this`consumed, this`trail, monitor`isLeader
      ensures Begun(old(origin), old(trail)) && Awaits(Fields())
    {
      ghost var c := Fields().(phase := Stopping(true));
      var _ := Receive(c);
      monitor.UpdateLeaderStatus(false);
      Arrive(c, Fields());
    }

    /** The lock was won by a follower. */
    method TakeOver()
      requires !isLeader && !stopping && Awaits(Won(Fields()))
      modifies this, monitor
      ensures Begun(old(origin), old(trail))
      ensures isLeader && workloadsStarted && monitor.isLeader && dbFailureCount == 0
      ensures !stopping && Awaits(Fields())
    {
      isLeader := true;
      dbFailureCount := 0;
      if isSelfRestart || !Blank(previousLeader) {
        WaitForPreviousWorkloads();
      } else {
        workloadsStarted := true;
      }
      StartWorkloads();
    }

    method WaitForPreviousWorkloads()
      requires isSelfRestart || !Blank(previousLeader)
      requires Awaits(Fields().(phase := if isSelfRestart then Reusing else Waiting))
      modifies this`consumed, this`trail, this`workloadsStarted
      ensures workloadsStarted && Begun(old(origin), old(trail)) && Awaits(Fields().(phase := Starting))
    {
      if isSelfRestart {
        var reusable := CanReuseExistingWorkloads();
        if reusable {
          return;
        }
      }
      ghost var c := Fields().(phase := Waiting);
      var _ := Receive(c);
      workloadsStarted := true;  // startWorkloads begins with StartAll
      Arrive(c, Fields().(phase := Starting));
    }

    /** Whether all active workloads are still there and in order. */
    method CanReuseExistingWorkloads() returns (reusable: bool)
      requires Awaits(Fields().(phase := Reusing))
      modifies this`consumed, this`trail, this`workloadsStarted
      ensures workloadsStarted == (old(workloadsStarted) || reusable)
      ensures Begun(old(origin), old(trail)) && Awaits(Fields().(phase := if reusable then Starting else Waiting))
    {
      ghost var c := Fields().(phase := Reusing);
      var e := Receive(c);
      reusable := Yes(e.answer);
      if reusable {
        workloadsStarted := true;
      }
      Arrive(c, Fields().(phase := if reusable then Starting else Waiting));
    }

    method StartWorkloads()
      requires Awaits(Fields().(phase := Starting))
      modifies this`consumed, this`trail, monitor`isLeader
      ensures monitor.isLeader && Begun(old(origin), old(trail)) && Awaits(Fields())
    {
      ghost var c := Fields().(phase := Starting);
      var _ := Receive(c);
      monitor.UpdateLeaderStatus(true);
      Arrive(c, Fields());
    }

    method ReleaseLeadership()
      requires Awaits(Fields().(phase := ReleaseInfo))
      modifies this, monitor
      ensures Begun(old(origin), old(trail)) && stopping == old(stopping)
      ensures Awaits(StepDown(Fields(), false))
    {
      ghost var c := Fields().(phase := ReleaseInfo);
      var _ := Receive(c);  // the record is read for the log
      Arrive(c, Fields().(phase := ReleaseCall));
      ReleaseAndReport();
    }

    method ReleaseAndReport()
      requires Awaits(Fields().(phase := ReleaseCall))
      modifies this, monitor
      ensures Begun(old(origin), old(trail)) && stopping == old(stopping)
      ensures Awaits(StepDown(Fields(), false))
    {
      ghost var c := Fields().(phase := ReleaseCall);
      var e := Receive(c);
      if e.answer.Failed? {
        Arrive(c, StepDown(Fields(), false));
        return;
      }
      if Yes(e.answer) {
        Arrive(c, Fields().(phase := ReleaseCheck));
        RecordRelease();
      } else {
        monitor.UpdateLeaderStatus(false);
        Arrive(c, StepDown(Fields(), false));
      }
    }

    method RecordRelease()
      requires Awaits(Fields().(phase := ReleaseCheck))
      modifies this, monitor
      ensures Begun(old(origin), old(trail)) && stopping == old(stopping)
      ensures Awaits(StepDown(Fields(), false))
    {
      ghost var c := Fields().(phase := ReleaseCheck);
      var e := Receive(c);  // the lock is read to verify that it is gone
      lastLeadershipReleaseTime := Some(e.at);
      monitor.UpdateLeaderStatus(false);
      Arrive(c, StepDown(Fields(), false));
    }

    /** What the health monitor does about an unhealthy cluster, and Stop (`halting`). */
    method GiveUp(halting: bool)
      requires !stopping
      modifies this, monitor
      ensures Begun(old(consumed), [BeginRelease(old(Fields()), halting)])
      ensures !isLeader && !workloadsStarted && stopping == halting
      ensures Awaits(Fields().(phase := if halting then Halted else Idle))
    {
      stopping := halting;
      Begin(Fields().(phase := ReleaseInfo));
      ReleaseLeadership();
      isLeader := false;
      StopWorkloads();
      FinishStopping();
    }

    method FinishStopping()
      requires Awaits(Fields().(phase := Stopping(false)))
      modifies this`consumed, this`trail
      ensures Begun(old(origin), old(trail))
      ensures Awaits(Fields().(phase := if stopping then Halted else Idle))
    {
      ghost var c := Fields().(phase := Stopping(false));
      var _ := Receive(c);
      Arrive(c, Fields().(phase := if stopping then Halted else Idle));
    }

    /** The part of monitorLock that runs under the workload mutex. */
    method LockMonitorTick(val: string)
      requires !stopping
      modifies this, monitor
      ensures Fields() == var c := Watched(who, old(Fields()), val);
                          if c.phase.Idle? then c else Resume(who, c, 0, Failed(false))
      ensures if old(isLeader) && val != who.id then !isLeader && !workloadsStarted && !monitor.isLeader
              else Fields() == old(Fields())
    {
      if isLeader && val != who.id {
        isLeader := false;
        StopWorkloads();
        monitor.UpdateLeaderStatus(false);
      }
    }
  }
}
