/**
  What every step of one controller keeps, whatever the replies.
 */
module Discipline {
  import opened Leases
  import opened Controllers

  /** The shape of a tenure: which phases belong to a leader, and when failures are counted. */
  predicate Shaped(who: Who, c: Ctl) {
    match c.phase
    case Idle => c.leader ==> c.failures <= 2 && !who.remainFollower
    case Checking => c.leader && c.failures <= 2 && !who.remainFollower
    case Renewing => c.leader && c.failures == 0 && !who.remainFollower
    case Measuring(_) => c.leader && c.failures == 0 && !who.remainFollower
    case Reading(BeforeTick, k) => !c.leader && k <= 3
    case Reading(BeforeAcquire, k) => k <= 3 && !who.remainFollower
    case Reading(AfterAcquire, k) => k <= 3 && c.failures == 0 && !who.remainFollower
    case Reading(AfterLoss, k) => k <= 3 && c.leader && !who.remainFollower
    case Acquiring => !who.remainFollower
    case Reusing => c.leader && c.failures == 0 && !who.remainFollower
    case Waiting => c.leader && c.failures == 0 && !who.remainFollower
    case Starting => c.leader && c.failures == 0 && !who.remainFollower
    case Stopping(_) => !c.leader
    case Halted => !c.leader
    case _ => c.leader ==> !who.remainFollower
  }

  /** A nonzero failure count means Degraded, and the monitor knows. */
  predicate Gauged(c: Ctl) {
    (c.failures > 0 ==> c.gauge.state == Degraded) && c.gauge.monState == c.gauge.state
  }

  /** Workloads run exactly while somebody leads, except during the hand-over wait. */
  predicate Staffed(c: Ctl) {
    c.started <==> c.leader && !c.phase.Reusing? && !c.phase.Waiting?
  }

  /** The monitor calls this controller the leader while it leads. */
  predicate Announced(c: Ctl) {
    match c.phase
    case Reading(AfterLoss, _) => true
    case Reading(AfterAcquire, _) => c.gauge.monLeader
    case _ => c.leader ==> c.gauge.monLeader
  }

  predicate Orderly(who: Who, c: Ctl) {
    Shaped(who, c) && Gauged(c) && Staffed(c) && Announced(c)
  }

  lemma NewbornOrderly(who: Who)
    ensures Orderly(who, Newborn) && Orderly(who, Newborn.(phase := Halted))
  {
  }

  lemma ReadKeepsOrder(who: Who, c: Ctl, now: int, a: Answer)
    requires Orderly(who, c) && c.phase.Reading?
    ensures Orderly(who, Resume(who, c, now, a))
  {
    if a.Failed? && c.phase.attempt <= 2 {
      assert Resume(who, c, now, a) == c.(phase := Reading(c.phase.site, c.phase.attempt + 1));
    } else {
      match c.phase.site
      case BeforeTick =>
      case BeforeAcquire =>
      case AfterAcquire =>
      case AfterLoss =>
    }
  }

  lemma CallKeepsOrder(who: Who, c: Ctl, now: int, a: Answer)
    requires Orderly(who, c) && (c.phase.Acquiring? || c.phase.Checking? || c.phase.Renewing? || c.phase.Measuring?)
    ensures Orderly(who, Resume(who, c, now, a))
  {
  }

  lemma OtherKeepsOrder(who: Who, c: Ctl, now: int, a: Answer)
    requires Orderly(who, c)
    requires !c.phase.Reading? && !c.phase.Acquiring? && !c.phase.Checking? && !c.phase.Renewing? && !c.phase.Measuring?
    ensures Orderly(who, Resume(who, c, now, a))
  {
  }

  lemma ResumeKeepsOrder(who: Who, c: Ctl, now: int, a: Answer)
    requires Orderly(who, c)
    ensures Orderly(who, Resume(who, c, now, a))
  {
    if c.phase.Reading? {
      ReadKeepsOrder(who, c, now, a);
    } else if c.phase.Acquiring? || c.phase.Checking? || c.phase.Renewing? || c.phase.Measuring? {
      CallKeepsOrder(who, c, now, a);
    } else {
      OtherKeepsOrder(who, c, now, a);
    }
  }

  lemma EventsKeepOrder(who: Who, c: Ctl, seen: string, halting: bool)
    requires Orderly(who, c) && c.phase.Idle?
    ensures Orderly(who, BeginTick(c)) && Orderly(who, BeginRelease(c, halting)) && Orderly(who, Watched(who, c, seen))
  {
  }

  /** The gate for building containers and for handling CRD events: IsLeaderAndNormal. */
  predicate Gate(c: Ctl) {
    c.gauge.monLeader && c.gauge.monState == Normal
  }

  lemma OrderlyMeans(who: Who, c: Ctl)
    requires Orderly(who, c)
    ensures c.failures > 0 ==> !Gate(c)
    ensures who.remainFollower ==> !c.leader
    ensures c.phase.Idle? ==> (c.started <==> c.leader)
                              && (c.leader ==> c.gauge.monLeader && c.failures < MAX_CONSECUTIVE_DB_FAILURES)
  {
  }

  /** StartAll is only called when StopAll was the last of the two, and by a leader. */
  lemma StartFindsNothingRunning(who: Who, c: Ctl, now: int, a: Answer)
    requires Orderly(who, c) && !c.phase.Starting?
    ensures var c' := Resume(who, c, now, a);
            && (c'.phase.Starting? ==> !c.started && c'.started && c'.leader)
            && (c.started && !c'.started ==> c'.phase.Stopping? && !c'.leader)
            && (!c.started && c'.started ==> c'.phase.Starting?)
  {
  }

  /** The monitor does not call a controller the leader that neither leads nor is about to. */
  predicate Honest(c: Ctl) {
    c.gauge.monLeader ==>
      || c.leader
      || Releasing(c.phase)
      || c.phase == Stopping(true)
      || (c.phase.Reading? && c.phase.site.AfterAcquire?)
  }

  predicate Releasing(phase: Phase) {
    phase.ReleaseInfo? || phase.ReleaseCall? || phase.ReleaseCheck?
  }

  /** Honesty is lost in one place only: a release call that is not answered leaves the monitor's
      flag set while the leadership is given up, and with it the gate open. */
  lemma HonestExactly(who: Who, c: Ctl, now: int, a: Answer)
    requires Orderly(who, c) && Honest(c)
    ensures Honest(Resume(who, c, now, a))
            <==> !(c.phase.ReleaseCall? && a.Failed? && c.gauge.monLeader)
  {
  }

  lemma EventsKeepHonest(who: Who, c: Ctl, seen: string, halting: bool)
    requires Orderly(who, c) && c.phase.Idle? && Honest(c)
    ensures Honest(BeginTick(c)) && Honest(BeginRelease(c, halting)) && Honest(Watched(who, c, seen))
    ensures !c.leader ==> Honest(c.(phase := Halted, halting := true))
  {
  }
}
