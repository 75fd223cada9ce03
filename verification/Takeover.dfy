/**
  When a dead leader is replaced.
 */
module Takeover {
  import opened Leases
  import opened Controllers
  import opened Election
  import opened Safety

  /** The storage answers, nobody fails or is taken out. */
  predicate Calm(a: Action) {
    match a
    case Serve(_, out) => out.Answered?
    case Yield(_) => false
    case Stop(_) => false
    case Crash(_) => false
    case Restart(_) => false
    case _ => true
  }

  /** A calm run in which the clock also waits for the follower `c`. */
  predicate CalmRun(cfg: Config, w: World, acts: seq<Action>, c: string)
    requires Valid(cfg, w) && Runs(cfg, w, acts) && c in cfg.members
    decreases |acts|
  {
    acts == []
    || (&& Calm(acts[0])
        && (acts[0].Pass? ==> acts[0].to <= w.nodes[c].deadline)
        && CalmRun(cfg, Do(cfg, w, acts[0]), acts[1..], c))
  }

  /** A controller holds this lock and has the leader's flag. */
  predicate Led(cfg: Config, w: World, key: string)
    requires Valid(cfg, w)
  {
    exists id :: id in w.nodes && Key(cfg, id) == key && w.nodes[id].ctl.leader && HeldBy(cfg.backend, w.store, key, id, w.now)
  }

  /** Some world of the run has a leader for this lock, no later than `due`. */
  predicate LedBy(cfg: Config, w: World, acts: seq<Action>, key: string, due: int)
    requires Valid(cfg, w) && Runs(cfg, w, acts)
    decreases |acts|
  {
    (w.now <= due && Led(cfg, w, key)) || (acts != [] && LedBy(cfg, Do(cfg, w, acts[0]), acts[1..], key, due))
  }

  /** Where a follower is between two elections, and on its way to asking for the lock. */
  predicate Seeking(phase: Phase) {
    phase.Idle? || phase.Acquiring?
    || (phase.Reading? && (phase.site.BeforeTick? || phase.site.BeforeAcquire?))
  }

  /** One more read, if an answer of an earlier failure is still on the way. */
  function Detour(cfg: Config, n: Node): int {
    if n.reply.Some? && n.reply.value.Failed? then RETRY_SLEEP + cfg.call else 0
  }

  /** From a follower's deadline to the moment its request for the lock must have been served. */
  function ToRequest(cfg: Config, n: Node): int
    requires Seeking(n.ctl.phase)
  {
    match n.ctl.phase
    case Idle => 3 * cfg.call
    case Reading(BeforeTick, _) => 2 * cfg.call + Detour(cfg, n)
    case Reading(_, _) => cfg.call + Detour(cfg, n)
    case _ => if n.reply.None? then 0 else RENEW_INTERVAL + 3 * cfg.call
  }

  /** The follower's request for the lock is served by then. */
  function Latest(cfg: Config, expires: int): int {
    expires + RENEW_INTERVAL + 4 * cfg.call
  }

  /** Somebody has the lock and the flag by then. */
  function Due(cfg: Config, expires: int): int {
    expires + RENEW_INTERVAL + 6 * cfg.call
  }

  /** The follower has not got the lock, and asks for it in time. */
  predicate OnItsWay(cfg: Config, w: World, expires: int, c: string)
    requires Valid(cfg, w) && c in w.nodes
  {
    var n := w.nodes[c];
    && !n.ctl.leader && !Tenured(n) && Seeking(n.ctl.phase)
    && (n.reply.Some? ==> Busy(n.ctl.phase))
    && w.now <= n.deadline <= w.now + Dwell(cfg, n.ctl.phase)
    && n.deadline + ToRequest(cfg, n) <= Latest(cfg, expires)
  }

  predicate RowOf(m: Locks, key: string, dead: string, expires: int) {
    key in m ==> m[key].value == dead && m[key].expires == expires
  }

  /** The dead leader's record is still there, or nothing is. */
  predicate Vacant(cfg: Config, w: World, key: string, dead: string, expires: int)
    requires Valid(cfg, w)
  {
    && RowOf(w.store, key, dead, expires)
    && (dead in w.nodes ==> w.nodes[dead].ctl.phase.Halted?)
  }

  /** Somebody was granted the lock, and is about to set its flag. */
  predicate Claimed(cfg: Config, w: World, key: string, id: string, until: int)
    requires Valid(cfg, w)
  {
    && id in w.nodes && Key(cfg, id) == key
    && var n := w.nodes[id];
       && !n.ctl.leader && (n.reply.Some? ==> n.reply.value.Got?) && w.now <= n.deadline
       && (|| (n.ctl.phase.Acquiring? && Tenured(n) && n.deadline + cfg.call <= until)
           || (n.ctl.phase.Reading? && n.ctl.phase.site.AfterAcquire? && n.deadline <= until))
       && key in w.store && w.store[key].value == id && until + Margin(cfg.backend) <= w.store[key].expires
  }

  lemma ClaimStays(cfg: Config, w: World, a: Action, key: string, id: string, until: int)
    requires Valid(cfg, w) && Enabled(cfg, w, a) && Calm(a) && Claimed(cfg, w, key, id, until) && a != Hear(id)
    ensures Claimed(cfg, Do(cfg, w, a), key, id, until)
  {
    if a.Serve? && a.id != id {
      var request := Request(WhoIs(cfg, a.id), w.nodes[a.id].ctl.phase, Key(cfg, a.id));
      if request.Some? {
        OwnershipFrame(cfg.backend, w.store, w.now, request.value, key);
      }
    }
  }

  lemma ClaimIsHeard(cfg: Config, w: World, key: string, id: string, until: int)
    requires Valid(cfg, w) && Enabled(cfg, w, Hear(id)) && Claimed(cfg, w, key, id, until)
    ensures var w' := Do(cfg, w, Hear(id)); Claimed(cfg, w', key, id, until) || (w'.now <= until && Led(cfg, w', key))
  {
    var w' := Do(cfg, w, Hear(id));
    if w.nodes[id].ctl.phase.Reading? {
      assert w'.nodes[id].ctl.leader && HeldBy(cfg.backend, w'.store, key, id, w'.now);
    }
  }

  lemma {:induction false} ClaimedGetsLeader(cfg: Config, w: World, acts: seq<Action>, key: string, c: string, id: string,
                                             until: int, due: int)
    requires Valid(cfg, w) && Runs(cfg, w, acts) && c in cfg.members && CalmRun(cfg, w, acts, c)
    requires Claimed(cfg, w, key, id, until) && until <= due && End(cfg, w, acts).now > due
    ensures LedBy(cfg, w, acts, key, due)
    decreases |acts|
  {
    if acts != [] {
      var w' := Do(cfg, w, acts[0]);
      if acts[0] == Hear(id) {
        ClaimIsHeard(cfg, w, key, id, until);
      } else {
        ClaimStays(cfg, w, acts[0], key, id, until);
      }
      if Claimed(cfg, w', key, id, until) {
        ClaimedGetsLeader(cfg, w', acts[1..], key, c, id, until, due);
      }
    }
  }

  /** A free lock is granted: to a follower, or to a leader that had lost it. */
  lemma FreeLockIsGranted(cfg: Config, w: World, id: string)
    requires Valid(cfg, w) && Enabled(cfg, w, Serve(id, Answered)) && w.nodes[id].ctl.phase.Acquiring?
    requires !Live(cfg.backend, w.store, Key(cfg, id), w.now) && 2 * cfg.call < LOCK_TTL
    ensures var w' := Do(cfg, w, Serve(id, Answered));
            Claimed(cfg, w', Key(cfg, id), id, w.now + 2 * cfg.call) || Led(cfg, w', Key(cfg, id))
  {
    var w' := Do(cfg, w, Serve(id, Answered));
    if w.nodes[id].ctl.leader {
      assert w'.nodes[id].ctl.leader && HeldBy(cfg.backend, w'.store, Key(cfg, id), id, w'.now);
    }
  }

  /** Nobody but its holder, and nobody who asks for it while it lasts, changes a row. */
  lemma RowStays(b: Backend, m: Locks, now: int, op: Op, key: string, dead: string, expires: int)
    requires RowOf(m, key, dead, expires)
    requires (op.Acquire? || op.Renew? || op.Release?) && op.key == key ==> op.value != dead
    requires op.Acquire? && op.key == key ==> Live(b, m, key, now)
    ensures RowOf(Apply(b, m, now, op).0, key, dead, expires)
  {
  }

  /** Anything else that is served leaves the lock vacant. */
  lemma VacantStore(cfg: Config, w: World, id: string, key: string, dead: string, expires: int)
    requires Valid(cfg, w) && AllOrderly(cfg, w) && Enabled(cfg, w, Serve(id, Answered))
    requires Vacant(cfg, w, key, dead, expires)
    requires !(Key(cfg, id) == key && w.nodes[id].ctl.phase.Acquiring? && !Live(cfg.backend, w.store, key, w.now))
    ensures Vacant(cfg, Do(cfg, w, Serve(id, Answered)), key, dead, expires)
  {
    assert id != dead;
    var request := Request(WhoIs(cfg, id), w.nodes[id].ctl.phase, Key(cfg, id));
    if request.Some? {
      RowStays(cfg.backend, w.store, w.now, request.value, key, dead, expires);
    }
  }

  /** The follower's request is refused only while the dead leader's lease lasts. */
  lemma FollowerServed(cfg: Config, w: World, key: string, dead: string, expires: int, c: string)
    requires Valid(cfg, w) && Enabled(cfg, w, Serve(c, Answered)) && Key(cfg, c) == key && c != dead
    requires Vacant(cfg, w, key, dead, expires) && OnItsWay(cfg, w, expires, c)
    requires w.nodes[c].ctl.phase.Acquiring? ==> Live(cfg.backend, w.store, key, w.now)
    ensures OnItsWay(cfg, Do(cfg, w, Serve(c, Answered)), expires, c)
  {
  }

  lemma FollowerHears(cfg: Config, w: World, expires: int, c: string)
    requires Valid(cfg, w) && Enabled(cfg, w, Hear(c)) && !cfg.members[c].remainFollower
    requires OnItsWay(cfg, w, expires, c)
    ensures OnItsWay(cfg, Do(cfg, w, Hear(c)), expires, c)
  {
  }

  lemma FollowerWaits(cfg: Config, w: World, a: Action, expires: int, c: string)
    requires Valid(cfg, w) && Enabled(cfg, w, a) && Calm(a) && c in w.nodes && OnItsWay(cfg, w, expires, c)
    requires a.Pass? ==> a.to <= w.nodes[c].deadline
    requires !(a.Serve? && a.id == c) && a != Hear(c)
    ensures OnItsWay(cfg, Do(cfg, w, a), expires, c)
  {
    if !Acts(a, c) {
      BystanderUnmoved(cfg, w, a, c);
    }
  }

  lemma VacancyStays(cfg: Config, w: World, a: Action, key: string, dead: string, expires: int)
    requires Valid(cfg, w) && AllOrderly(cfg, w) && Enabled(cfg, w, a) && Calm(a) && !a.Serve?
    requires Vacant(cfg, w, key, dead, expires)
    ensures Vacant(cfg, Do(cfg, w, a), key, dead, expires)
  {
  }

  /** Every calm step leaves the lock vacant and the follower on its way, or the lock is taken. */
  lemma VacantStep(cfg: Config, w: World, a: Action, key: string, dead: string, expires: int, c: string)
    requires Valid(cfg, w) && AllOrderly(cfg, w) && Enabled(cfg, w, a) && Calm(a) && c in cfg.members
    requires Key(cfg, c) == key && !cfg.members[c].remainFollower && c != dead && 2 * cfg.call < LOCK_TTL
    requires a.Pass? ==> a.to <= w.nodes[c].deadline
    requires Vacant(cfg, w, key, dead, expires) && OnItsWay(cfg, w, expires, c)
    ensures var w' := Do(cfg, w, a);
            || (Vacant(cfg, w', key, dead, expires) && OnItsWay(cfg, w', expires, c))
            || (w'.now == w.now && Led(cfg, w', key))
            || (a.Serve? && Claimed(cfg, w', key, a.id, w.now + 2 * cfg.call))
  {
    if a.Serve? && Key(cfg, a.id) == key && w.nodes[a.id].ctl.phase.Acquiring? && !Live(cfg.backend, w.store, key, w.now) {
      FreeLockIsGranted(cfg, w, a.id);
    } else {
      if a.Serve? {
        VacantStore(cfg, w, a.id, key, dead, expires);
      } else {
        VacancyStays(cfg, w, a, key, dead, expires);
      }
      if a.Serve? && a.id == c {
        FollowerServed(cfg, w, key, dead, expires, c);
      } else if a == Hear(c) {
        FollowerHears(cfg, w, expires, c);
      } else {
        FollowerWaits(cfg, w, a, expires, c);
      }
    }
  }

  lemma OnItsWayInTime(cfg: Config, w: World, expires: int, c: string)
    requires Valid(cfg, w) && c in w.nodes && OnItsWay(cfg, w, expires, c)
    ensures w.now <= Latest(cfg, expires)
  {
  }

  /** The lock waits for a new leader, and the follower is on its way. */
  predicate Awaited(cfg: Config, w: World, key: string, dead: string, expires: int, c: string)
    requires Valid(cfg, w)
  {
    && c in cfg.members && Key(cfg, c) == key && !cfg.members[c].remainFollower && c != dead
    && Vacant(cfg, w, key, dead, expires) && OnItsWay(cfg, w, expires, c)
  }

  lemma ClaimedInTime(cfg: Config, w: World, acts: seq<Action>, key: string, c: string, expires: int)
    requires Valid(cfg, w) && acts != [] && Runs(cfg, w, acts) && c in cfg.members && CalmRun(cfg, w, acts, c)
    requires w.now <= Latest(cfg, expires) && acts[0].Serve?
    requires Claimed(cfg, Do(cfg, w, acts[0]), key, acts[0].id, w.now + 2 * cfg.call)
    requires End(cfg, w, acts).now > Due(cfg, expires)
    ensures LedBy(cfg, w, acts, key, Due(cfg, expires))
  {
    var w' := Do(cfg, w, acts[0]);
    ClaimedGetsLeader(cfg, w', acts[1..], key, c, acts[0].id, w.now + 2 * cfg.call, Due(cfg, expires));
  }

  datatype Turn = StillAwaited | Taken | Granted

  /** VacantStep, and which of the three it was. */
  lemma AwaitedStep(cfg: Config, w: World, a: Action, key: string, dead: string, expires: int, c: string) returns (turn: Turn)
    requires Valid(cfg, w) && AllOrderly(cfg, w) && Enabled(cfg, w, a) && Calm(a) && 2 * cfg.call < LOCK_TTL
    requires Awaited(cfg, w, key, dead, expires, c) && (a.Pass? ==> a.to <= w.nodes[c].deadline)
    ensures w.now <= Latest(cfg, expires)
    ensures turn.StillAwaited? ==> Awaited(cfg, Do(cfg, w, a), key, dead, expires, c)
    ensures turn.Taken? ==> Do(cfg, w, a).now == w.now && Led(cfg, Do(cfg, w, a), key)
    ensures turn.Granted? ==> a.Serve? && Claimed(cfg, Do(cfg, w, a), key, a.id, w.now + 2 * cfg.call)
  {
    VacantStep(cfg, w, a, key, dead, expires, c);
    OnItsWayInTime(cfg, w, expires, c);
    var w' := Do(cfg, w, a);
    turn := if Awaited(cfg, w', key, dead, expires, c) then StillAwaited
            else if w'.now == w.now && Led(cfg, w', key) then Taken else Granted;
  }

  lemma {:induction false} AwaitedGetsLeader(cfg: Config, w: World, acts: seq<Action>, key: string, dead: string, expires: int, c: string)
    requires Valid(cfg, w) && AllOrderly(cfg, w) && Runs(cfg, w, acts) && c in cfg.members && CalmRun(cfg, w, acts, c)
    requires Awaited(cfg, w, key, dead, expires, c) && 2 * cfg.call < LOCK_TTL
    requires End(cfg, w, acts).now > Due(cfg, expires)
    ensures LedBy(cfg, w, acts, key, Due(cfg, expires))
    decreases |acts|
  {
    if acts == [] {
      OnItsWayInTime(cfg, w, expires, c);
    } else {
      var turn := AwaitedStep(cfg, w, acts[0], key, dead, expires, c);
      if turn.Granted? {
        ClaimedInTime(cfg, w, acts, key, c, expires);
      } else if turn.StillAwaited? {
        OrderStep(cfg, w, acts[0]);
        AwaitedGetsLeader(cfg, Do(cfg, w, acts[0]), acts[1..], key, dead, expires, c);
      }
    }
  }

  /** A live follower, between two elections or in the middle of one. */
  predicate Follows(cfg: Config, w: World, c: string)
    requires Valid(cfg, w) && c in w.nodes
  {
    var n := w.nodes[c];
    !n.ctl.leader && !Tenured(n) && Seeking(n.ctl.phase) && w.now <= n.deadline <= w.now + Dwell(cfg, n.ctl.phase)
  }

  /** A leader has died while it held the lock, and a willing follower is alive. */
  predicate Orphaned(cfg: Config, w: World, dead: string, c: string)
    requires Valid(cfg, w)
  {
    && dead in cfg.members && w.nodes[dead].ctl.phase.Halted?
    && HeldBy(cfg.backend, w.store, Key(cfg, dead), dead, w.now)
    && c in cfg.members && Key(cfg, c) == Key(cfg, dead) && !cfg.members[c].remainFollower && c != dead
    && Follows(cfg, w, c)
  }

  lemma OrphanedIsAwaited(cfg: Config, w: World, dead: string, c: string)
    requires Valid(cfg, w) && AllOrderly(cfg, w) && Orphaned(cfg, w, dead, c)
    ensures Awaited(cfg, w, Key(cfg, dead), dead, w.store[Key(cfg, dead)].expires, c)
  {
    assert OrderlyNode(cfg, c, w.nodes[c]);
  }

  /** In every calm run that goes on long enough, and in which one willing follower keeps ticking, some
      controller holds the dead leader's lock and leads no later than one tick and six calls after the
      lease's end. */
  lemma BoundedTakeover(cfg: Config, w: World, acts: seq<Action>, dead: string, c: string, expires: int)
    requires Valid(cfg, w) && AllOrderly(cfg, w) && Runs(cfg, w, acts) && Orphaned(cfg, w, dead, c)
    requires expires == w.store[Key(cfg, dead)].expires && 2 * cfg.call < LOCK_TTL
    requires CalmRun(cfg, w, acts, c) && End(cfg, w, acts).now > Due(cfg, expires)
    ensures LedBy(cfg, w, acts, Key(cfg, dead), Due(cfg, expires))
  {
    OrphanedIsAwaited(cfg, w, dead, c);
    AwaitedGetsLeader(cfg, w, acts, Key(cfg, dead), dead, expires, c);
  }
}
