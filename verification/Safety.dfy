/**
  At most one leader: the lease budget, and the invariant behind it.
 */
module Safety {
  import opened Leases
  import opened Controllers
  import opened Election
  import opened Discipline

  /** The tenure's clock starts again. */
  predicate Restarts(clock: Clock, who: Who, c: Ctl, a: Answer) {
    if clock.Lease? then (c.phase.Acquiring? || c.phase.Renewing?) && Yes(a) else Sighted(who.id, c, a)
  }

  /** The controller is a leader whose lock is gone, and asks for it again. */
  predicate Reclaiming(c: Ctl) {
    c.leader && (c.phase.Acquiring? || (c.phase.Reading? && !c.phase.site.AfterLoss?))
  }

  /** Answers a controller gets while the lock is its own, from a storage that loses no write of a
      renewal whose read it answered. */
  predicate HolderAnswer(who: Who, c: Ctl, a: Answer) {
    && (c.phase.Checking? && a.Got? ==> Holder(a) == who.id && !Blank(who.id))
    && (c.phase.Renewing? ==> if a.Got? then Yes(a) else !a.conn)
  }

  lemma RestFallsReading(cfg: Config, clock: Clock, who: Who, c: Ctl, now: int, a: Answer, limit: int)
    requires Orderly(who, c) && InTenure(c) && c.phase.Reading?
    requires now + Rest(cfg, clock, c) <= limit
    requires clock.Lease? ==> !Reclaiming(c)
    ensures var c' := Resume(who, c, now, a);
            && (InTenure(c') ==> now + Dwell(cfg, c'.phase) + Rest(cfg, clock, c') <= limit)
            && (clock.Lease? && InTenure(c') ==> !Reclaiming(c'))
  {
  }

  /** Time spent is taken from the time left, in every phase and for every reply. */
  lemma RestFalls(cfg: Config, clock: Clock, who: Who, c: Ctl, now: int, a: Answer, limit: int)
    requires Orderly(who, c) && InTenure(c) && Busy(c.phase)
    requires now + Rest(cfg, clock, c) <= limit
    requires !Restarts(clock, who, c, a)
    requires clock.Lease? ==> !Reclaiming(c) && HolderAnswer(who, c, a)
    ensures var c' := Resume(who, c, now, a);
            && (InTenure(c') ==> now + Dwell(cfg, c'.phase) + Rest(cfg, clock, c') <= limit)
            && (clock.Lease? && InTenure(c') ==> !Reclaiming(c'))
  {
    match c.phase
    case Reading(site, k) => RestFallsReading(cfg, clock, who, c, now, a, limit);
    case Acquiring =>
    case Checking =>
    case Renewing =>
    case Measuring(_) =>
    case Reusing =>
    case Waiting =>
    case Starting =>
    case _ =>
  }

  /** The longest time from the grant or the last renewal of the lock to the end of the tenure. */
  function LeaseNeed(cfg: Config): int {
    MAX_WORKLOAD_WAIT + 3 * RENEW_INTERVAL + 2 * 3 * RETRY_SLEEP + 13 * cfg.call + cfg.reuse + cfg.start
  }

  /** A grant, a renewal or a sighting pays for its own answer and for the longest path after it. */
  lemma RestartsFit(cfg: Config, clock: Clock, who: Who, c: Ctl, now: int, a: Answer)
    requires Orderly(who, c) && Restarts(clock, who, c, a) && (clock.Lease? ==> !Reclaiming(c))
    ensures var c' := Resume(who, c, now, a);
            var need := cfg.call + Dwell(cfg, c'.phase) + Rest(cfg, clock, c');
            && InTenure(c')
            && (clock.Lease? ==> !Reclaiming(c') && need <= LeaseNeed(cfg))
            && (clock.Sight? ==> need <= Grace(cfg, SightingOf(c)))
  {
  }

  lemma RestIsTime(cfg: Config, clock: Clock, c: Ctl)
    ensures Rest(cfg, clock, c) >= 0 && Dwell(cfg, c.phase) >= 0
  {
  }

  lemma LeftIsTime(cfg: Config, clock: Clock, who: Who, n: Node)
    ensures Left(cfg, clock, who, n) >= 0
  {
    RestIsTime(cfg, clock, n.ctl);
    RestIsTime(cfg, clock, Heard(who, n));
  }

  // ---------------------------------------------------------------------------------------
  // The invariant
  // ---------------------------------------------------------------------------------------

  /** When an answer arrives only matters to what the controller remembers of the past. */
  lemma TimeIsImmaterial(who: Who, c: Ctl, now: int, later: int, a: Answer)
    ensures Resume(who, c, now, a).(past := c.past) == Resume(who, c, later, a).(past := c.past)
  {
    if c.phase.Reading? {
      ReadingTimeIsImmaterial(who, c, now, later, a);
    }
  }

  lemma ReadingTimeIsImmaterial(who: Who, c: Ctl, now: int, later: int, a: Answer)
    requires c.phase.Reading?
    ensures Resume(who, c, now, a).(past := c.past) == Resume(who, c, later, a).(past := c.past)
  {
  }

  predicate OrderlyNode(cfg: Config, id: string, n: Node)
    requires id in cfg.members
  {
    Orderly(WhoIs(cfg, id), n.ctl) && (n.reply.Some? ==> Busy(n.ctl.phase))
  }

  predicate AllOrderly(cfg: Config, w: World)
    requires Valid(cfg, w)
  {
    forall id :: id in w.nodes ==> OrderlyNode(cfg, id, w.nodes[id])
  }

  /** The Spanner store drops a row an instant earlier than the in-memory store. */
  function Margin(b: Backend): int {
    if b.Memory? then 0 else 1
  }

  /** The time a tenure can take fits into the lifetime of the lock. */
  predicate BudgetCloses(cfg: Config) {
    LeaseNeed(cfg) + Margin(cfg.backend) <= LOCK_TTL
  }

  /** A tenure is covered by the lock: it will end, or be renewed, before the lock expires. */
  predicate Covered(cfg: Config, w: World, id: string)
    requires Valid(cfg, w) && id in w.nodes
  {
    var n, key := w.nodes[id], Key(cfg, id);
    Tenured(n) ==>
      && !Reclaiming(n.ctl) && (InTenure(Heard(WhoIs(cfg, id), n)) ==> !Reclaiming(Heard(WhoIs(cfg, id), n)))
      && w.now <= n.deadline <= w.now + Dwell(cfg, n.ctl.phase)
      && key in w.store && w.store[key].value == id
      && n.deadline + Left(cfg, Lease, WhoIs(cfg, id), n) + Margin(cfg.backend) <= w.store[key].expires
  }

  predicate AllCovered(cfg: Config, w: World)
    requires Valid(cfg, w)
  {
    forall id :: id in w.nodes ==> Covered(cfg, w, id)
  }

  lemma CoveredHolds(cfg: Config, w: World, id: string)
    requires Valid(cfg, w) && id in w.nodes && Covered(cfg, w, id) && Tenured(w.nodes[id])
    ensures HeldBy(cfg.backend, w.store, Key(cfg, id), id, w.now)
  {
    LeftIsTime(cfg, Lease, WhoIs(cfg, id), w.nodes[id]);
  }

  lemma CoveredIsExclusive(cfg: Config, w: World)
    requires Valid(cfg, w) && AllCovered(cfg, w)
    ensures Exclusive(cfg, w)
  {
  }

  lemma HearKeepsOrder(cfg: Config, w: World, id: string)
    requires Valid(cfg, w) && AllOrderly(cfg, w) && Enabled(cfg, w, Hear(id))
    ensures OrderlyNode(cfg, id, Do(cfg, w, Hear(id)).nodes[id])
  {
    ResumeKeepsOrder(WhoIs(cfg, id), w.nodes[id].ctl, w.now, w.nodes[id].reply.value);
  }

  lemma ReactKeepsOrder(cfg: Config, w: World, id: string)
    requires Valid(cfg, w) && AllOrderly(cfg, w) && Enabled(cfg, w, React(id))
    ensures OrderlyNode(cfg, id, Do(cfg, w, React(id)).nodes[id])
  {
    EventsKeepOrder(WhoIs(cfg, id), w.nodes[id].ctl, w.nodes[id].glimpsed.value, false);
  }

  lemma TickersKeepOrder(cfg: Config, w: World, a: Action)
    requires Valid(cfg, w) && AllOrderly(cfg, w) && Enabled(cfg, w, a) && (a.Tick? || a.Yield? || a.Stop?)
    ensures OrderlyNode(cfg, a.id, Do(cfg, w, a).nodes[a.id])
  {
    EventsKeepOrder(WhoIs(cfg, a.id), w.nodes[a.id].ctl, "", a.Stop?);
  }

  lemma OtherActionsKeepOrder(cfg: Config, w: World, a: Action)
    requires Valid(cfg, w) && AllOrderly(cfg, w) && Enabled(cfg, w, a)
    requires a.Serve? || a.Glimpse? || a.Sicken? || a.Crash? || a.Restart?
    ensures OrderlyNode(cfg, a.id, Do(cfg, w, a).nodes[a.id])
  {
    NewbornOrderly(WhoIs(cfg, a.id));
  }

  lemma OrderStep(cfg: Config, w: World, a: Action)
    requires Valid(cfg, w) && AllOrderly(cfg, w) && Enabled(cfg, w, a)
    ensures AllOrderly(cfg, Do(cfg, w, a))
  {
    forall id | id in w.nodes ensures OrderlyNode(cfg, id, Do(cfg, w, a).nodes[id]) {
      if !Acts(a, id) {
        BystanderUnmoved(cfg, w, a, id);
      } else if a.Hear? {
        HearKeepsOrder(cfg, w, id);
      } else if a.React? {
        ReactKeepsOrder(cfg, w, id);
      } else if a.Tick? || a.Yield? || a.Stop? {
        TickersKeepOrder(cfg, w, a);
      } else {
        OtherActionsKeepOrder(cfg, w, a);
      }
    }
  }

  lemma StartIsOrderly(cfg: Config, w: World)
    requires Start(cfg, w)
    ensures AllOrderly(cfg, w) && AllCovered(cfg, w)
  {
  }

  /** Whatever the storage does: in every run, a nonzero failure count means Degraded and the
      monitor's gate is shut, a controller told to remain a follower never leads, and workloads
      run exactly while their controller leads. */
  lemma {:induction false} RunsAreOrderly(cfg: Config, w: World, acts: seq<Action>)
    requires Valid(cfg, w) && AllOrderly(cfg, w) && Runs(cfg, w, acts)
    ensures AllOrderly(cfg, End(cfg, w, acts))
    ensures forall id :: id in cfg.members ==>
                           var c := End(cfg, w, acts).nodes[id].ctl;
                           && (c.failures > 0 ==> !Gate(c))
                           && (cfg.members[id].remainFollower ==> !c.leader)
                           && (c.phase.Idle? ==> (c.started <==> c.leader) && (c.leader ==> c.gauge.monLeader && c.failures < MAX_CONSECUTIVE_DB_FAILURES))
    decreases |acts|
  {
    if acts != [] {
      OrderStep(cfg, w, acts[0]);
      RunsAreOrderly(cfg, Do(cfg, w, acts[0]), acts[1..]);
    } else {
      forall id | id in cfg.members
        ensures var c := w.nodes[id].ctl;
                && (c.failures > 0 ==> !Gate(c))
                && (cfg.members[id].remainFollower ==> !c.leader)
                && (c.phase.Idle? ==> (c.started <==> c.leader) && (c.leader ==> c.gauge.monLeader && c.failures < MAX_CONSECUTIVE_DB_FAILURES))
      {
        OrderlyMeans(WhoIs(cfg, id), w.nodes[id].ctl);
      }
    }
  }

  /** Nobody else's step touches the lock of a tenure. */
  lemma LockUntouched(cfg: Config, w: World, a: Action, id: string)
    requires Valid(cfg, w) && Enabled(cfg, w, a) && id in w.nodes
    requires Covered(cfg, w, id) && Tenured(w.nodes[id])
    requires a.Serve? ==> a.id != id
    ensures var key := Key(cfg, id);
            key in Do(cfg, w, a).store && Do(cfg, w, a).store[key] == w.store[key]
  {
    CoveredHolds(cfg, w, id);
    match a
    case Serve(other, out) =>
      var request := Request(WhoIs(cfg, other), w.nodes[other].ctl.phase, Key(cfg, other));
      if request.Some? {
        OwnershipFrame(cfg.backend, w.store, w.now, request.value, Key(cfg, id));
      }
    case Cleanup(keys) => OwnershipFrame(cfg.backend, w.store, w.now, Purge(keys), Key(cfg, id));
    case _ =>
  }

  /** The controller's own call, in the middle of its tenure. */
  lemma OwnCall(cfg: Config, w: World, id: string, out: Outcome)
    requires Valid(cfg, w) && AllOrderly(cfg, w) && Enabled(cfg, w, Serve(id, out)) && cfg.wholeTick
    requires Covered(cfg, w, id) && InTenure(w.nodes[id].ctl)
    ensures var (store, a) := Served(cfg, w, id, out);
            var c, key := w.nodes[id].ctl, Key(cfg, id);
            && HolderAnswer(WhoIs(cfg, id), c, a)
            && key in store && store[key].value == id
            && store[key].expires in {w.store[key].expires, w.now + LOCK_TTL}
            && (Restarts(Lease, WhoIs(cfg, id), c, a) ==> store[key].expires == w.now + LOCK_TTL)
  {
    CoveredHolds(cfg, w, id);
  }

  lemma RenewalCovers(cfg: Config, w: World, id: string, out: Outcome)
    requires Valid(cfg, w) && AllOrderly(cfg, w) && Enabled(cfg, w, Serve(id, out)) && cfg.wholeTick && BudgetCloses(cfg)
    requires Covered(cfg, w, id) && InTenure(w.nodes[id].ctl)
    requires Restarts(Lease, WhoIs(cfg, id), w.nodes[id].ctl, Served(cfg, w, id, out).1)
    ensures Covered(cfg, Do(cfg, w, Serve(id, out)), id)
  {
    OwnCall(cfg, w, id, out);
    RestartsFit(cfg, Lease, WhoIs(cfg, id), w.nodes[id].ctl, w.nodes[id].deadline, Served(cfg, w, id, out).1);
  }

  /** A leader's call is served: what comes back leaves it covered until it hears it, and after. */
  lemma TenureStep(cfg: Config, w: World, id: string, out: Outcome)
    requires Valid(cfg, w) && AllOrderly(cfg, w) && Enabled(cfg, w, Serve(id, out)) && cfg.wholeTick && BudgetCloses(cfg)
    requires Covered(cfg, w, id) && InTenure(w.nodes[id].ctl)
    ensures Covered(cfg, Do(cfg, w, Serve(id, out)), id)
  {
    var who, n, key := WhoIs(cfg, id), w.nodes[id], Key(cfg, id);
    var (store, a) := Served(cfg, w, id, out);
    if Restarts(Lease, who, n.ctl, a) {
      RenewalCovers(cfg, w, id, out);
    } else {
      OwnCall(cfg, w, id, out);
      RestIsTime(cfg, Lease, n.ctl);
      RestFits(cfg, n.ctl);
      RestFalls(cfg, Lease, who, n.ctl, n.deadline, a, store[key].expires - Margin(cfg.backend));
    }
  }

  lemma GrantCovers(cfg: Config, w: World, id: string, out: Outcome)
    requires Valid(cfg, w) && AllOrderly(cfg, w) && Enabled(cfg, w, Serve(id, out)) && BudgetCloses(cfg)
    requires var c := w.nodes[id].ctl; !InTenure(c) && c.phase.Acquiring? && Yes(Served(cfg, w, id, out).1)
    ensures Covered(cfg, Do(cfg, w, Serve(id, out)), id)
  {
    assert OrderlyNode(cfg, id, w.nodes[id]);
    RestartsFit(cfg, Lease, WhoIs(cfg, id), w.nodes[id].ctl, w.now + cfg.call, Served(cfg, w, id, out).1);
  }

  /** A follower's call: only the grant of the lock begins a tenure. */
  lemma FollowerStep(cfg: Config, w: World, id: string, out: Outcome)
    requires Valid(cfg, w) && AllOrderly(cfg, w) && Enabled(cfg, w, Serve(id, out)) && BudgetCloses(cfg)
    requires !InTenure(w.nodes[id].ctl)
    ensures Covered(cfg, Do(cfg, w, Serve(id, out)), id)
  {
    if w.nodes[id].ctl.phase.Acquiring? && Yes(Served(cfg, w, id, out).1) {
      GrantCovers(cfg, w, id, out);
    }
  }

  lemma TenureBegins(who: Who, c: Ctl, now: int, a: Answer)
    requires Orderly(who, c) && !InTenure(c) && InTenure(Resume(who, c, now, a))
    ensures c.phase.Acquiring? && Yes(a) && !c.leader
  {
  }

  lemma RestFits(cfg: Config, c: Ctl)
    requires InTenure(c) && !Reclaiming(c) && c.failures >= 0
    ensures Rest(cfg, Lease, c) + cfg.call <= LeaseNeed(cfg)
  {
  }

  /** Hearing an answer spends the time that was set aside for it. */
  lemma HearStep(cfg: Config, w: World, id: string)
    requires Valid(cfg, w) && AllOrderly(cfg, w) && Enabled(cfg, w, Hear(id)) && Covered(cfg, w, id)
    ensures Covered(cfg, Do(cfg, w, Hear(id)), id)
  {
    var who, n := WhoIs(cfg, id), w.nodes[id];
    TimeIsImmaterial(who, n.ctl, w.now, n.deadline, n.reply.value);
    var c := Resume(who, n.ctl, w.now, n.reply.value);
    RestIsTime(cfg, Lease, c);
    if InTenure(c) && !InTenure(n.ctl) {
      TenureBegins(who, n.ctl, w.now, n.reply.value);
    }
  }

  /** Tickers and monitors never begin a tenure, and never ask more time of one. */
  lemma TickStep(cfg: Config, w: World, id: string)
    requires Valid(cfg, w) && AllOrderly(cfg, w) && Enabled(cfg, w, Tick(id)) && Covered(cfg, w, id)
    ensures Covered(cfg, Do(cfg, w, Tick(id)), id)
  {
  }

  lemma ReactStep(cfg: Config, w: World, id: string)
    requires Valid(cfg, w) && AllOrderly(cfg, w) && Enabled(cfg, w, React(id)) && Covered(cfg, w, id)
    ensures Covered(cfg, Do(cfg, w, React(id)), id)
  {
  }

  lemma OwnEvent(cfg: Config, w: World, a: Action, id: string)
    requires Valid(cfg, w) && AllOrderly(cfg, w) && Enabled(cfg, w, a) && id in w.nodes
    requires Acts(a, id) && !a.Serve? && !a.Hear? && !a.Tick? && !a.React? && Covered(cfg, w, id)
    ensures Covered(cfg, Do(cfg, w, a), id)
  {
  }

  lemma CoverStep(cfg: Config, w: World, a: Action, id: string)
    requires Valid(cfg, w) && AllOrderly(cfg, w) && AllCovered(cfg, w) && Enabled(cfg, w, a)
    requires BudgetCloses(cfg) && cfg.wholeTick && id in w.nodes
    ensures Covered(cfg, Do(cfg, w, a), id)
  {
    if !Acts(a, id) {
      BystanderUnmoved(cfg, w, a, id);
      if Tenured(w.nodes[id]) {
        LockUntouched(cfg, w, a, id);
      }
    } else if a.Serve? {
      if InTenure(w.nodes[id].ctl) {
        TenureStep(cfg, w, id, a.out);
      } else {
        FollowerStep(cfg, w, id, a.out);
      }
    } else if a.Hear? {
      HearStep(cfg, w, id);
    } else if a.Tick? {
      TickStep(cfg, w, id);
    } else if a.React? {
      ReactStep(cfg, w, id);
    } else {
      OwnEvent(cfg, w, a, id);
    }
  }

  /** In every run of a system whose budget closes, from any store, each tenure is covered by the
      lock, so no lock ever has two leaders. */
  lemma {:induction false} RunsAreCovered(cfg: Config, w: World, acts: seq<Action>)
    requires Valid(cfg, w) && AllOrderly(cfg, w) && AllCovered(cfg, w) && Runs(cfg, w, acts)
    requires BudgetCloses(cfg) && cfg.wholeTick
    ensures AllOrderly(cfg, End(cfg, w, acts)) && AllCovered(cfg, End(cfg, w, acts))
    ensures Exclusive(cfg, End(cfg, w, acts))
    decreases |acts|
  {
    if acts != [] {
      var w' := Do(cfg, w, acts[0]);
      OrderStep(cfg, w, acts[0]);
      forall id | id in w'.nodes ensures Covered(cfg, w', id) {
        CoverStep(cfg, w, acts[0], id);
      }
      RunsAreCovered(cfg, w', acts[1..]);
    } else {
      CoveredIsExclusive(cfg, w);
    }
  }
}
