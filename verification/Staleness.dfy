/**
  What remains true of a leader without any assumption on the storage.
 */
module Staleness {
  import opened Leases
  import opened Controllers
  import opened Election
  import opened Safety

  /** A controller in its tenure has seen itself as the holder not too long ago, and never after
      somebody else took the lock. */
  predicate Current(cfg: Config, w: World, id: string)
    requires Valid(cfg, w) && id in w.nodes
  {
    var n, key := w.nodes[id], Key(cfg, id);
    Tenured(n) ==>
      && n.sight <= w.now <= n.deadline <= w.now + Dwell(cfg, n.ctl.phase)
      && n.deadline + Left(cfg, Sight, WhoIs(cfg, id), n) <= n.sight + Grace(cfg, n.seen)
      && (key in w.store && w.store[key].value != id ==> n.sight <= w.store[key].created)
  }

  predicate AllCurrent(cfg: Config, w: World)
    requires Valid(cfg, w)
  {
    forall id :: id in w.nodes ==> Current(cfg, w, id)
  }

  /** A record changes hands only by being created anew. */
  lemma RecordsEvolve(cfg: Config, w: World, a: Action, key: string)
    requires Valid(cfg, w) && Enabled(cfg, w, a)
    ensures var store := Do(cfg, w, a).store;
            key in store ==>
              || store[key].created == w.now
              || (key in w.store && store[key].created == w.store[key].created && store[key].value == w.store[key].value)
  {
  }

  /** Seeing oneself as the holder means being the holder. */
  lemma SightIsTrue(cfg: Config, w: World, id: string, out: Outcome)
    requires Valid(cfg, w) && Enabled(cfg, w, Serve(id, out))
    ensures var (store, a) := Served(cfg, w, id, out);
            Sighted(id, w.nodes[id].ctl, a) ==> Key(cfg, id) in store && store[Key(cfg, id)].value == id
  {
  }

  /** The controller sees itself: its time starts again, the answer's way included. */
  lemma SightingStep(cfg: Config, w: World, id: string, out: Outcome)
    requires Valid(cfg, w) && AllOrderly(cfg, w) && Enabled(cfg, w, Serve(id, out)) && Current(cfg, w, id)
    requires Sighted(id, w.nodes[id].ctl, Served(cfg, w, id, out).1)
    ensures Current(cfg, Do(cfg, w, Serve(id, out)), id)
  {
    var n' := Do(cfg, w, Serve(id, out)).nodes[id];
    SightIsTrue(cfg, w, id, out);
    RestartsFit(cfg, Sight, WhoIs(cfg, id), w.nodes[id].ctl, n'.deadline, Served(cfg, w, id, out).1);
  }

  lemma SightlessStep(cfg: Config, w: World, id: string, out: Outcome)
    requires Valid(cfg, w) && AllOrderly(cfg, w) && Enabled(cfg, w, Serve(id, out)) && Current(cfg, w, id)
    requires !Sighted(id, w.nodes[id].ctl, Served(cfg, w, id, out).1)
    ensures Current(cfg, Do(cfg, w, Serve(id, out)), id)
  {
    var who, n, a := WhoIs(cfg, id), w.nodes[id], Served(cfg, w, id, out).1;
    RecordsEvolve(cfg, w, Serve(id, out), Key(cfg, id));
    if InTenure(n.ctl) {
      RestIsTime(cfg, Sight, n.ctl);
      RestFalls(cfg, Sight, who, n.ctl, n.deadline, a, n.sight + Grace(cfg, n.seen));
    }
  }

  lemma HearingStep(cfg: Config, w: World, id: string)
    requires Valid(cfg, w) && AllOrderly(cfg, w) && Enabled(cfg, w, Hear(id)) && Current(cfg, w, id)
    ensures Current(cfg, Do(cfg, w, Hear(id)), id)
  {
    var who, n := WhoIs(cfg, id), w.nodes[id];
    TimeIsImmaterial(who, n.ctl, w.now, n.deadline, n.reply.value);
    var c := Resume(who, n.ctl, w.now, n.reply.value);
    RestIsTime(cfg, Sight, c);
    if InTenure(c) && !InTenure(n.ctl) {
      TenureBegins(who, n.ctl, w.now, n.reply.value);
    }
  }

  lemma TickingStep(cfg: Config, w: World, id: string)
    requires Valid(cfg, w) && AllOrderly(cfg, w) && Enabled(cfg, w, Tick(id)) && Current(cfg, w, id)
    ensures Current(cfg, Do(cfg, w, Tick(id)), id)
  {
  }

  lemma ReactingStep(cfg: Config, w: World, id: string)
    requires Valid(cfg, w) && AllOrderly(cfg, w) && Enabled(cfg, w, React(id)) && Current(cfg, w, id)
    ensures Current(cfg, Do(cfg, w, React(id)), id)
  {
  }

  lemma OwnSightEvent(cfg: Config, w: World, a: Action, id: string)
    requires Valid(cfg, w) && AllOrderly(cfg, w) && Enabled(cfg, w, a) && id in w.nodes
    requires Acts(a, id) && !a.Serve? && !a.Hear? && !a.Tick? && !a.React? && Current(cfg, w, id)
    ensures Current(cfg, Do(cfg, w, a), id)
  {
  }

  lemma SightStep(cfg: Config, w: World, a: Action, id: string)
    requires Valid(cfg, w) && AllOrderly(cfg, w) && AllCurrent(cfg, w) && Enabled(cfg, w, a) && id in w.nodes
    ensures Current(cfg, Do(cfg, w, a), id)
  {
    if !Acts(a, id) {
      BystanderUnmoved(cfg, w, a, id);
      RecordsEvolve(cfg, w, a, Key(cfg, id));
    } else if a.Serve? {
      if Sighted(id, w.nodes[id].ctl, Served(cfg, w, id, a.out).1) {
        SightingStep(cfg, w, id, a.out);
      } else {
        SightlessStep(cfg, w, id, a.out);
      }
    } else if a.Hear? {
      HearingStep(cfg, w, id);
    } else if a.Tick? {
      TickingStep(cfg, w, id);
    } else if a.React? {
      ReactingStep(cfg, w, id);
    } else {
      OwnSightEvent(cfg, w, a, id);
    }
  }

  lemma {:induction false} RunsAreCurrent(cfg: Config, w: World, acts: seq<Action>)
    requires Valid(cfg, w) && AllOrderly(cfg, w) && AllCurrent(cfg, w) && Runs(cfg, w, acts)
    ensures AllOrderly(cfg, End(cfg, w, acts)) && AllCurrent(cfg, End(cfg, w, acts))
    decreases |acts|
  {
    if acts != [] {
      var w' := Do(cfg, w, acts[0]);
      OrderStep(cfg, w, acts[0]);
      forall id | id in w'.nodes ensures Current(cfg, w', id) {
        SightStep(cfg, w, acts[0], id);
      }
      RunsAreCurrent(cfg, w', acts[1..]);
    }
  }

  /** The last sighting was a renewal's check, a lock taken again, or the grant the tenure began with. */
  lemma Graces(cfg: Config)
    ensures Grace(cfg, ByCheck) == 21_000 + 15 * cfg.call
    ensures Grace(cfg, ByReclaim) == 24_000 + 17 * cfg.call
    ensures Grace(cfg, ByGrant) == 84_000 + 17 * cfg.call + cfg.reuse + cfg.start
  {
  }

  /** A leader's check that finds its own name is a sighting by check. */
  lemma CheckIsSighting(cfg: Config, w: World, id: string)
    requires Valid(cfg, w) && Enabled(cfg, w, Serve(id, Answered)) && w.nodes[id].ctl.phase.Checking?
    requires HeldBy(cfg.backend, w.store, Key(cfg, id), id, w.now)
    ensures var n := Do(cfg, w, Serve(id, Answered)).nodes[id]; n.seen == ByCheck && n.sight == w.now
  {
  }

  /** Within a tenure the grant is never the last sighting again. */
  lemma SightingsAdvance(cfg: Config, w: World, a: Action, id: string)
    requires Valid(cfg, w) && AllOrderly(cfg, w) && Enabled(cfg, w, a) && id in w.nodes
    requires Tenured(w.nodes[id]) && w.nodes[id].seen != ByGrant
    ensures var n := Do(cfg, w, a).nodes[id]; Tenured(n) ==> n.seen != ByGrant
  {
    if !Acts(a, id) {
      BystanderUnmoved(cfg, w, a, id);
    }
  }

  predicate StaysTenured(cfg: Config, w: World, acts: seq<Action>, id: string)
    requires Valid(cfg, w) && Runs(cfg, w, acts) && id in w.nodes
    decreases |acts|
  {
    Tenured(w.nodes[id]) && (acts == [] || StaysTenured(cfg, Do(cfg, w, acts[0]), acts[1..], id))
  }

  /** Once a tenure has passed a check, the long grace of the hand-over is over for good. */
  lemma {:induction false} CheckedTenuresStaySo(cfg: Config, w: World, acts: seq<Action>, id: string)
    requires Valid(cfg, w) && AllOrderly(cfg, w) && Runs(cfg, w, acts) && id in w.nodes
    requires StaysTenured(cfg, w, acts, id) && w.nodes[id].seen != ByGrant
    ensures End(cfg, w, acts).nodes[id].seen != ByGrant
    decreases |acts|
  {
    if acts != [] {
      SightingsAdvance(cfg, w, acts[0], id);
      OrderStep(cfg, w, acts[0]);
      CheckedTenuresStaySo(cfg, Do(cfg, w, acts[0]), acts[1..], id);
    }
  }

  /** In every run, with every kind of storage failure: a leader has been seen as the holder within
      the grace of its last sighting, and a leader whose lock another controller has taken clears
      its flag within that grace from the moment of the taking. */
  lemma BoundedOverlap(cfg: Config, w: World, acts: seq<Action>, id: string)
    requires Start(cfg, w) && Runs(cfg, w, acts) && id in cfg.members
    requires Leading(End(cfg, w, acts).nodes[id].ctl)
    ensures var w', key := End(cfg, w, acts), Key(cfg, id);
            var n := w'.nodes[id];
            var grace := match n.seen
                         case ByCheck => 21_000 + 15 * cfg.call
                         case ByReclaim => 24_000 + 17 * cfg.call
                         case ByGrant => 84_000 + 17 * cfg.call + cfg.reuse + cfg.start;
            && n.sight <= w'.now <= n.sight + grace
            && (key in w'.store && w'.store[key].value != id ==> w'.now <= w'.store[key].created + grace)
  {
    StartIsOrderly(cfg, w);
    RunsAreCurrent(cfg, w, acts);
    Graces(cfg);
    var n := End(cfg, w, acts).nodes[id];
    assert Current(cfg, End(cfg, w, acts), id);
    LeftIsTime(cfg, Sight, WhoIs(cfg, id), n);
  }

  /** What a tick may add to the time since the last sighting: the answers still to come. */
  function Surcharge(cfg: Config, seen: Sighting): int {
    match seen
    case ByCheck => 2 * cfg.call
    case ByReclaim => FourReadTime(cfg)
    case ByGrant => FourReadTime(cfg) + cfg.reuse + MAX_WORKLOAD_WAIT + cfg.start
  }

  /** One interval and one call for each tolerated failure, and for one tick more. */
  function Age(cfg: Config, failures: nat, seen: Sighting): int {
    (failures + 1) * (RENEW_INTERVAL + cfg.call) + Surcharge(cfg, seen)
  }

  lemma IdleRest(cfg: Config, c: Ctl, seen: Sighting)
    requires c.phase.Idle? && c.failures <= 2
    ensures Grace(cfg, seen) - Rest(cfg, Sight, c) == Age(cfg, c.failures, seen)
  {
    assert c.failures == 0 || c.failures == 1 || c.failures == 2;
  }

  /** A leader between two ticks. */
  predicate Resting(n: Node) {
    n.ctl.leader && n.ctl.phase.Idle?
  }

  /** It has tolerated fewer than three failures, and its last sighting is no older than that allows. */
  predicate Young(cfg: Config, now: int, n: Node) {
    n.ctl.failures < MAX_CONSECUTIVE_DB_FAILURES && now <= n.sight + Age(cfg, n.ctl.failures, n.seen)
  }

  lemma CurrentAtRest(cfg: Config, w: World, id: string)
    requires Valid(cfg, w) && id in w.nodes && OrderlyNode(cfg, id, w.nodes[id]) && Current(cfg, w, id)
    requires Resting(w.nodes[id])
    ensures Young(cfg, w.now, w.nodes[id])
  {
    IdleRest(cfg, w.nodes[id].ctl, w.nodes[id].seen);
  }

  /** In every run, with every kind of storage failure. */
  lemma StalenessByFailures(cfg: Config, w: World, acts: seq<Action>, id: string)
    requires Start(cfg, w) && Runs(cfg, w, acts) && id in cfg.members
    requires Resting(End(cfg, w, acts).nodes[id])
    ensures Young(cfg, End(cfg, w, acts).now, End(cfg, w, acts).nodes[id])
  {
    StartIsOrderly(cfg, w);
    RunsAreCurrent(cfg, w, acts);
    CurrentAtRest(cfg, End(cfg, w, acts), id);
  }
}
