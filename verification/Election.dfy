/**
  Any number of leader controllers around one lock store, on one clock.

  A world moves by actions: time passes, the storage serves one controller's pending call, the
  controller hears the answer, a ticker fires, a controller crashes. A controller in a tenure has
  a deadline for its next move; time does not pass beyond it. The deadlines come from the
  constants of pkg/leader/leader.go and from three bounds of the environment: `call` for one storage
  call, `reuse` for looking at the workloads of a restarted leader, and `start` for starting them. A tenure begins when the storage grants the lock, not
  when the controller hears of it.
 */
module Election {
  import opened Leases
  import opened Wrappers
  import opened Controllers
  import opened Discipline

  datatype Member = Member(tenant: string, remainFollower: bool)

  datatype Config = Config(
    backend: Backend,
    members: map<string, Member>,
    call: nat,          // longest storage call, and longest time from a grant to its answer
    reuse: nat,         // longest check whether a restarted leader can keep its workloads
    start: nat,         // longest start of the workloads
    wholeTick: bool,    // a storage that answered the read of a renewal does not lose its write
    sureRelease: bool)  // a release call is always answered

  /** How a controller last saw itself as the holder. */
  datatype Sighting = ByGrant | ByCheck | ByReclaim

  datatype Node = Node(
    ctl: Ctl,
    reply: Option<Answer>,  // the pending call has been served, and its answer is on the way
    deadline: int,
    glimpsed: Option<string>,  // the holder the lock monitor has read, not acted on yet
    sick: bool,                // the health monitor has seen an unhealthy cluster as leader
    sight: int,                // when the storage last showed the controller as the holder
    seen: Sighting)            // and in which call

  datatype World = World(now: int, store: Locks, nodes: map<string, Node>)

  /** How a call ends. A call whose answer is lost may have taken effect or not. */
  datatype Outcome = Answered | Broken(conn: bool, applied: bool)

  datatype Action =
    | Pass(to: int)
    | Tick(id: string)
    | Serve(id: string, out: Outcome)  // the pending call takes effect, or is lost
    | Hear(id: string)                 // its answer arrives
    | Glimpse(id: string)  // the lock monitor reads
    | React(id: string)    // and acts, once it has the mutex
    | Sicken(id: string)   // the health monitor sees an unhealthy cluster
    | Yield(id: string)    // and gives the lock back, once it has the mutex
    | Stop(id: string)
    | Crash(id: string)
    | Restart(id: string)
    | Cleanup(keys: set<string>)

  // ---------------------------------------------------------------------------------------
  // Worlds and actions
  // ---------------------------------------------------------------------------------------

  function WhoIs(cfg: Config, id: string): Who
    requires id in cfg.members
  {
    Who(id, cfg.members[id].remainFollower)
  }

  function Key(cfg: Config, id: string): string
    requires id in cfg.members
  {
    LockKey(cfg.members[id].tenant)
  }

  predicate Valid(cfg: Config, w: World) {
    w.nodes.Keys == cfg.members.Keys && "" !in cfg.members
  }

  predicate Start(cfg: Config, w: World) {
    Valid(cfg, w) && forall id :: id in w.nodes ==> w.nodes[id].ctl == Newborn && w.nodes[id].reply.None?
  }

  /** A controller that takes itself for the leader, and has not begun to give the lock back. */
  predicate Leading(c: Ctl) {
    c.leader && !Releasing(c.phase)
  }

  /** From the moment a controller hears that it has the lock until its tenure ends. */
  predicate InTenure(c: Ctl) {
    Leading(c) || (c.phase.Reading? && c.phase.site.AfterAcquire?)
  }

  /** From the moment the lock is granted. */
  predicate Tenured(n: Node) {
    InTenure(n.ctl) || (n.ctl.phase.Acquiring? && n.reply.Some? && Yes(n.reply.value))
  }

  /** How long a controller may take for the move it is about to make. */
  function Dwell(cfg: Config, phase: Phase): int {
    match phase
    case Idle => RENEW_INTERVAL
    case Reading(_, k) => if k == 0 then cfg.call else RETRY_SLEEP + cfg.call
    case Reusing => cfg.reuse
    case Waiting => MAX_WORKLOAD_WAIT
    case Starting => cfg.start
    case _ => cfg.call
  }

  function Served(cfg: Config, w: World, id: string, out: Outcome): (Locks, Answer)
    requires Valid(cfg, w) && id in w.nodes
  {
    match Request(WhoIs(cfg, id), w.nodes[id].ctl.phase, Key(cfg, id))
    case None => (w.store, if out.Answered? then Got(Flag(true)) else Failed(out.conn))
    case Some(op) =>
      var (m, r) := Apply(cfg.backend, w.store, w.now, op);
      if out.Answered? then (m, Got(r))
      else (if out.applied then m else w.store, Failed(out.conn))
  }

  predicate Enabled(cfg: Config, w: World, a: Action)
    requires Valid(cfg, w)
  {
    match a
    case Pass(to) => w.now <= to && forall id :: id in w.nodes && Tenured(w.nodes[id]) ==> to <= w.nodes[id].deadline
    case Tick(id) => id in w.nodes && w.nodes[id].ctl.phase.Idle?
    case Serve(id, out) =>
      && id in w.nodes && Busy(w.nodes[id].ctl.phase) && w.nodes[id].reply.None?
      && (cfg.wholeTick && w.nodes[id].ctl.phase.Renewing? && out.Broken? ==> !out.conn)
      && (cfg.sureRelease && w.nodes[id].ctl.phase.ReleaseCall? ==> out.Answered?)
    case Hear(id) => id in w.nodes && w.nodes[id].reply.Some?
    case Glimpse(id) => id in w.nodes && !w.nodes[id].ctl.phase.Halted?
    case React(id) => id in w.nodes && w.nodes[id].ctl.phase.Idle? && w.nodes[id].glimpsed.Some?
    case Sicken(id) => id in w.nodes && w.nodes[id].ctl.leader
    case Yield(id) => id in w.nodes && w.nodes[id].ctl.phase.Idle? && w.nodes[id].sick
    case Stop(id) => id in w.nodes && w.nodes[id].ctl.phase.Idle?
    case Crash(id) => id in w.nodes
    case Restart(id) => id in w.nodes && w.nodes[id].ctl.phase.Halted?
    case Cleanup(_) => true
  }

  /** A node moves on; its next move is due a dwell later. */
  function Moved(cfg: Config, w: World, n: Node, c: Ctl): Node {
    n.(ctl := c, reply := None, deadline := w.now + Dwell(cfg, c.phase))
  }

  /** The answer shows the controller as the holder. */
  predicate Sighted(id: string, c: Ctl, a: Answer) {
    (c.phase.Acquiring? && Yes(a)) || (c.phase.Checking? && Holder(a) == id)
  }

  function SightingOf(c: Ctl): Sighting {
    if c.phase.Checking? then ByCheck else if c.leader then ByReclaim else ByGrant
  }

  /** The call has been served. What a grant started must be heard of within `call`, however long
      the request was under way before. */
  function ServedNode(cfg: Config, w: World, id: string, a: Answer): Node
    requires Valid(cfg, w) && id in w.nodes
  {
    var n := w.nodes[id];
    var n' := n.(reply := Some(a));
    if Sighted(id, n.ctl, a) then
      n'.(sight := w.now, seen := SightingOf(n.ctl),
          deadline := if InTenure(n.ctl) then n.deadline else w.now + cfg.call)
    else n'
  }

  function Glimpsed(cfg: Config, w: World, id: string): Option<string>
    requires Valid(cfg, w) && id in w.nodes
  {
    var key := Key(cfg, id);
    if Live(cfg.backend, w.store, key, w.now) then Some(w.store[key].value) else w.nodes[id].glimpsed
  }

  function Do(cfg: Config, w: World, a: Action): (w': World)
    requires Valid(cfg, w) && Enabled(cfg, w, a)
    ensures Valid(cfg, w')
  {
    match a
    case Pass(to) => w.(now := to)
    case Tick(id) => Put(w, id, Moved(cfg, w, w.nodes[id], BeginTick(w.nodes[id].ctl)))
    case Serve(id, out) =>
      var (store, answer) := Served(cfg, w, id, out);
      Put(w, id, ServedNode(cfg, w, id, answer)).(store := store)
    case Hear(id) =>
      var n := w.nodes[id];
      Put(w, id, Moved(cfg, w, n, Resume(WhoIs(cfg, id), n.ctl, w.now, n.reply.value)))
    case Glimpse(id) => Put(w, id, w.nodes[id].(glimpsed := Glimpsed(cfg, w, id)))
    case React(id) =>
      var n := w.nodes[id];
      var c := Watched(WhoIs(cfg, id), n.ctl, n.glimpsed.value);
      Put(w, id, (if c == n.ctl then n else Moved(cfg, w, n, c)).(glimpsed := None))
    case Sicken(id) => Put(w, id, w.nodes[id].(sick := true))
    case Yield(id) => Put(w, id, Moved(cfg, w, w.nodes[id], BeginRelease(w.nodes[id].ctl, false)).(sick := false))
    case Stop(id) =>
      var n := w.nodes[id];
      Put(w, id, Moved(cfg, w, n, if n.ctl.leader then BeginRelease(n.ctl, true) else n.ctl.(phase := Halted, halting := true)))
    case Crash(id) =>
      Put(w, id, w.nodes[id].(ctl := Newborn.(phase := Halted), reply := None, glimpsed := None, sick := false))
    case Restart(id) =>
      Put(w, id, w.nodes[id].(ctl := Newborn, reply := None, glimpsed := None, sick := false))
    case Cleanup(keys) => w.(store := Apply(cfg.backend, w.store, w.now, Purge(keys)).0)
  }

  function Put(w: World, id: string, n: Node): World {
    w.(nodes := w.nodes[id := n])
  }

  /** The controller whose step it is. */
  predicate Acts(a: Action, id: string) {
    !a.Pass? && !a.Cleanup? && a.id == id
  }

  lemma BystanderUnmoved(cfg: Config, w: World, a: Action, id: string)
    requires Valid(cfg, w) && Enabled(cfg, w, a) && id in w.nodes && !Acts(a, id)
    ensures Do(cfg, w, a).nodes[id] == w.nodes[id]
    ensures w.now <= Do(cfg, w, a).now
    ensures Tenured(w.nodes[id]) && w.now <= w.nodes[id].deadline ==> Do(cfg, w, a).now <= w.nodes[id].deadline
  {
  }

  // ---------------------------------------------------------------------------------------
  // Runs
  // ---------------------------------------------------------------------------------------

  predicate Runs(cfg: Config, w: World, acts: seq<Action>)
    requires Valid(cfg, w)
    decreases |acts|
  {
    acts == [] || (Enabled(cfg, w, acts[0]) && Runs(cfg, Do(cfg, w, acts[0]), acts[1..]))
  }

  function End(cfg: Config, w: World, acts: seq<Action>): (w': World)
    requires Valid(cfg, w) && Runs(cfg, w, acts)
    ensures Valid(cfg, w')
    decreases |acts|
  {
    if acts == [] then w else End(cfg, Do(cfg, w, acts[0]), acts[1..])
  }

  /** At most one leader per lock. */
  predicate Exclusive(cfg: Config, w: World)
    requires Valid(cfg, w)
  {
    forall a, b :: a in w.nodes && b in w.nodes && a != b && Leading(w.nodes[a].ctl) && Leading(w.nodes[b].ctl)
                   ==> Key(cfg, a) != Key(cfg, b)
  }

  // ---------------------------------------------------------------------------------------
  // The time a tenure can go on without a renewal
  // ---------------------------------------------------------------------------------------

  /** Four reads and the pauses between them. */
  function FourReadTime(cfg: Config): int {
    4 * cfg.call + 3 * RETRY_SLEEP
  }

  function RetryTime(cfg: Config, attempt: nat): int {
    var one := RETRY_SLEEP + cfg.call;
    match Retries(attempt)
    case 0 => 0
    case 1 => one
    case 2 => one + one
    case _ => one + one + one
  }

  /** From the end of a leader's read, after `failures` lost connections in a row, to the end of
      the tenure. `last` is what may follow a read that succeeds but does not lead to a renewal. */
  function AfterCheck(cfg: Config, failures: nat, last: int): int {
    if failures >= 2 then last
    else if failures == 1 then RENEW_INTERVAL + cfg.call + last
    else RENEW_INTERVAL + cfg.call + (RENEW_INTERVAL + cfg.call + last)
  }

  function SettledTime(cfg: Config, last: int): int {
    RENEW_INTERVAL + cfg.call + AfterCheck(cfg, 0, last)
  }

  /** A renewal is refused, and four reads precede the step down. */
  function RefusedRenewal(cfg: Config): int {
    cfg.call + FourReadTime(cfg)
  }

  /** The lock is gone: four reads, an attempt to take it again, and four reads before the step
      down. */
  function LostLock(cfg: Config): int {
    FourReadTime(cfg) + cfg.call + FourReadTime(cfg)
  }

  /** Two clocks measure a tenure. The lease clock starts when the lock is granted or renewed; the
      sight clock starts whenever the controller sees itself as the holder. */
  datatype Clock = Lease | Sight

  function Last(cfg: Config, clock: Clock): int {
    if clock.Lease? then RefusedRenewal(cfg) else LostLock(cfg)
  }

  /** The longest time from the end of the current phase to the end of the tenure, unless the
      clock starts again. */
  function Rest(cfg: Config, clock: Clock, c: Ctl): int {
    var settled := SettledTime(cfg, Last(cfg, clock));
    match c.phase
    case Idle => cfg.call + AfterCheck(cfg, c.failures, Last(cfg, clock))
    case Checking => AfterCheck(cfg, c.failures, Last(cfg, clock))
    case Renewing => if clock.Lease? then FourReadTime(cfg) else cfg.call + settled
    case Measuring(renewed) => settled
    case Reading(site, k) => RetryTime(cfg, k) + AfterReading(cfg, clock, c.leader, site)
    case Acquiring => FourReadTime(cfg)
    case Reusing => MAX_WORKLOAD_WAIT + cfg.start + settled
    case Waiting => cfg.start + settled
    case Starting => settled
    case _ => 0
  }

  function AfterReading(cfg: Config, clock: Clock, leader: bool, site: Site): int {
    var settled := SettledTime(cfg, Last(cfg, clock));
    match site
    case BeforeTick => 0
    case BeforeAcquire => cfg.call + FourReadTime(cfg)
    case AfterAcquire => if leader then settled else cfg.reuse + MAX_WORKLOAD_WAIT + cfg.start + settled
    case AfterLoss => 0
  }

  /** From the moment the storage shows a controller as the holder to the end of its tenure, unless
      it sees itself again. */
  function Grace(cfg: Config, seen: Sighting): int {
    var settled := SettledTime(cfg, LostLock(cfg));
    match seen
    case ByCheck => 3 * cfg.call + settled
    case ByReclaim => cfg.call + FourReadTime(cfg) + settled
    case ByGrant => cfg.call + FourReadTime(cfg) + cfg.reuse + MAX_WORKLOAD_WAIT + cfg.start + settled
  }

  /** What a controller becomes when it hears the answer that is on the way. */
  function Heard(who: Who, n: Node): Ctl {
    if n.reply.Some? then Resume(who, n.ctl, n.deadline, n.reply.value) else n.ctl
  }

  /** The longest time from a controller's deadline to the end of its tenure. */
  function Left(cfg: Config, clock: Clock, who: Who, n: Node): int {
    if n.reply.None? then Rest(cfg, clock, n.ctl)
    else if InTenure(Heard(who, n)) then Dwell(cfg, Heard(who, n).phase) + Rest(cfg, clock, Heard(who, n))
    else 0
  }
}
