/**
  What a controller remembers of earlier tenures, and what it does with it when it wins the lock.

  A life is everything that has happened to one controller since it was created. The predicates
  below speak of what it heard and when; nothing in them mentions the fields it keeps.
 */
module Handover {
  import opened Wrappers
  import opened Leases
  import opened Controllers
  import opened Election

  datatype Deed =
    | Hears(at: int, answer: Answer)
    | Ticks
    | Sees(holder: string)      // the lock monitor acts
    | GivesUp(halting: bool)    // the health monitor or Stop starts a release
    | Ends                      // Stop, or the end of the process

  type Life = seq<Deed>

  /** A controller hears answers when it waits for one, and does everything else between ticks. */
  predicate CanFollow(c: Ctl, d: Deed) {
    match d
    case Hears(_, _) => Busy(c.phase)
    case Ends => true
    case _ => c.phase.Idle?
  }

  function Next(who: Who, c: Ctl, d: Deed): Ctl {
    match d
    case Hears(at, answer) => Resume(who, c, at, answer)
    case Ticks => BeginTick(c)
    case Sees(holder) => Watched(who, c, holder)
    case GivesUp(halting) => BeginRelease(c, halting)
    case Ends => c.(phase := Halted, halting := true)
  }

  function Before(life: Life): Life
    requires life != []
  {
    life[..|life| - 1]
  }

  function Latest(life: Life): Deed
    requires life != []
  {
    life[|life| - 1]
  }

  function After(who: Who, life: Life): Ctl {
    if life == [] then Newborn else Next(who, After(who, Before(life)), Latest(life))
  }

  predicate Lives(who: Who, life: Life) {
    life != [] ==> Lives(who, Before(life)) && CanFollow(After(who, Before(life)), Latest(life))
  }

  // ---------------------------------------------------------------------------------------
  // What happened
  // ---------------------------------------------------------------------------------------

  /** The answer heard last ended the reads at `site`: a success, or the fourth failure. */
  predicate Finds(who: Who, life: Life, site: Site) {
    && life != [] && Latest(life).Hears?
    && var p := After(who, Before(life)).phase;
       p.Reading? && p.site == site && (Latest(life).answer.Got? || p.attempt >= 3)
  }

  /** The read before a request has just named somebody else. */
  predicate NamesOther(who: Who, life: Life) {
    Finds(who, life, BeforeAcquire) && Holder(Latest(life).answer) !in {"", who.id}
  }

  predicate EverNamedOther(who: Who, life: Life) {
    life != [] && (NamesOther(who, life) || EverNamedOther(who, Before(life)))
  }

  /** The lock was granted to this controller at least once. */
  predicate EverGranted(who: Who, life: Life) {
    && life != []
    && ((After(who, Before(life)).phase.Acquiring? && Latest(life).Hears? && Latest(life).answer == Got(Flag(true)))
        || EverGranted(who, Before(life)))
  }

  /** When a release was last confirmed. */
  function LastRelease(who: Who, life: Life): Option<int> {
    if life == [] then None
    else if After(who, Before(life)).phase.ReleaseCheck? && Latest(life).Hears? then Some(Latest(life).at)
    else LastRelease(who, Before(life))
  }

  /** The read before a request has just found nobody, less than five minutes after this
      controller, once a leader, released the lock. */
  predicate ReturnsSoon(who: Who, life: Life) {
    && Finds(who, life, BeforeAcquire) && Holder(Latest(life).answer) == ""
    && EverGranted(who, Before(life))
    && LastRelease(who, Before(life)).Some?
    && Latest(life).at - LastRelease(who, Before(life)).value < 300_000
  }

  predicate EverReturnedSoon(who: Who, life: Life) {
    life != [] && (ReturnsSoon(who, life) || EverReturnedSoon(who, Before(life)))
  }

  /** Who led before, as far as anybody told. */
  function Predecessor(who: Who, life: Life): string {
    if life == [] then ""
    else if NamesOther(who, life) then Holder(Latest(life).answer)
    else if ReturnsSoon(who, life) then who.id
    else Predecessor(who, Before(life))
  }

  // ---------------------------------------------------------------------------------------
  // What is remembered
  // ---------------------------------------------------------------------------------------

  lemma ReadingElsewhere(who: Who, c: Ctl, now: int, a: Answer)
    requires c.phase.Reading? && !c.phase.site.BeforeAcquire?
    ensures Resume(who, c, now, a).past == c.past
  {
  }

  /** The read before a request is where predecessors are learnt of. */
  lemma ReadingBeforeAcquire(who: Who, c: Ctl, now: int, a: Answer)
    requires c.phase.Reading? && c.phase.site.BeforeAcquire?
    ensures var p, p', found := c.past, Resume(who, c, now, a).past, Holder(a);
            var soon := && found == "" && p.previousSelf == who.id && p.lastRelease.Some?
                        && now - p.lastRelease.value < 300_000;
            && p'.previousSelf == p.previousSelf && p'.lastRelease == p.lastRelease
            && (a.Failed? && c.phase.attempt < 3 ==> p' == p)
            && (a.Got? || c.phase.attempt >= 3 ==>
                && p'.previousLeader == (if found !in {"", who.id} then found else if soon then who.id else p.previousLeader)
                && p'.selfRestart == (p.selfRestart || soon))
  {
  }

  lemma Asking(who: Who, c: Ctl, now: int, a: Answer)
    requires c.phase.Acquiring?
    ensures Resume(who, c, now, a).past
            == if a == Got(Flag(true)) then c.past.(previousSelf := who.id) else c.past
  {
  }

  lemma OtherDeeds(who: Who, c: Ctl, d: Deed)
    requires d.Hears? ==> !c.phase.Acquiring? && !c.phase.Reading?
    ensures Next(who, c, d).past
            == if d.Hears? && c.phase.ReleaseCheck? then c.past.(lastRelease := Some(d.at)) else c.past
  {
  }

  /** What one deed adds to the memory. */
  lemma DeedIsRemembered(who: Who, c: Ctl, d: Deed)
    ensures var p, p' := c.past, Next(who, c, d).past;
            && p'.previousSelf == (if c.phase.Acquiring? && d.Hears? && d.answer == Got(Flag(true)) then who.id else p.previousSelf)
            && p'.lastRelease == (if c.phase.ReleaseCheck? && d.Hears? then Some(d.at) else p.lastRelease)
            && (!(d.Hears? && c.phase.Reading? && c.phase.site.BeforeAcquire?)
                ==> p'.previousLeader == p.previousLeader && p'.selfRestart == p.selfRestart)
  {
    if d.Hears? && c.phase.Reading? {
      if c.phase.site.BeforeAcquire? {
        ReadingBeforeAcquire(who, c, d.at, d.answer);
      } else {
        ReadingElsewhere(who, c, d.at, d.answer);
      }
    } else if d.Hears? && c.phase.Acquiring? {
      Asking(who, c, d.at, d.answer);
    } else {
      OtherDeeds(who, c, d);
    }
  }

  lemma {:induction false} TenuresAreRemembered(who: Who, life: Life)
    ensures EverGranted(who, life) ==> After(who, life).past.previousSelf == who.id
    ensures !EverGranted(who, life) ==> After(who, life).past.previousSelf == ""
    ensures After(who, life).past.lastRelease == LastRelease(who, life)
  {
    if life != [] {
      TenuresAreRemembered(who, Before(life));
      DeedIsRemembered(who, After(who, Before(life)), Latest(life));
    }
  }

  /** The previous leader is the last other controller named before a request, or the controller
      itself after a soon return; and a soon return is remembered for ever. */
  lemma {:induction false} PredecessorIsRemembered(who: Who, life: Life)
    requires !Blank(who.id)
    ensures After(who, life).past.previousLeader == Predecessor(who, life)
    ensures After(who, life).past.selfRestart <==> EverReturnedSoon(who, life)
  {
    if life != [] {
      var c, d := After(who, Before(life)), Latest(life);
      PredecessorIsRemembered(who, Before(life));
      TenuresAreRemembered(who, Before(life));
      DeedIsRemembered(who, c, d);
      if d.Hears? && c.phase.Reading? && c.phase.site.BeforeAcquire? {
        ReadingBeforeAcquire(who, c, d.at, d.answer);
      }
    }
  }

  lemma {:induction false} SomebodyWasNamed(who: Who, life: Life)
    requires !Blank(who.id)
    ensures Predecessor(who, life) != "" <==> EverNamedOther(who, life) || EverReturnedSoon(who, life)
  {
    if life != [] {
      SomebodyWasNamed(who, Before(life));
    }
  }

  /** A follower that has won the lock and verified it starts its workloads at once only if nobody
      was ever named to it and it never returned soon after a release. If it returned soon, it
      looks at its own workloads first; if somebody was named, it waits. */
  lemma HandOver(who: Who, life: Life)
    requires !Blank(who.id) && Finds(who, life, AfterAcquire) && !After(who, Before(life)).leader
    ensures var c := After(who, life);
            && c.leader
            && (c.phase == Reusing <==> EverReturnedSoon(who, life))
            && (c.phase == Waiting <==> EverNamedOther(who, life) && !EverReturnedSoon(who, life))
            && (c.phase == Starting <==> !EverNamedOther(who, life) && !EverReturnedSoon(who, life))
            && c.started == (c.phase == Starting || After(who, Before(life)).started)
  {
    PredecessorIsRemembered(who, Before(life));
    SomebodyWasNamed(who, Before(life));
  }

  // ---------------------------------------------------------------------------------------
  // Every controller of every run has a life
  // ---------------------------------------------------------------------------------------

  /** The node's controller is what its life has made of it, unless its process has ended. */
  ghost predicate Lived(cfg: Config, w: World, id: string, life: Life)
    requires Valid(cfg, w) && id in w.nodes
  {
    var c := w.nodes[id].ctl;
    && Lives(WhoIs(cfg, id), life) && (c.phase.Halted? || c == After(WhoIs(cfg, id), life))
    && (w.nodes[id].reply.Some? ==> Busy(c.phase))
  }

  lemma Appended(who: Who, life: Life, d: Deed)
    requires Lives(who, life) && CanFollow(After(who, life), d)
    ensures Lives(who, life + [d]) && After(who, life + [d]) == Next(who, After(who, life), d)
  {
    assert Before(life + [d]) == life;
  }

  /** The life of a node's controller, as the node's own actions tell it. A restart begins a new
      one. */
  function LifeAfter(w: World, a: Action, id: string, life: Life): Life
    requires id in w.nodes
  {
    var n := w.nodes[id];
    if !Acts(a, id) then life
    else
      match a
      case Hear(_) => if n.reply.Some? then life + [Hears(w.now, n.reply.value)] else life
      case Tick(_) => life + [Ticks]
      case React(_) => if n.glimpsed.Some? then life + [Sees(n.glimpsed.value)] else life
      case Yield(_) => life + [GivesUp(false)]
      case Stop(_) => life + [if n.ctl.leader then GivesUp(true) else Ends]
      case Crash(_) => life + [Ends]
      case Restart(_) => []
      case _ => life
  }

  function LifeOf(cfg: Config, w: World, acts: seq<Action>, id: string, life: Life): Life
    requires Valid(cfg, w) && Runs(cfg, w, acts) && id in w.nodes
    decreases |acts|
  {
    if acts == [] then life
    else LifeOf(cfg, Do(cfg, w, acts[0]), acts[1..], id, LifeAfter(w, acts[0], id, life))
  }

  lemma LifeGoesOn(cfg: Config, w: World, a: Action, id: string, life: Life)
    requires Valid(cfg, w) && Enabled(cfg, w, a) && id in w.nodes && Lived(cfg, w, id, life)
    ensures Lived(cfg, Do(cfg, w, a), id, LifeAfter(w, a, id, life))
  {
    if !Acts(a, id) {
      BystanderUnmoved(cfg, w, a, id);
    } else if a.Hear? {
      HearingGoesOn(cfg, w, id, life);
    } else if a.Tick? || a.React? || a.Yield? || a.Stop? {
      EventGoesOn(cfg, w, a, id, life);
    } else if a.Crash? {
      Appended(WhoIs(cfg, id), life, Ends);
    }
  }

  lemma HearingGoesOn(cfg: Config, w: World, id: string, life: Life)
    requires Valid(cfg, w) && Enabled(cfg, w, Hear(id)) && Lived(cfg, w, id, life)
    ensures Lived(cfg, Do(cfg, w, Hear(id)), id, LifeAfter(w, Hear(id), id, life))
  {
    Appended(WhoIs(cfg, id), life, Hears(w.now, w.nodes[id].reply.value));
  }

  lemma EventGoesOn(cfg: Config, w: World, a: Action, id: string, life: Life)
    requires Valid(cfg, w) && Enabled(cfg, w, a) && id in w.nodes && Acts(a, id) && Lived(cfg, w, id, life)
    requires a.Tick? || a.React? || a.Yield? || a.Stop?
    ensures Lived(cfg, Do(cfg, w, a), id, LifeAfter(w, a, id, life))
  {
    var n := w.nodes[id];
    match a
    case Tick(_) => Appended(WhoIs(cfg, id), life, Ticks);
    case React(_) => Appended(WhoIs(cfg, id), life, Sees(n.glimpsed.value));
    case Yield(_) => Appended(WhoIs(cfg, id), life, GivesUp(false));
    case Stop(_) => Appended(WhoIs(cfg, id), life, if n.ctl.leader then GivesUp(true) else Ends);
  }

  lemma {:induction false} EveryNodeHasItsLife(cfg: Config, w: World, acts: seq<Action>, id: string, life: Life)
    requires Valid(cfg, w) && Runs(cfg, w, acts) && id in w.nodes && Lived(cfg, w, id, life)
    ensures Lived(cfg, End(cfg, w, acts), id, LifeOf(cfg, w, acts, id, life))
    decreases |acts|
  {
    if acts != [] {
      LifeGoesOn(cfg, w, acts[0], id, life);
      EveryNodeHasItsLife(cfg, Do(cfg, w, acts[0]), acts[1..], id, LifeAfter(w, acts[0], id, life));
    }
  }

  /** The answer on its way to the node ends the reads that verify a grant, and the node is not a
      leader yet. */
  predicate AboutToLead(n: Node) {
    && n.ctl.phase.Reading? && n.ctl.phase.site.AfterAcquire? && !n.ctl.leader
    && n.reply.Some? && (n.reply.value.Got? || n.ctl.phase.attempt >= 3)
  }

  /** In every run, a controller that takes over starts its workloads at once exactly if nobody else
      was named to it before a request since it was created, and it never came back soon. */
  lemma HandOverInRuns(cfg: Config, w: World, acts: seq<Action>, id: string)
    requires Start(cfg, w) && Runs(cfg, w, acts) && id in w.nodes
    requires AboutToLead(End(cfg, w, acts).nodes[id])
    ensures var w' := End(cfg, w, acts);
            var who, life := WhoIs(cfg, id), LifeOf(cfg, w, acts, id, []);
            var c := Do(cfg, w', Hear(id)).nodes[id].ctl;
            && c.leader
            && (c.phase == Reusing <==> EverReturnedSoon(who, life))
            && (c.phase == Waiting <==> EverNamedOther(who, life) && !EverReturnedSoon(who, life))
            && (c.phase == Starting <==> !EverNamedOther(who, life) && !EverReturnedSoon(who, life))
  {
    var w' := End(cfg, w, acts);
    var who, life := WhoIs(cfg, id), LifeOf(cfg, w, acts, id, []);
    var d := Hears(w'.now, w'.nodes[id].reply.value);
    EveryNodeHasItsLife(cfg, w, acts, id, []);
    Appended(who, life, d);
    assert Before(life + [d]) == life;
    HandOver(who, life + [d]);
    assert !Finds(who, life + [d], BeforeAcquire);
  }
}
