/**
  The monitoring server's leader flag over whole runs: when it outlives the leadership.
 */
module Honesty {
  import opened Controllers
  import opened Election
  import opened Discipline
  import opened Safety
  import opened Scenes
  import opened Limits

  /** Honest, and not about to hear otherwise: what every step keeps while releases are answered. */
  predicate HonestNode(n: Node) {
    Honest(n.ctl) && (n.ctl.phase.ReleaseCall? && n.reply.Some? ==> n.reply.value.Got?)
  }

  predicate AllHonest(cfg: Config, w: World)
    requires Valid(cfg, w)
  {
    forall id :: id in w.nodes ==> HonestNode(w.nodes[id])
  }

  lemma HonestStep(cfg: Config, w: World, a: Action, id: string)
    requires Valid(cfg, w) && AllOrderly(cfg, w) && AllHonest(cfg, w) && Enabled(cfg, w, a) && id in w.nodes
    requires cfg.sureRelease
    ensures HonestNode(Do(cfg, w, a).nodes[id])
  {
    var who, n := WhoIs(cfg, id), w.nodes[id];
    if !Acts(a, id) {
      BystanderUnmoved(cfg, w, a, id);
    } else if a.Hear? {
      HonestExactly(who, n.ctl, w.now, n.reply.value);
    } else if a.Tick? || a.Yield? || a.Stop? || a.React? {
      EventsKeepHonest(who, n.ctl, if a.React? then n.glimpsed.value else "", a.Stop?);
    }
  }

  lemma {:induction false} RunsAreHonest(cfg: Config, w: World, acts: seq<Action>)
    requires Valid(cfg, w) && AllOrderly(cfg, w) && AllHonest(cfg, w) && Runs(cfg, w, acts) && cfg.sureRelease
    ensures AllHonest(cfg, End(cfg, w, acts))
    decreases |acts|
  {
    if acts != [] {
      var w' := Do(cfg, w, acts[0]);
      OrderStep(cfg, w, acts[0]);
      forall id | id in w'.nodes ensures HonestNode(w'.nodes[id]) {
        HonestStep(cfg, w, acts[0], id);
      }
      RunsAreHonest(cfg, w', acts[1..]);
    }
  }

  /** The release call of a sick leader gets lost. */
  lemma ReleaseIsLost(cfg: Config, w0: World, w: World, a: string, b: string) returns (w': World)
    requires Scene(cfg, w, a, b) && Reaches(cfg, w0, w) && !cfg.sureRelease && !InTenure(w.nodes[b].ctl)
    requires var c := w.nodes[a].ctl; c.phase.Idle? && c.leader && Gate(c)
    ensures Scene(cfg, w', a, b) && Reaches(cfg, w0, w')
    ensures var c := w'.nodes[a].ctl; c.phase == Stopping(false) && !c.leader && !c.started && Gate(c) && !c.halting
  {
    w' := BeginsToRelease(cfg, w0, w, a, b);
    w' := Call(cfg, w0, w', a, b, Broken(true, false));
  }

  /** A controller at rest that neither leads nor runs workloads, and yet its gate is open: containers
      are built for it, and it handles events about custom resources. */
  lemma GateStaysOpen(cfg: Config, a: string, b: string) returns (w: World)
    requires Rivals(cfg, a, b) && !cfg.sureRelease
    ensures Reaches(cfg, Birth(cfg), w) && Valid(cfg, w)
    ensures var c := w.nodes[a].ctl; c.phase.Idle? && !c.leader && !c.started && Gate(c)
  {
    w := FirstLeads(cfg, b, a);
    w := ReleaseIsLost(cfg, Birth(cfg), w, a, b);
    w := ComesToRest(cfg, Birth(cfg), w, a, b);
  }

  /** In every run, every controller the monitor calls the leader leads, is about to, or is on its way
      out. */
  ghost predicate AlwaysHonest(cfg: Config) {
    forall w, acts, id :: Start(cfg, w) && Runs(cfg, w, acts) && id in w.nodes ==> Honest(End(cfg, w, acts).nodes[id].ctl)
  }

  lemma OneFlagRefutes(cfg: Config, w: World, a: string)
    requires Start(cfg, Birth(cfg)) && Reaches(cfg, Birth(cfg), w) && Valid(cfg, w)
    requires a in w.nodes && !Honest(w.nodes[a].ctl)
    ensures !AlwaysHonest(cfg)
  {
    var acts :| Runs(cfg, Birth(cfg), acts) && End(cfg, Birth(cfg), acts) == w;
    assert !Honest(End(cfg, Birth(cfg), acts).nodes[a].ctl);
  }

  lemma SureReleasesSuffice(cfg: Config)
    requires cfg.sureRelease
    ensures AlwaysHonest(cfg)
  {
    forall w, acts, id | Start(cfg, w) && Runs(cfg, w, acts) && id in w.nodes ensures Honest(End(cfg, w, acts).nodes[id].ctl) {
      StartIsOrderly(cfg, w);
      RunsAreHonest(cfg, w, acts);
      assert HonestNode(End(cfg, w, acts).nodes[id]);
    }
  }

  /** The monitor's flag never outlives a leadership, in all runs, exactly if no release call goes
      unanswered. */
  lemma HonestyExactly(cfg: Config, a: string, b: string)
    requires Rivals(cfg, a, b)
    ensures AlwaysHonest(cfg) <==> cfg.sureRelease
  {
    if cfg.sureRelease {
      SureReleasesSuffice(cfg);
    } else {
      var bad := GateStaysOpen(cfg, a, b);
      BirthScene(cfg, a, b);
      OneFlagRefutes(cfg, bad, a);
    }
  }
}
