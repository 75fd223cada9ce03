/**
  The steps of the runs in Limits.dfy: two controllers compete for one lock, and one of them at a
  time waits, is served and hears.
 */
module Scenes {
  import opened Leases
  import opened Wrappers
  import opened Controllers
  import opened Election

  ghost predicate Reaches(cfg: Config, w: World, w': World) {
    Valid(cfg, w) && exists acts :: Runs(cfg, w, acts) && End(cfg, w, acts) == w'
  }

  lemma {:induction false} Append(cfg: Config, w: World, acts: seq<Action>, a: Action)
    requires Valid(cfg, w) && Runs(cfg, w, acts) && Enabled(cfg, End(cfg, w, acts), a)
    ensures Runs(cfg, w, acts + [a]) && End(cfg, w, acts + [a]) == Do(cfg, End(cfg, w, acts), a)
    decreases |acts|
  {
    if acts == [] {
      assert acts + [a] == [a];
      assert Runs(cfg, Do(cfg, w, a), [a][1..]);
    } else {
      assert (acts + [a])[1..] == acts[1..] + [a];
      Append(cfg, Do(cfg, w, acts[0]), acts[1..], a);
    }
  }

  lemma ReachStep(cfg: Config, w0: World, w: World, a: Action)
    requires Reaches(cfg, w0, w) && Valid(cfg, w) && Enabled(cfg, w, a)
    ensures Reaches(cfg, w0, Do(cfg, w, a))
  {
    var acts :| Runs(cfg, w0, acts) && End(cfg, w0, acts) == w;
    Append(cfg, w0, acts, a);
  }

  /** Two controllers that may both get the same lock. */
  predicate Rivals(cfg: Config, a: string, b: string) {
    && "" !in cfg.members && a in cfg.members && b in cfg.members && a != b
    && Key(cfg, a) == Key(cfg, b) && !cfg.members[a].remainFollower && !cfg.members[b].remainFollower
  }

  /** The rivals at work; nobody else takes part. */
  ghost predicate Scene(cfg: Config, w: World, a: string, b: string) {
    && Valid(cfg, w) && Rivals(cfg, a, b)
    && w.nodes[a].reply.None? && w.nodes[b].reply.None?
    && forall id :: id in w.nodes && id != a && id != b ==> !Tenured(w.nodes[id])
  }

  lemma Await(cfg: Config, w0: World, w: World, a: string, b: string, wait: nat) returns (w': World)
    requires Scene(cfg, w, a, b) && Reaches(cfg, w0, w)
    requires InTenure(w.nodes[a].ctl) ==> w.now + wait <= w.nodes[a].deadline
    requires InTenure(w.nodes[b].ctl) ==> w.now + wait <= w.nodes[b].deadline
    ensures Scene(cfg, w', a, b) && Reaches(cfg, w0, w') && w' == w.(now := w.now + wait)
  {
    ReachStep(cfg, w0, w, Pass(w.now + wait));
    w' := w.(now := w.now + wait);
  }

  /** One of the two is served. */
  lemma Effect(cfg: Config, w0: World, w: World, a: string, b: string, out: Outcome) returns (w': World)
    requires Scene(cfg, w, a, b) && Reaches(cfg, w0, w) && Possible(cfg, w.nodes[a].ctl.phase, out)
    ensures Valid(cfg, w') && a in w'.nodes && Enabled(cfg, w', Hear(a)) && Reaches(cfg, w0, w')
    ensures w' == Do(cfg, w, Serve(a, out))
  {
    ReachStep(cfg, w0, w, Serve(a, out));
    w' := Do(cfg, w, Serve(a, out));
  }

  /** The assumptions on the storage allow this outcome of a call. */
  predicate Possible(cfg: Config, phase: Phase, out: Outcome) {
    && Busy(phase)
    && (cfg.wholeTick && phase.Renewing? && out.Broken? ==> !out.conn)
    && (cfg.sureRelease && phase.ReleaseCall? ==> out.Answered?)
  }

  /** The pending call of one of the two is served, and the answer is heard at once. */
  lemma Call(cfg: Config, w0: World, w: World, a: string, b: string, out: Outcome) returns (w': World)
    requires Scene(cfg, w, a, b) && Reaches(cfg, w0, w) && Possible(cfg, w.nodes[a].ctl.phase, out)
    ensures Scene(cfg, w', a, b) && Reaches(cfg, w0, w')
    ensures w'.now == w.now && w'.nodes[b] == w.nodes[b]
    ensures var (store, answer) := Served(cfg, w, a, out);
            && w'.store == store
            && w'.nodes[a].ctl == Resume(WhoIs(cfg, a), w.nodes[a].ctl, w.now, answer)
            && w'.nodes[a].deadline == w.now + Dwell(cfg, w'.nodes[a].ctl.phase)
  {
    var served := Effect(cfg, w0, w, a, b, out);
    ReachStep(cfg, w0, served, Hear(a));
    w' := Do(cfg, served, Hear(a));
  }

  /** One of the two waits, then its pending call is served. */
  lemma Turn(cfg: Config, w0: World, w: World, a: string, b: string, wait: nat, out: Outcome) returns (w': World)
    requires Scene(cfg, w, a, b) && Reaches(cfg, w0, w) && Possible(cfg, w.nodes[a].ctl.phase, out)
    requires InTenure(w.nodes[a].ctl) ==> w.now + wait <= w.nodes[a].deadline
    requires InTenure(w.nodes[b].ctl) ==> w.now + wait <= w.nodes[b].deadline
    ensures Scene(cfg, w', a, b) && Reaches(cfg, w0, w')
    ensures w'.now == w.now + wait && w'.nodes[b] == w.nodes[b]
    ensures var (store, answer) := Served(cfg, w.(now := w.now + wait), a, out);
            && w'.store == store
            && w'.nodes[a].ctl == Resume(WhoIs(cfg, a), w.nodes[a].ctl, w'.now, answer)
            && w'.nodes[a].deadline == w'.now + Dwell(cfg, w'.nodes[a].ctl.phase)
  {
    w' := Await(cfg, w0, w, a, b, wait);
    w' := Call(cfg, w0, w', a, b, out);
  }

  lemma Awake(cfg: Config, w0: World, w: World, a: string, b: string, wait: nat) returns (w': World)
    requires Scene(cfg, w, a, b) && Reaches(cfg, w0, w) && w.nodes[a].ctl.phase.Idle?
    requires InTenure(w.nodes[a].ctl) ==> w.now + wait <= w.nodes[a].deadline
    requires InTenure(w.nodes[b].ctl) ==> w.now + wait <= w.nodes[b].deadline
    ensures Scene(cfg, w', a, b) && Reaches(cfg, w0, w')
    ensures w'.now == w.now + wait && w'.nodes[b] == w.nodes[b] && w'.store == w.store
    ensures w'.nodes[a].ctl == BeginTick(w.nodes[a].ctl)
    ensures w'.nodes[a].deadline == w'.now + Dwell(cfg, w'.nodes[a].ctl.phase)
  {
    var later := Await(cfg, w0, w, a, b, wait);
    ReachStep(cfg, w0, later, Tick(a));
    w' := Do(cfg, later, Tick(a));
  }

  /** Whom the lock names. */
  function Named(cfg: Config, w: World, id: string): string
    requires Valid(cfg, w) && id in w.nodes
  {
    var key := Key(cfg, id);
    if Live(cfg.backend, w.store, key, w.now) then w.store[key].value else ""
  }

  /** A chain of reads ends with an answer. */
  lemma Hears(cfg: Config, w0: World, w: World, a: string, b: string) returns (w': World, answer: Answer)
    requires Scene(cfg, w, a, b) && Reaches(cfg, w0, w) && w.nodes[a].ctl.phase.Reading?
    ensures Scene(cfg, w', a, b) && Reaches(cfg, w0, w')
    ensures w'.now == w.now && w'.nodes[b] == w.nodes[b] && w'.store == w.store
    ensures answer.Got? && Holder(answer) == Named(cfg, w, a)
    ensures var c := w.nodes[a].ctl; w'.nodes[a].ctl == Conclude(WhoIs(cfg, a), c, w.now, c.phase.site, answer)
    ensures w'.nodes[a].deadline == w'.now + Dwell(cfg, w'.nodes[a].ctl.phase)
  {
    answer := Served(cfg, w, a, Answered).1;
    w' := Call(cfg, w0, w, a, b, Answered);
  }

  /** A follower asks for the lock, without delay. It gets as far as the answer. */
  lemma Asks(cfg: Config, w0: World, w: World, a: string, b: string) returns (w': World)
    requires Scene(cfg, w, a, b) && Reaches(cfg, w0, w)
    requires w.nodes[a].ctl.phase.Idle? && !w.nodes[a].ctl.leader
    requires InTenure(w.nodes[b].ctl) ==> w.now <= w.nodes[b].deadline
    ensures Scene(cfg, w', a, b) && Reaches(cfg, w0, w')
    ensures w'.now == w.now && w'.nodes[b] == w.nodes[b] && w'.store == w.store
    ensures var c := w.nodes[a].ctl;
            w'.nodes[a].ctl == c.(phase := Acquiring, past := Learn(WhoIs(cfg, a), c.past, w.now, Named(cfg, w, a)))
  {
    var answer;
    w' := Awake(cfg, w0, w, a, b, 0);
    w', answer := Hears(cfg, w0, w', a, b);
    w', answer := Hears(cfg, w0, w', a, b);
  }

  /** A controller gets the free lock it asked for. */
  lemma Granted(cfg: Config, w0: World, w: World, a: string, b: string) returns (w': World)
    requires Scene(cfg, w, a, b) && Reaches(cfg, w0, w)
    requires w.nodes[a].ctl.phase.Acquiring? && !Live(cfg.backend, w.store, Key(cfg, a), w.now)
    ensures Scene(cfg, w', a, b) && Reaches(cfg, w0, w')
    ensures w'.now == w.now && w'.nodes[b] == w.nodes[b]
    ensures w'.store == w.store[Key(cfg, a) := Fresh(cfg.backend, w.now, a, LOCK_TTL)]
    ensures var c := w.nodes[a].ctl;
            w'.nodes[a].ctl == Report(Recover(c), true).(past := c.past.(previousSelf := a), phase := Reading(AfterAcquire, 0))
    ensures w'.nodes[a].deadline == w'.now + cfg.call
  {
    w' := Call(cfg, w0, w, a, b, Answered);
  }

  /** The lock is granted at once, and the answer takes its time. */
  lemma GrantedLate(cfg: Config, w0: World, w: World, a: string, b: string, wait: nat) returns (w': World)
    requires Scene(cfg, w, a, b) && Reaches(cfg, w0, w) && wait <= cfg.call && !w.nodes[a].ctl.leader
    requires w.nodes[a].ctl.phase.Acquiring? && !Live(cfg.backend, w.store, Key(cfg, a), w.now)
    requires !InTenure(w.nodes[b].ctl)
    ensures Scene(cfg, w', a, b) && Reaches(cfg, w0, w')
    ensures w'.now == w.now + wait && w'.nodes[b] == w.nodes[b]
    ensures w'.store == w.store[Key(cfg, a) := Fresh(cfg.backend, w.now, a, LOCK_TTL)]
    ensures var c := w.nodes[a].ctl;
            w'.nodes[a].ctl == Report(Recover(c), true).(past := c.past.(previousSelf := a), phase := Reading(AfterAcquire, 0))
    ensures w'.nodes[a].deadline == w'.now + cfg.call
  {
    var granted := Effect(cfg, w0, w, a, b, Answered);
    w' := LateAnswer(cfg, w0, granted, a, b, w, wait);
  }

  /** An answer is heard some time after it was given. */
  lemma LateAnswer(cfg: Config, w0: World, served: World, a: string, b: string, w: World, wait: nat) returns (w': World)
    requires Scene(cfg, w, a, b) && w.nodes[a].ctl.phase.Acquiring? && !w.nodes[a].ctl.leader
    requires Enabled(cfg, w, Serve(a, Answered)) && served == Do(cfg, w, Serve(a, Answered)) && Reaches(cfg, w0, served)
    requires Yes(Served(cfg, w, a, Answered).1) && wait <= cfg.call && !InTenure(w.nodes[b].ctl)
    ensures Scene(cfg, w', a, b) && Reaches(cfg, w0, w')
    ensures w'.now == w.now + wait && w'.nodes[b] == w.nodes[b] && w'.store == served.store
    ensures w'.nodes[a].ctl == OnAcquire(WhoIs(cfg, a), w.nodes[a].ctl, Served(cfg, w, a, Answered).1)
    ensures w'.nodes[a].deadline == w'.now + cfg.call
  {
    ReachStep(cfg, w0, served, Pass(w.now + wait));
    var later := Do(cfg, served, Pass(w.now + wait));
    ReachStep(cfg, w0, later, Hear(a));
    w' := Do(cfg, later, Hear(a));
  }

  lemma Wins(cfg: Config, w0: World, w: World, a: string, b: string, wait: nat, out: Outcome) returns (w': World)
    requires Scene(cfg, w, a, b) && Reaches(cfg, w0, w)
    requires var c := w.nodes[a].ctl;
             c.phase.Reading? && c.phase.site.AfterAcquire? && !c.leader && (out.Answered? || c.phase.attempt > 2)
    requires w.now + wait <= w.nodes[a].deadline && (InTenure(w.nodes[b].ctl) ==> w.now + wait <= w.nodes[b].deadline)
    ensures Scene(cfg, w', a, b) && Reaches(cfg, w0, w')
    ensures w'.now == w.now + wait && w'.nodes[b] == w.nodes[b] && w'.store == w.store
    ensures var c := w.nodes[a].ctl;
            w'.nodes[a].ctl == c.(phase := if c.past.selfRestart then Reusing else if MustWait(c.past) then Waiting else Starting,
                                  leader := true, failures := 0, started := c.started || !MustWait(c.past))
    ensures w'.nodes[a].deadline == w'.now + Dwell(cfg, w'.nodes[a].ctl.phase)
  {
    w' := Turn(cfg, w0, w, a, b, wait, out);
  }

  /** A follower finds the lock free, and becomes the leader at once. */
  lemma Takes(cfg: Config, w0: World, w: World, a: string, b: string) returns (w': World)
    requires Scene(cfg, w, a, b) && Reaches(cfg, w0, w)
    requires w.nodes[a].ctl.phase.Idle? && !w.nodes[a].ctl.leader && !Live(cfg.backend, w.store, Key(cfg, a), w.now)
    requires InTenure(w.nodes[b].ctl) ==> w.now <= w.nodes[b].deadline
    ensures Scene(cfg, w', a, b) && Reaches(cfg, w0, w')
    ensures w'.now == w.now && w'.nodes[b] == w.nodes[b]
    ensures w'.store == w.store[Key(cfg, a) := Fresh(cfg.backend, w.now, a, LOCK_TTL)]
    ensures var c := w'.nodes[a].ctl;
            && Leading(c) && c.failures == 0 && (c.phase.Reusing? || c.phase.Waiting? || c.phase.Starting?)
            && (c.phase.Starting? <==> !MustWait(c.past)) && c.halting == w.nodes[a].ctl.halting
            && c.past == Learn(WhoIs(cfg, a), w.nodes[a].ctl.past, w.now, "").(previousSelf := a)
            && c.gauge == SetState(w.nodes[a].ctl.gauge, Normal).(monLeader := true)
    ensures w'.nodes[a].deadline == w'.now + Dwell(cfg, w'.nodes[a].ctl.phase)
  {
    w' := Asks(cfg, w0, w, a, b);
    w' := Granted(cfg, w0, w', a, b);
    w' := Wins(cfg, w0, w', a, b, 0, Answered);
  }

  /** Everybody is born into an empty store. */
  function Birth(cfg: Config): World {
    World(0, map[], map id | id in cfg.members :: Node(Newborn, None, 0, None, false, 0, ByGrant))
  }

  lemma BirthScene(cfg: Config, a: string, b: string)
    requires Rivals(cfg, a, b)
    ensures Start(cfg, Birth(cfg)) && Scene(cfg, Birth(cfg), a, b) && Reaches(cfg, Birth(cfg), Birth(cfg))
  {
    var w := Birth(cfg);
    assert Runs(cfg, w, []) && End(cfg, w, []) == w;
  }

  lemma SceneSwap(cfg: Config, w: World, a: string, b: string)
    requires Scene(cfg, w, a, b)
    ensures Scene(cfg, w, b, a)
  {
  }
}
