/**
  Tenants do not meet: what one tenant's controllers do in a run of many is a run of their own.
 */
module Tenants {
  import opened Leases
  import opened Wrappers
  import opened Controllers
  import opened Election

  /** The system of one lock. */
  function Part(cfg: Config, key: string): Config {
    cfg.(members := map id | id in cfg.members && Key(cfg, id) == key :: cfg.members[id])
  }

  /** What that system sees of a world. */
  function View(cfg: Config, w: World, key: string): World
    requires Valid(cfg, w)
  {
    World(w.now, Only(w.store, key), map id | id in w.nodes && Key(cfg, id) == key :: w.nodes[id])
  }

  /** Time and the cleanup routine belong to everybody. */
  predicate Mine(cfg: Config, a: Action, key: string) {
    a.Pass? || a.Cleanup? || (a.id in cfg.members && Key(cfg, a.id) == key)
  }

  function Projected(cfg: Config, acts: seq<Action>, key: string): seq<Action> {
    if acts == [] then []
    else (if Mine(cfg, acts[0], key) then [acts[0]] else []) + Projected(cfg, acts[1..], key)
  }

  lemma ServedInPart(cfg: Config, w: World, key: string, id: string, out: Outcome)
    requires Valid(cfg, w) && id in w.nodes && Key(cfg, id) == key
    ensures var (store, answer) := Served(cfg, w, id, out);
            Served(Part(cfg, key), View(cfg, w, key), id, out) == (Only(store, key), answer)
  {
    var request := Request(WhoIs(cfg, id), w.nodes[id].ctl.phase, key);
    if request.Some? {
      StepOnKey(cfg.backend, w.store, w.now, request.value, key);
    }
  }

  lemma ServedElsewhere(cfg: Config, w: World, key: string, id: string, out: Outcome)
    requires Valid(cfg, w) && id in w.nodes && Key(cfg, id) != key
    ensures Only(Served(cfg, w, id, out).0, key) == Only(w.store, key)
  {
    var request := Request(WhoIs(cfg, id), w.nodes[id].ctl.phase, Key(cfg, id));
    if request.Some? {
      StepOnKey(cfg.backend, w.store, w.now, request.value, key);
    }
  }

  /** One of the system's own controllers changes. */
  lemma MyNode(cfg: Config, w: World, key: string, id: string, n: Node)
    requires Valid(cfg, w) && id in w.nodes && Key(cfg, id) == key
    ensures View(cfg, Put(w, id, n), key) == Put(View(cfg, w, key), id, n)
  {
  }

  predicate Simulated(cfg: Config, w: World, a: Action, key: string)
    requires Valid(cfg, w) && Enabled(cfg, w, a)
  {
    && Enabled(Part(cfg, key), View(cfg, w, key), a)
    && Do(Part(cfg, key), View(cfg, w, key), a) == View(cfg, Do(cfg, w, a), key)
  }

  lemma MyServe(cfg: Config, w: World, key: string, id: string, out: Outcome)
    requires Valid(cfg, w) && Enabled(cfg, w, Serve(id, out)) && Key(cfg, id) == key
    ensures Simulated(cfg, w, Serve(id, out), key)
  {
    ServedInPart(cfg, w, key, id, out);
    MyNode(cfg, w, key, id, ServedNode(cfg, w, id, Served(cfg, w, id, out).1));
  }

  /** A move takes the same time in both systems. */
  lemma SameMove(cfg: Config, w: World, key: string, n: Node, c: Ctl)
    requires Valid(cfg, w)
    ensures Moved(Part(cfg, key), View(cfg, w, key), n, c) == Moved(cfg, w, n, c)
  {
  }

  /** One of the system's controllers moves. */
  lemma MyMove(cfg: Config, w: World, key: string, id: string, n: Node, c: Ctl)
    requires Valid(cfg, w) && id in w.nodes && Key(cfg, id) == key
    ensures WhoIs(Part(cfg, key), id) == WhoIs(cfg, id) && View(cfg, w, key).nodes[id] == w.nodes[id]
    ensures View(cfg, Put(w, id, Moved(cfg, w, n, c)), key)
            == Put(View(cfg, w, key), id, Moved(Part(cfg, key), View(cfg, w, key), n, c))
  {
    SameMove(cfg, w, key, n, c);
    MyNode(cfg, w, key, id, Moved(cfg, w, n, c));
  }

  lemma MyHearing(cfg: Config, w: World, id: string, key: string)
    requires Valid(cfg, w) && Enabled(cfg, w, Hear(id)) && Key(cfg, id) == key
    ensures Simulated(cfg, w, Hear(id), key)
  {
    var n := w.nodes[id];
    MyMove(cfg, w, key, id, n, Resume(WhoIs(cfg, id), n.ctl, w.now, n.reply.value));
  }

  lemma MyTick(cfg: Config, w: World, id: string, key: string)
    requires Valid(cfg, w) && Enabled(cfg, w, Tick(id)) && Key(cfg, id) == key
    ensures Simulated(cfg, w, Tick(id), key)
  {
    MyMove(cfg, w, key, id, w.nodes[id], BeginTick(w.nodes[id].ctl));
  }

  lemma MyFate(cfg: Config, w: World, a: Action, key: string)
    requires Valid(cfg, w) && Enabled(cfg, w, a) && Mine(cfg, a, key) && (a.Sicken? || a.Crash? || a.Restart?)
    ensures Simulated(cfg, w, a, key)
  {
    MyNode(cfg, w, key, a.id, Do(cfg, w, a).nodes[a.id]);
  }

  lemma MyGlimpse(cfg: Config, w: World, a: Action, key: string)
    requires Valid(cfg, w) && Enabled(cfg, w, a) && Mine(cfg, a, key) && a.Glimpse?
    ensures Simulated(cfg, w, a, key)
  {
    MyNode(cfg, w, key, a.id, Do(cfg, w, a).nodes[a.id]);
  }

  lemma MyReaction(cfg: Config, w: World, id: string, key: string)
    requires Valid(cfg, w) && Enabled(cfg, w, React(id)) && Key(cfg, id) == key
    ensures Simulated(cfg, w, React(id), key)
  {
    var n := w.nodes[id];
    var c := Watched(WhoIs(cfg, id), n.ctl, n.glimpsed.value);
    SameMove(cfg, w, key, n, c);
    MyNode(cfg, w, key, id, (if c == n.ctl then n else Moved(cfg, w, n, c)).(glimpsed := None));
  }

  lemma MyYield(cfg: Config, w: World, id: string, key: string)
    requires Valid(cfg, w) && Enabled(cfg, w, Yield(id)) && Key(cfg, id) == key
    ensures Simulated(cfg, w, Yield(id), key)
  {
    var c := BeginRelease(w.nodes[id].ctl, false);
    SameMove(cfg, w, key, w.nodes[id], c);
    MyNode(cfg, w, key, id, Moved(cfg, w, w.nodes[id], c).(sick := false));
  }

  lemma MyStop(cfg: Config, w: World, id: string, key: string)
    requires Valid(cfg, w) && Enabled(cfg, w, Stop(id)) && Key(cfg, id) == key
    ensures Simulated(cfg, w, Stop(id), key)
  {
    var c := w.nodes[id].ctl;
    MyMove(cfg, w, key, id, w.nodes[id], if c.leader then BeginRelease(c, true) else c.(phase := Halted, halting := true));
  }

  lemma Everybodys(cfg: Config, w: World, a: Action, key: string)
    requires Valid(cfg, w) && Enabled(cfg, w, a) && (a.Pass? || a.Cleanup?)
    ensures Simulated(cfg, w, a, key)
  {
    if a.Cleanup? {
      StepOnKey(cfg.backend, w.store, w.now, Purge(a.keys), key);
    }
  }

  lemma MyStep(cfg: Config, w: World, a: Action, key: string)
    requires Valid(cfg, w) && Enabled(cfg, w, a) && Mine(cfg, a, key)
    ensures Simulated(cfg, w, a, key)
  {
    match a
    case Serve(id, out) => MyServe(cfg, w, key, id, out);
    case Pass(_) => Everybodys(cfg, w, a, key);
    case Cleanup(_) => Everybodys(cfg, w, a, key);
    case Hear(id) => MyHearing(cfg, w, id, key);
    case Tick(id) => MyTick(cfg, w, id, key);
    case Glimpse(_) => MyGlimpse(cfg, w, a, key);
    case React(id) => MyReaction(cfg, w, id, key);
    case Yield(id) => MyYield(cfg, w, id, key);
    case Stop(id) => MyStop(cfg, w, id, key);
    case _ => MyFate(cfg, w, a, key);
  }

  lemma OthersStep(cfg: Config, w: World, a: Action, key: string)
    requires Valid(cfg, w) && Enabled(cfg, w, a) && !Mine(cfg, a, key)
    ensures View(cfg, Do(cfg, w, a), key) == View(cfg, w, key)
  {
    if a.Serve? {
      ServedElsewhere(cfg, w, key, a.id, a.out);
    }
  }

  /** Every run, restricted to the controllers of one lock, is a run of the system of that lock alone,
      and it ends in what that system sees of the end. */
  lemma {:induction false} RunsProject(cfg: Config, w: World, acts: seq<Action>, key: string)
    requires Valid(cfg, w) && Runs(cfg, w, acts)
    ensures Valid(Part(cfg, key), View(cfg, w, key))
    ensures Runs(Part(cfg, key), View(cfg, w, key), Projected(cfg, acts, key))
    ensures End(Part(cfg, key), View(cfg, w, key), Projected(cfg, acts, key)) == View(cfg, End(cfg, w, acts), key)
    decreases |acts|
  {
    if acts != [] {
      var a := acts[0];
      RunsProject(cfg, Do(cfg, w, a), acts[1..], key);
      if Mine(cfg, a, key) {
        MyStep(cfg, w, a, key);
        assert Projected(cfg, acts, key)[1..] == Projected(cfg, acts[1..], key);
      } else {
        OthersStep(cfg, w, a, key);
        assert Projected(cfg, acts, key) == Projected(cfg, acts[1..], key);
      }
    }
  }
}
