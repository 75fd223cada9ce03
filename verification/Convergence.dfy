/**
  Whole histories of the reconciler of Watcher.dfy: the store changes, and events about it are
  handled late, twice, out of order, side by side, or not at all because the controller was not
  leading. A handling takes several steps, and others may act between any two of them: the initial
  sync runs beside the informers' handlers, and no lock is held from the load to the replacement.
 */
module Convergence {
  import opened Wrappers
  import opened Watcher

  /** A handling under way: an object that was loaded and whose workload is to be replaced, or
      workloads that were found and are to be removed. */
  datatype Handling =
    | Syncing(p: Place, spec: Spec, cleared: bool)
    | Removing(slots: set<Slot>)

  datatype Cluster = Cluster(store: Store, table: Table, next: nat, pending: map<nat, Handling>)

  datatype Action =
    | Write(p: Place, content: Option<Spec>)
    | Erase(p: Place)
    | Begin(id: nat, ev: Event, weather: Weather)      // asks the gate, and loads or finds
    | Clear(id: nat, stuck: bool)                      // stops and removes the old workload
    | Insert(id: nat)                                  // adds the new one
    | Remove(id: nat, slot: Slot, stuck: bool)         // one of the found ones goes

  predicate Enabled(c: Cluster, a: Action) {
    match a
    case Write(p, _) => p.namespace != ""
    case Erase(_) => true
    case Begin(id, _, _) => id !in c.pending
    case Clear(id, _) => id in c.pending && c.pending[id].Syncing? && !c.pending[id].cleared
    case Insert(id) => id in c.pending && c.pending[id].Syncing? && c.pending[id].cleared
    case Remove(id, slot, _) => id in c.pending && c.pending[id].Removing? && slot in c.pending[id].slots
  }

  /** What a handling has to do after its first step, if anything. */
  function Begun(c: Cluster, ev: Event, weather: Weather): Option<Handling> {
    if !weather.leading then None
    else if ev.change.Delete? then
      if Matching(c.table, ev.ref) == {} then None else Some(Removing(Matching(c.table, ev.ref)))
    else if !weather.still || !weather.answers then None
    else
      match PlaceOf(ev.ref)
      case None => None
      case Some(p) => if p in c.store && c.store[p].Some? then Some(Syncing(p, c.store[p].value, false)) else None
  }

  function Do(c: Cluster, a: Action): Cluster
    requires Enabled(c, a)
  {
    match a
    case Write(p, content) => c.(store := c.store[p := content])
    case Erase(p) => c.(store := c.store - {p})
    case Begin(id, ev, weather) =>
      var h := Begun(c, ev, weather);
      if h.Some? then c.(pending := c.pending[id := h.value]) else c
    case Clear(id, stuck) =>
      var h := c.pending[id];
      c.(table := if stuck then c.table else c.table - {SlotOf(h.p)}, pending := c.pending[id := h.(cleared := true)])
    case Insert(id) =>
      var h := c.pending[id];
      c.(table := if h.spec.valid && SlotOf(h.p) !in c.table
                  then c.table[SlotOf(h.p) := Workload(Decoded(h.p, h.spec), c.next)] else c.table,
         next := c.next + 1, pending := c.pending - {id})
    case Remove(id, slot, stuck) =>
      // a workload that is gone already is passed over, one that refuses to stop ends the handling
      var left := c.pending[id].slots - {slot};
      if slot in c.table && stuck then c.(pending := c.pending - {id})
      else c.(table := c.table - {slot},
              pending := if left == {} then c.pending - {id} else c.pending[id := Removing(left)])
  }

  predicate Runs(c: Cluster, acts: seq<Action>)
    decreases |acts|
  {
    acts == [] || (Enabled(c, acts[0]) && Runs(Do(c, acts[0]), acts[1..]))
  }

  function End(c: Cluster, acts: seq<Action>): Cluster
    requires Runs(c, acts)
    decreases |acts|
  {
    if acts == [] then c else End(Do(c, acts[0]), acts[1..])
  }

  /** The steps of one sync in a row are what the watcher does when nobody interferes. */
  lemma StepsMakeASync(c: Cluster, id: nat, ev: Event, weather: Weather)
    requires id !in c.pending && !ev.change.Delete? && Begun(c, ev, weather).Some?
    ensures var c1 := Do(c, Begin(id, ev, weather));
            var stuck := SlotOf(c1.pending[id].p) in weather.stuck;
            Do(Do(c1, Clear(id, stuck)), Insert(id)).table == Handled(c.store, c.table, c.next, ev, weather, {})
  {
  }

  // ---------------------------------------------------------------------------------------
  // One object
  // ---------------------------------------------------------------------------------------

  /** The table says of this object what the store says. */
  predicate Agrees(store: Store, t: Table, p: Place) {
    if p in store && store[p].Some? then Says(store, Shape(t), p)
    else SlotOf(p) in t ==> !HasRef(t[SlotOf(p)].config, RefOf(p))
  }

  /** The last step of a handling that fits the store as it is now: what was loaded still stands and
      the slot is free for it, or the object is gone and so is, after this step, its workload. */
  predicate Lands(c: Cluster, a: Action, p: Place)
    requires Enabled(c, a)
  {
    match a
    case Insert(id) =>
      c.pending[id].p == p && p in c.store && c.store[p] == Some(c.pending[id].spec) && SlotOf(p) !in c.table
    case Remove(_, slot, stuck) => slot == SlotOf(p) && p !in c.store && !(slot in c.table && stuck)
    case Begin(_, ev, weather) =>
      && ev.change.Delete? && weather.leading && PlaceOf(ev.ref) == Some(p) && ev.ref.apiVersion == API_VERSION
      && p !in c.store && SlotOf(p) !in Matching(c.table, ev.ref)
    case _ => false
  }

  /** The step changes the object, or the place of its workload. */
  predicate Touches(c: Cluster, a: Action, p: Place)
    requires Enabled(c, a)
  {
    match a
    case Write(q, _) => p == q
    case Erase(q) => p == q
    case Begin(_, _, _) => false
    case Clear(id, _) => SlotOf(c.pending[id].p) == SlotOf(p)
    case Insert(id) => SlotOf(c.pending[id].p) == SlotOf(p)
    case Remove(_, slot, _) => slot == SlotOf(p)
  }

  lemma LandingAgrees(c: Cluster, a: Action, p: Place)
    requires p.namespace != "" && Enabled(c, a) && Lands(c, a, p)
    ensures Agrees(Do(c, a).store, Do(c, a).table, p)
  {
    if a.Begin? && SlotOf(p) in c.table {
      MatchingIsEquality(c.table[SlotOf(p)].config, a.ev.ref);
      MatchingIsEquality(c.table[SlotOf(p)].config, RefOf(p));
    }
  }

  /** Everything under way is about objects that can exist. */
  predicate Proper(c: Cluster) {
    forall id :: id in c.pending ==>
      match c.pending[id]
      case Syncing(q, _, _) => q.namespace != ""
      case Removing(slots) => slots != {}
  }

  lemma StaysProper(c: Cluster, a: Action)
    requires Proper(c) && Enabled(c, a)
    ensures Proper(Do(c, a))
  {
  }

  /** The step of a handling ends the agreement on an object: it takes a workload out that should stay,
      or puts one in where none of this object should be. */
  predicate Harms(c: Cluster, a: Action, p: Place)
    requires Enabled(c, a)
  {
    var wanted := p in c.store && c.store[p].Some? && c.store[p].value.valid;
    match a
    case Clear(id, stuck) => SlotOf(c.pending[id].p) == SlotOf(p) && !stuck && wanted
    case Remove(_, slot, stuck) => slot == SlotOf(p) && !stuck && wanted
    case Insert(id) =>
      var h := c.pending[id];
      && SlotOf(h.p) == SlotOf(p) && h.spec.valid && SlotOf(p) !in c.table
      && (h.p == p || (p in c.store && c.store[p].Some?))
    case _ => false
  }

  /** A step of a handling keeps the agreement on an object exactly if it does it no harm. */
  lemma AgreementExactlyStays(c: Cluster, a: Action, p: Place)
    requires p.namespace != "" && Proper(c) && Enabled(c, a) && Agrees(c.store, c.table, p)
    requires !a.Write? && !a.Erase?
    ensures Agrees(Do(c, a).store, Do(c, a).table, p) <==> !Harms(c, a, p)
  {
  }

  lemma AgreementStays(c: Cluster, a: Action, p: Place)
    requires p.namespace != "" && Proper(c) && Enabled(c, a) && Agrees(c.store, c.table, p)
    requires !Changes(a, p) && !Harms(c, a, p)
    ensures Agrees(Do(c, a).store, Do(c, a).table, p)
  {
    if !a.Write? && !a.Erase? {
      AgreementExactlyStays(c, a, p);
    }
  }

  predicate Changes(a: Action, p: Place) {
    (a.Write? || a.Erase?) && a.p == p
  }

  predicate Unharmed(c: Cluster, acts: seq<Action>, p: Place)
    requires Runs(c, acts)
    decreases |acts|
  {
    acts == [] || (!Changes(acts[0], p) && !Harms(c, acts[0], p) && Unharmed(Do(c, acts[0]), acts[1..], p))
  }

  lemma {:induction false} AgreementLasts(c: Cluster, acts: seq<Action>, p: Place)
    requires p.namespace != "" && Proper(c) && Runs(c, acts) && Unharmed(c, acts, p) && Agrees(c.store, c.table, p)
    ensures Agrees(End(c, acts).store, End(c, acts).table, p)
    decreases |acts|
  {
    if acts != [] {
      AgreementStays(c, acts[0], p);
      StaysProper(c, acts[0]);
      AgreementLasts(Do(c, acts[0]), acts[1..], p);
    }
  }

  /** Somewhere in the run a handling of this object lands, and afterwards the object does not change
      and no step of an older handling, or of a namesake's, does it harm. */
  predicate CaughtUp(c: Cluster, acts: seq<Action>, p: Place)
    requires Runs(c, acts)
    decreases |acts|
  {
    && acts != []
    && (|| (Lands(c, acts[0], p) && Unharmed(Do(c, acts[0]), acts[1..], p))
        || CaughtUp(Do(c, acts[0]), acts[1..], p))
  }

  /** Whatever happened before, from that landing on the table agrees with the store on the object. */
  lemma {:induction false} LastEventDecides(c: Cluster, acts: seq<Action>, p: Place)
    requires p.namespace != "" && Proper(c) && Runs(c, acts) && CaughtUp(c, acts, p)
    ensures Agrees(End(c, acts).store, End(c, acts).table, p)
    decreases |acts|
  {
    StaysProper(c, acts[0]);
    if Lands(c, acts[0], p) && Unharmed(Do(c, acts[0]), acts[1..], p) {
      LandingAgrees(c, acts[0], p);
      AgreementLasts(Do(c, acts[0]), acts[1..], p);
    } else {
      LastEventDecides(Do(c, acts[0]), acts[1..], p);
    }
  }

  // ---------------------------------------------------------------------------------------
  // Deletions and other objects
  // ---------------------------------------------------------------------------------------

  /** The object is in the store, valid, and its workload runs. */
  predicate Standing(c: Cluster, q: Place) {
    q in c.store && c.store[q].Some? && c.store[q].value.valid && Says(c.store, Shape(c.table), q)
  }

  /** The event is the deletion of another object. */
  predicate DeletesOther(ev: Event, q: Place) {
    ev.change.Delete? && (PlaceOf(ev.ref) != Some(q) || ev.ref.apiVersion != API_VERSION)
  }

  /** A handling under way is no danger to the workload of `q`. */
  predicate Spares(c: Cluster, id: nat, q: Place) {
    id in c.pending ==> c.pending[id].Removing? && SlotOf(q) !in c.pending[id].slots
  }

  /** The workload of one object is not among those that the deletion of another finds. */
  lemma DeletionSparesOthers(c: Cluster, id: nat, ev: Event, weather: Weather, q: Place)
    requires q.namespace != "" && Enabled(c, Begin(id, ev, weather)) && Standing(c, q) && DeletesOther(ev, q)
    ensures var c' := Do(c, Begin(id, ev, weather)); Standing(c', q) && Spares(c', id, q)
  {
    MatchingIsEquality(c.table[SlotOf(q)].config, ev.ref);
    assert PlaceOf(RefOf(q)) == Some(q);
  }

  /** Whatever the handling `id` does; the others leave the object unchanged and its workload alone. */
  predicate OnlyOwnSteps(c: Cluster, acts: seq<Action>, id: nat, q: Place)
    requires Runs(c, acts)
    decreases |acts|
  {
    acts == []
    || (&& (Own(acts[0], id) || (!(acts[0].Begin? && acts[0].id == id) && !Changes(acts[0], q) && !Harms(c, acts[0], q)))
        && OnlyOwnSteps(Do(c, acts[0]), acts[1..], id, q))
  }

  lemma {:induction false} SparedStaysStanding(c: Cluster, acts: seq<Action>, id: nat, q: Place)
    requires q.namespace != "" && Proper(c) && Runs(c, acts) && OnlyOwnSteps(c, acts, id, q)
    requires Standing(c, q) && Spares(c, id, q)
    ensures Standing(End(c, acts), q)
    decreases |acts|
  {
    if acts != [] {
      if !Own(acts[0], id) {
        AgreementStays(c, acts[0], q);
      }
      StaysProper(c, acts[0]);
      SparedStaysStanding(Do(c, acts[0]), acts[1..], id, q);
    }
  }

  /** The deletion of one object, however far its handling gets and whatever it meets, leaves the workload
      of every other object running. */
  lemma DeletionLeavesOthersStanding(c: Cluster, id: nat, ev: Event, weather: Weather, q: Place, acts: seq<Action>)
    requires q.namespace != "" && Proper(c) && Standing(c, q) && DeletesOther(ev, q)
    requires Enabled(c, Begin(id, ev, weather))
    requires Runs(Do(c, Begin(id, ev, weather)), acts) && OnlyOwnSteps(Do(c, Begin(id, ev, weather)), acts, id, q)
    ensures Standing(End(Do(c, Begin(id, ev, weather)), acts), q)
  {
    DeletionSparesOthers(c, id, ev, weather, q);
    StaysProper(c, Begin(id, ev, weather));
    SparedStaysStanding(Do(c, Begin(id, ev, weather)), acts, id, q);
  }

  // ---------------------------------------------------------------------------------------
  // When a handling lands
  // ---------------------------------------------------------------------------------------

  /** Steps of others that leave the object and its slot alone. */
  predicate Aside(c: Cluster, acts: seq<Action>, p: Place, id: nat)
    requires Runs(c, acts)
    decreases |acts|
  {
    acts == [] || (!Touches(c, acts[0], p) && !Own(acts[0], id) && Aside(Do(c, acts[0]), acts[1..], p, id))
  }

  predicate Own(a: Action, id: nat) {
    (a.Clear? || a.Insert? || a.Remove?) && a.id == id
  }

  lemma {:induction false} AsideKeeps(c: Cluster, acts: seq<Action>, p: Place, id: nat)
    requires Runs(c, acts) && Aside(c, acts, p, id) && id in c.pending
    ensures var e := End(c, acts);
            && id in e.pending && e.pending[id] == c.pending[id]
            && (p in e.store <==> p in c.store) && (p in c.store ==> e.store[p] == c.store[p])
            && (SlotOf(p) in e.table <==> SlotOf(p) in c.table)
    decreases |acts|
  {
    if acts != [] {
      AsideKeeps(Do(c, acts[0]), acts[1..], p, id);
    }
  }

  /** A sync lands if the gate is open, the server answers, the old workload stops, and between its
      steps nobody changes the object or works on its slot. */
  lemma UndisturbedSyncLands(c: Cluster, id: nat, ev: Event, weather: Weather, p: Place, between: seq<Action>, later: seq<Action>)
    requires Enabled(c, Begin(id, ev, weather)) && !ev.change.Delete? && Fair(weather)
    requires PlaceOf(ev.ref) == Some(p) && p in c.store && c.store[p].Some?
    requires Runs(Do(c, Begin(id, ev, weather)), between) && Aside(Do(c, Begin(id, ev, weather)), between, p, id)
    ensures Enabled(End(Do(c, Begin(id, ev, weather)), between), Clear(id, false))
    ensures var c2 := Do(End(Do(c, Begin(id, ev, weather)), between), Clear(id, false));
            Runs(c2, later) && Aside(c2, later, p, id) ==> Enabled(End(c2, later), Insert(id)) && Lands(End(c2, later), Insert(id), p)
  {
    var c1 := Do(c, Begin(id, ev, weather));
    AsideKeeps(c1, between, p, id);
    var c2 := Do(End(c1, between), Clear(id, false));
    if Runs(c2, later) && Aside(c2, later, p, id) {
      AsideKeeps(c2, later, p, id);
    }
  }

  /** The event fits the store, and its handler meets nothing unusual. */
  predicate Fits(c: Cluster, ev: Event, weather: Weather, p: Place) {
    && Fair(weather) && PlaceOf(ev.ref) == Some(p) && ev.ref.apiVersion == API_VERSION
    && if ev.change.Delete? then p !in c.store else p in c.store && c.store[p].Some?
  }

  /** The handling makes a step, and the workload stops; or somebody else acts elsewhere. */
  predicate Peaceful(c: Cluster, a: Action, p: Place, id: nat)
    requires Enabled(c, a)
  {
    if Own(a, id) then a.Insert? || !a.stuck
    else !Touches(c, a, p) && !(a.Begin? && a.id == id)
  }

  predicate Escorted(c: Cluster, acts: seq<Action>, p: Place, id: nat)
    requires Runs(c, acts)
    decreases |acts|
  {
    acts == [] || (Peaceful(c, acts[0], p, id) && Escorted(Do(c, acts[0]), acts[1..], p, id))
  }

  /** How far the handling of an event that fits has got. */
  predicate Underway(c: Cluster, p: Place, id: nat) {
    if id !in c.pending then Agrees(c.store, c.table, p)
    else
      match c.pending[id]
      case Syncing(q, spec, cleared) =>
        q == p && p in c.store && c.store[p] == Some(spec) && (cleared ==> SlotOf(p) !in c.table)
      case Removing(slots) => p !in c.store && (SlotOf(p) in slots || Agrees(c.store, c.table, p))
  }

  lemma BeginsUnderway(c: Cluster, id: nat, ev: Event, weather: Weather, p: Place)
    requires p.namespace != "" && Enabled(c, Begin(id, ev, weather)) && Fits(c, ev, weather, p)
    ensures Underway(Do(c, Begin(id, ev, weather)), p, id)
  {
    if SlotOf(p) in c.table {
      MatchingIsEquality(c.table[SlotOf(p)].config, ev.ref);
      MatchingIsEquality(c.table[SlotOf(p)].config, RefOf(p));
      assert Normal(ev.ref) == RefOf(p) == Normal(RefOf(p));
      assert HasRef(c.table[SlotOf(p)].config, RefOf(p)) ==> SlotOf(p) in Matching(c.table, ev.ref);
    }
  }

  lemma UnderwayStays(c: Cluster, a: Action, p: Place, id: nat)
    requires Enabled(c, a) && Peaceful(c, a, p, id) && Underway(c, p, id)
    ensures Underway(Do(c, a), p, id)
  {
  }

  lemma {:induction false} EscortedArrives(c: Cluster, acts: seq<Action>, p: Place, id: nat)
    requires Runs(c, acts) && Escorted(c, acts, p, id) && Underway(c, p, id)
    ensures Underway(End(c, acts), p, id)
    decreases |acts|
  {
    if acts != [] {
      UnderwayStays(c, acts[0], p, id);
      EscortedArrives(Do(c, acts[0]), acts[1..], p, id);
    }
  }

  /** Somewhere in the run an event about the object that fits begins to be handled, its handling comes
      to an end, and from its beginning on the object does not change and nobody else works on its slot. */
  predicate AttendedTo(c: Cluster, acts: seq<Action>, p: Place)
    requires Runs(c, acts)
    decreases |acts|
  {
    && acts != []
    && (|| (&& acts[0].Begin? && Fits(c, acts[0].ev, acts[0].weather, p)
            && Escorted(Do(c, acts[0]), acts[1..], p, acts[0].id)
            && acts[0].id !in End(Do(c, acts[0]), acts[1..]).pending)
        || AttendedTo(Do(c, acts[0]), acts[1..], p))
  }

  /** An addition, an update or a deletion that is handled to the end, undisturbed, brings its object in
      line, whatever happened before. */
  lemma {:induction false} LastHandlingDecides(c: Cluster, acts: seq<Action>, p: Place)
    requires p.namespace != "" && Runs(c, acts) && AttendedTo(c, acts, p)
    ensures Agrees(End(c, acts).store, End(c, acts).table, p)
    decreases |acts|
  {
    var d := Do(c, acts[0]);
    if && acts[0].Begin? && Fits(c, acts[0].ev, acts[0].weather, p)
       && Escorted(d, acts[1..], p, acts[0].id) && acts[0].id !in End(d, acts[1..]).pending {
      BeginsUnderway(c, acts[0].id, acts[0].ev, acts[0].weather, p);
      EscortedArrives(d, acts[1..], p, acts[0].id);
    } else {
      LastHandlingDecides(d, acts[1..], p);
    }
  }

  lemma Prepend(c: Cluster, a: Action, rest: seq<Action>)
    requires Enabled(c, a) && Runs(Do(c, a), rest)
    ensures Runs(c, [a] + rest) && End(c, [a] + rest) == End(Do(c, a), rest)
  {
    assert ([a] + rest)[1..] == rest;
  }

  /** Two handlings overlap: a sync loads an object, the object changes, and the event about the change
      is handled from beginning to end. */
  lemma OvertakenSync(p: Place, before: Spec, after: Spec, weather: Weather) returns (c: Cluster)
    requires p.namespace != "" && Fair(weather) && before.valid && after.valid
    ensures var start := Cluster(map[p := Some(before)], map[], 0, map[]);
            var acts := [Begin(1, Event(Add, RefOf(p)), weather)]
                        + ([Write(p, Some(after))] + ([Begin(2, Event(Update, RefOf(p)), weather)] + [Clear(2, false)]));
            Runs(start, acts) && End(start, acts) == c
    ensures c.store == map[p := Some(after)] && c.table == map[]
    ensures c.pending == map[1 := Syncing(p, before, false), 2 := Syncing(p, after, true)]
  {
    assert PlaceOf(RefOf(p)) == Some(p);
    var c0 := Cluster(map[p := Some(before)], map[], 0, map[]);
    var c1 := Do(c0, Begin(1, Event(Add, RefOf(p)), weather));
    var c2 := Do(c1, Write(p, Some(after)));
    var c3 := Do(c2, Begin(2, Event(Update, RefOf(p)), weather));
    c := Do(c3, Clear(2, false));
    Prepend(c3, Clear(2, false), []);
    Prepend(c2, Begin(2, Event(Update, RefOf(p)), weather), [Clear(2, false)]);
    Prepend(c1, Write(p, Some(after)), [Begin(2, Event(Update, RefOf(p)), weather)] + [Clear(2, false)]);
    Prepend(c0, Begin(1, Event(Add, RefOf(p)), weather),
            [Write(p, Some(after))] + ([Begin(2, Event(Update, RefOf(p)), weather)] + [Clear(2, false)]));
  }

  /** The later event lands, after the last change. Then the first sync goes on, and puts the old content
      back: the condition of LastEventDecides on older handlings cannot be dropped. */
  lemma OverlapGoesStale(p: Place, before: Spec, after: Spec, weather: Weather) returns (c: Cluster)
    requires p.namespace != "" && Fair(weather) && before.valid && after.valid && before.body != after.body
    ensures exists start: Cluster, acts: seq<Action> ::
              start.table == map[] && start.pending == map[] && Runs(start, acts) && End(start, acts) == c
    ensures Enabled(c, Insert(2)) && Lands(c, Insert(2), p)
    ensures var c1 := Do(c, Insert(2));
            && Agrees(c1.store, c1.table, p) && Enabled(c1, Clear(1, false))
            && var c2 := Do(c1, Clear(1, false));
               && Enabled(c2, Insert(1))
               && var e := Do(c2, Insert(1)); e.store == c.store && e.pending == map[] && !Agrees(e.store, e.table, p)
  {
    c := OvertakenSync(p, before, after, weather);
    LandingAgrees(c, Insert(2), p);
    var e := Do(Do(Do(c, Insert(2)), Clear(1, false)), Insert(1));
    assert e.table[SlotOf(p)].config == Decoded(p, before);
  }

  // ---------------------------------------------------------------------------------------
  // The whole table
  // ---------------------------------------------------------------------------------------

  /** A workload that stands for a custom resource stands in that object's own slot. */
  predicate Rooted(t: Table, known: set<Place>) {
    forall s :: s in t && t[s].config.ref.Some? ==>
      exists p :: p in known && s == SlotOf(p) && t[s].config.ref == Some(RefOf(p))
  }

  /** Nothing but the known objects is written, and only events about them are handled. */
  predicate About(a: Action, known: set<Place>) {
    match a
    case Write(p, _) => p in known
    case Begin(_, ev, _) => var q := PlaceOf(ev.ref); q.Some? ==> q.value in known
    case _ => true
  }

  predicate Known(c: Cluster, known: set<Place>) {
    && c.store.Keys <= known && Rooted(c.table, known) && (forall p :: p in known ==> p.namespace != "")
    && Proper(c) && (forall id :: id in c.pending && c.pending[id].Syncing? ==> c.pending[id].p in known)
  }

  lemma StaysKnown(c: Cluster, a: Action, known: set<Place>)
    requires Known(c, known) && Enabled(c, a) && About(a, known)
    ensures Known(Do(c, a), known)
  {
    var d := Do(c, a);
    forall s | s in d.table && d.table[s].config.ref.Some?
      ensures exists p :: p in known && s == SlotOf(p) && d.table[s].config.ref == Some(RefOf(p))
    {
      if s in c.table && c.table[s] == d.table[s] {
      } else {
        var p := c.pending[a.id].p;
        assert s == SlotOf(p) && d.table[s].config.ref == Some(RefOf(p));
      }
    }
  }

  lemma {:induction false} RunsStayKnown(c: Cluster, acts: seq<Action>, known: set<Place>)
    requires Known(c, known) && Runs(c, acts) && forall a :: a in acts ==> About(a, known)
    ensures Known(End(c, acts), known)
    decreases |acts|
  {
    if acts != [] {
      StaysKnown(c, acts[0], known);
      RunsStayKnown(Do(c, acts[0]), acts[1..], known);
    }
  }

  /** The custom resources among the workloads are the store, decoded. */
  predicate InLine(c: Cluster) {
    && (forall p :: p in c.store && c.store[p].Some? ==> Says(c.store, Shape(c.table), p))
    && (forall s :: s in c.table && c.table[s].config.ref.Some? ==>
          exists p :: p in c.store && c.store[p].Some? && c.store[p].value.valid
                      && s == SlotOf(p) && c.table[s].config == Decoded(p, c.store[p].value))
  }

  lemma KnownSlotsAgree(c: Cluster, known: set<Place>)
    requires Known(c, known)
    requires forall p :: p in known ==> Agrees(c.store, c.table, p)
    requires forall p :: p in c.store ==> c.store[p].Some?
    ensures InLine(c)
  {
  }

  /** Convergence: however events were reordered, repeated, missed, botched or interleaved before, once
      a handling of every known object has landed and nothing older is left to touch it, the table is
      the decoded store. Objects without a specification cannot be loaded, so the store must not hold
      one at the end. */
  lemma Converges(c: Cluster, acts: seq<Action>, known: set<Place>)
    requires Known(c, known) && Runs(c, acts) && forall a :: a in acts ==> About(a, known)
    requires forall p :: p in known ==> CaughtUp(c, acts, p)
    requires forall p :: p in End(c, acts).store ==> End(c, acts).store[p].Some?
    ensures InLine(End(c, acts))
  {
    RunsStayKnown(c, acts, known);
    forall p | p in known ensures Agrees(End(c, acts).store, End(c, acts).table, p) {
      LastEventDecides(c, acts, p);
    }
    KnownSlotsAgree(End(c, acts), known);
  }

  /** Convergence in terms of events alone: the last event about every known object fits the store and is
      handled to the end, undisturbed. */
  lemma ConvergesByEvents(c: Cluster, acts: seq<Action>, known: set<Place>)
    requires Known(c, known) && Runs(c, acts) && forall a :: a in acts ==> About(a, known)
    requires forall p :: p in known ==> AttendedTo(c, acts, p)
    requires forall p :: p in End(c, acts).store ==> End(c, acts).store[p].Some?
    ensures InLine(End(c, acts))
  {
    RunsStayKnown(c, acts, known);
    forall p | p in known ensures Agrees(End(c, acts).store, End(c, acts).table, p) {
      LastHandlingDecides(c, acts, p);
    }
    KnownSlotsAgree(End(c, acts), known);
  }

  // ---------------------------------------------------------------------------------------
  // Namesakes
  // ---------------------------------------------------------------------------------------

  predicate Clash(store: Store, p: Place, q: Place) {
    && p in store && store[p].Some? && store[p].value.valid
    && q in store && store[q].Some?
    && p != q && SlotOf(p) == SlotOf(q)
  }

  ghost predicate Agreeable(store: Store, t: Table) {
    forall p :: p in store ==> Agrees(store, t, p)
  }

  lemma ClashDivides(store: Store, t: Table, p: Place, q: Place)
    requires Clash(store, p, q)
    ensures !(Agrees(store, t, p) && Agrees(store, t, q))
  {
  }

  /** Tables are keyed by name alone. A table that agrees with the whole store exists exactly if no
      valid object has a namesake in another namespace. */
  lemma AgreementExactly(store: Store)
    requires forall p :: p in store ==> p.namespace != "" && store[p].Some?
    ensures (exists t: Table :: Agreeable(store, t)) <==> (forall p, q :: !Clash(store, p, q))
  {
    if t: Table :| Agreeable(store, t) {
      forall p, q | Clash(store, p, q) ensures false {
        ClashDivides(store, t, p, q);
      }
    }
    if forall p, q :: !Clash(store, p, q) {
      Witness(store);
    }
  }

  lemma Witness(store: Store)
    requires forall p :: p in store ==> p.namespace != "" && store[p].Some?
    requires forall p, q :: !Clash(store, p, q)
    ensures exists t: Table :: Agreeable(store, t)
  {
    var valid := set p | p in store && store[p].value.valid;
    forall p, q | p in valid && q in valid && SlotOf(p) == SlotOf(q) ensures p == q {
      assert !Clash(store, p, q);
    }
    var t: Table := map p | p in valid :: SlotOf(p) := Workload(Decoded(p, store[p].value), 0);
    forall p | p in store ensures Agrees(store, t, p) {
      if p !in valid && SlotOf(p) in t {
        var q :| q in valid && SlotOf(q) == SlotOf(p);
        assert Clash(store, q, p);
        assert false;
      }
    }
    assert Agreeable(store, t);
  }

  /** What namesakes do to each other: adding the second replaces the first, and deleting the second
      leaves no workload although the first object is still there. */
  lemma NamesakesReplaceEachOther(store: Store, t: Table, next: nat, p: Place, q: Place, weather: Weather)
    requires Fair(weather) && p.namespace != "" && q.namespace != ""
    requires Clash(store, p, q) && Clash(store, q, p)
    ensures var t1 := Handled(store, t, next, Event(Add, RefOf(p)), weather, {});
            var t2 := Handled(store, t1, next + 1, Event(Add, RefOf(q)), weather, {});
            var gone := Matching(t2, RefOf(q));
            var t3 := Handled(store - {q}, t2, next + 2, Event(Delete, RefOf(q)), weather, gone);
            && Agrees(store, t1, p)
            && Agrees(store, t2, q) && !Agrees(store, t2, p)
            && Outcome(t2, Event(Delete, RefOf(q)), weather, gone) && p in store - {q} && SlotOf(p) !in t3
  {
    assert PlaceOf(RefOf(p)) == Some(p) && PlaceOf(RefOf(q)) == Some(q);
  }
}
