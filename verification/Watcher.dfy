/**
  pkg/workloads/crd_watcher.go as a reconciler: custom resource objects live in the API server's
  store, events about them arrive in any order and any number of times, and each event brings the
  workload tables in line with the store. The four workload managers are one table here, keyed by
  the kind of workload and its name.
 */
module Watcher {
  import opened Wrappers

  // ---------------------------------------------------------------------------------------
  // Data
  // ---------------------------------------------------------------------------------------

  datatype Kind = Process | Service | CronJob | Persistent

  /** Where an object lives in the store. Its namespace is never empty there. */
  datatype Place = Place(kind: Kind, namespace: string, name: string)

  /** A workload specification: what the decoders read off it, and whether that passes validation. */
  datatype Spec = Spec(body: string, valid: bool)

  /** An object may lack a specification. */
  type Store = map<Place, Option<Spec>>

  datatype Ref = Ref(apiVersion: string, kind: string, name: string, namespace: string)

  /** One entry of a manager's table. */
  datatype Slot = Slot(kind: Kind, name: string)

  datatype Config = Config(ref: Option<Ref>, namespace: string, body: string)

  /** A workload: its configuration, and the identity it got when it was created. */
  datatype Workload = Workload(config: Config, id: nat)

  type Table = map<Slot, Workload>

  const API_VERSION := "highlander.plexobject.io/v1"

  function KindOf(kind: string): Option<Kind> {
    if kind == "WorkloadProcess" then Some(Process)
    else if kind == "WorkloadService" then Some(Service)
    else if kind == "WorkloadCronJob" then Some(CronJob)
    else if kind == "WorkloadPersistent" then Some(Persistent)
    else None
  }

  function Spelling(kind: Kind): (s: string)
    ensures KindOf(s) == Some(kind)
  {
    match kind
    case Process => "WorkloadProcess"
    case Service => "WorkloadService"
    case CronJob => "WorkloadCronJob"
    case Persistent => "WorkloadPersistent"
  }

  function Settled(namespace: string): string {
    if namespace == "" then "default" else namespace
  }

  /** The object a reference means. */
  function PlaceOf(ref: Ref): Option<Place> {
    match KindOf(ref.kind)
    case None => None
    case Some(kind) => Some(Place(kind, Settled(ref.namespace), ref.name))
  }

  /** The reference an object goes by. */
  function RefOf(p: Place): Ref {
    Ref(API_VERSION, Spelling(p.kind), p.name, p.namespace)
  }

  function SlotOf(p: Place): Slot {
    Slot(p.kind, p.name)
  }

  /** workloadHasCRDRef */
  predicate HasRef(config: Config, ref: Ref) {
    && config.ref.Some?
    && var own := config.ref.value;
       && own.apiVersion == ref.apiVersion
       && own.kind == ref.kind
       && own.name == ref.name
       && (|| own.namespace == ref.namespace
           || (own.namespace == "" && ref.namespace == "default")
           || (own.namespace == "default" && ref.namespace == ""))
  }

  function Normal(ref: Ref): Ref {
    ref.(namespace := Settled(ref.namespace))
  }

  /** The workload was made from the object the reference means. */
  predicate StandsFor(config: Config, ref: Ref) {
    config.ref.Some? && Normal(config.ref.value) == Normal(ref)
  }

  /** Two references match exactly if they are the same with "" read as "default": they then mean
      the same object, and a served reference means one object only. */
  lemma MatchingIsEquality(config: Config, ref: Ref)
    ensures HasRef(config, ref) <==> StandsFor(config, ref)
    ensures HasRef(config, ref) ==> PlaceOf(config.ref.value) == PlaceOf(ref)
    ensures forall p: Place :: p.namespace != "" && PlaceOf(ref) == Some(p) && ref.apiVersion == API_VERSION
              ==> Normal(ref) == RefOf(p)
  {
  }

  // ---------------------------------------------------------------------------------------
  // Handling one event
  // ---------------------------------------------------------------------------------------

  datatype Change = Add | Update | Delete

  datatype Event = Event(change: Change, ref: Ref)

  /** What an event meets while it is handled: what the monitor says when the handler asks at
      first and again before it syncs, whether the API server answers, which workloads refuse to
      stop, and whether starts succeed. */
  datatype Weather = Weather(leading: bool, still: bool, answers: bool, stuck: set<Slot>, starts: bool)

  predicate Fair(weather: Weather) {
    weather.leading && weather.still && weather.answers && weather.stuck == {}
  }

  /** LoadWorkloadFromCRD: the configuration, the slot it goes to and whether it is valid. */
  function Load(store: Store, ref: Ref, answers: bool): Option<(Slot, Config, bool)> {
    match PlaceOf(ref)
    case None => None
    case Some(p) =>
      if !answers || p !in store || store[p].None? then None
      else Some((SlotOf(p), Config(Some(RefOf(p)), p.namespace, store[p].value.body), store[p].value.valid))
  }

  /** The table after a sync: the old workload goes if it lets itself be stopped, the new one
      comes if it is valid and its place is free. */
  function Synced(store: Store, t: Table, next: nat, ref: Ref, weather: Weather): Table {
    match Load(store, ref, weather.answers)
    case None => t
    case Some((slot, config, valid)) =>
      if slot in t && slot in weather.stuck then t
      else if valid then t[slot := Workload(config, next)]
      else t - {slot}
  }

  /** The workload was replaced and started. */
  predicate Succeeds(store: Store, t: Table, ref: Ref, weather: Weather) {
    match Load(store, ref, weather.answers)
    case None => false
    case Some((slot, _, valid)) => valid && !(slot in t && slot in weather.stuck) && weather.starts
  }

  function Matching(t: Table, ref: Ref): set<Slot> {
    set s | s in t && HasRef(t[s].config, ref)
  }

  /** What a deletion may take out: matching workloads only, and all of them if none is stuck. */
  predicate Removable(t: Table, ref: Ref, stuck: set<Slot>, gone: set<Slot>) {
    && gone <= Matching(t, ref) - stuck
    && (Matching(t, ref) !! stuck ==> gone == Matching(t, ref))
  }

  /** A deletion takes out no workload of another object, and none without an object; and all of its
      own unless one is stuck. */
  lemma RemovesOwnOnly(t: Table, ref: Ref, stuck: set<Slot>, gone: set<Slot>)
    requires Removable(t, ref, stuck, gone)
    ensures forall s :: s in t && !StandsFor(t[s].config, ref) ==> s in t - gone
    ensures (forall s :: s in stuck && s in t ==> !StandsFor(t[s].config, ref))
            ==> forall s :: s in t - gone ==> !StandsFor(t[s].config, ref)
  {
  }

  predicate Outcome(t: Table, ev: Event, weather: Weather, gone: set<Slot>) {
    if ev.change.Delete? && weather.leading then Removable(t, ev.ref, weather.stuck, gone) else gone == {}
  }

  function Handled(store: Store, t: Table, next: nat, ev: Event, weather: Weather, gone: set<Slot>): Table {
    if !weather.leading then t
    else if ev.change.Delete? then t - gone
    else if !weather.still then t
    else Synced(store, t, next, ev.ref, weather)
  }

  /** pkg/workloads/crd_watcher.go and the managers behind it. */
  class CRDWatcher {
    var table: Table
    var next: nat

    constructor (initial: Table)
      ensures table == initial && next == 0
    {
      table := initial;
      next := 0;
    }

    /** AddProcess and its three siblings. */
    method AddWorkload(slot: Slot, config: Config, valid: bool, starts: bool) returns (ok: bool)
      modifies this
      ensures ok <==> valid && slot !in old(table) && starts
      ensures table == if valid && slot !in old(table) then old(table)[slot := Workload(config, old(next))]
                       else old(table)
      ensures next == if table == old(table) then old(next) else old(next) + 1
    {
      if !valid {
        return false;
      }
      if slot in table {
        return false;
      }
      table := table[slot := Workload(config, next)];
      next := next + 1;
      if !starts {
        return false;
      }
      return true;
    }

    method RemoveWorkload(slot: Slot, stuck: set<Slot>) returns (ok: bool)
      modifies this`table
      ensures ok <==> slot in old(table) && slot !in stuck
      ensures table == if ok then old(table) - {slot} else old(table)
    {
      if slot !in table {
        return false;
      }
      if slot in stuck {
        return false;
      }
      table := table - {slot};
      return true;
    }

    method SyncWorkloadFromCRD(store: Store, ref: Ref, weather: Weather) returns (count: int)
      modifies this
      ensures table == if weather.still then Synced(store, old(table), old(next), ref, weather) else old(table)
      ensures next >= old(next)
      ensures count == if weather.still && Succeeds(store, old(table), ref, weather) then 1 else 0
      ensures var p := PlaceOf(ref);
              if !weather.still || !weather.answers || p.None? || p.value !in store || store[p.value].None?
                 || (SlotOf(p.value) in old(table) && SlotOf(p.value) in weather.stuck)
              then count == 0 && table == old(table)
              else
                var spec, slot := store[p.value].value, SlotOf(p.value);
                && (slot in table <==> spec.valid)
                && (spec.valid ==> table[slot].config == Config(Some(RefOf(p.value)), p.value.namespace, spec.body))
                && count == if spec.valid && weather.starts then 1 else 0
      ensures forall s :: (PlaceOf(ref).None? || s != SlotOf(PlaceOf(ref).value)) ==>
                            (s in table <==> s in old(table)) && (s in table ==> table[s] == old(table)[s])
    {
      if !weather.still {
        return 0;
      }
      var loaded := Load(store, ref, weather.answers);
      if loaded.None? {
        return 0;
      }
      var (slot, config, valid) := loaded.value;
      if slot in table {
        // both errors are only logged
        var _ := RemoveWorkload(slot, weather.stuck);
      }
      var added := AddWorkload(slot, config, valid, weather.starts);
      count := if added then 1 else 0;
    }

    method RemoveWorkloadWithCRDRef(ref: Ref, stuck: set<Slot>) returns (ghost gone: set<Slot>)
      modifies this`table
      ensures Removable(old(table), ref, stuck, gone)
      ensures table == old(table) - gone
      ensures forall s :: s in table ==> s in old(table) && table[s] == old(table)[s]
      ensures forall s :: s in old(table) && !StandsFor(old(table)[s].config, ref) ==> s in table
      ensures (forall s :: s in stuck && s in old(table) ==> !StandsFor(old(table)[s].config, ref))
              ==> forall s :: s in table ==> !StandsFor(table[s].config, ref)
    {
      ghost var before := table;
      var left := Matching(table, ref);
      gone := {};
      while left != {}
        invariant left + gone == Matching(old(table), ref) && left !! gone
        invariant gone !! stuck
        invariant table == old(table) - gone
        decreases |left|
      {
        var slot :| slot in left;
        var ok := RemoveWorkload(slot, stuck);
        if !ok {
          RemovesOwnOnly(before, ref, stuck, gone);
          return;  // the remaining workloads stay
        }
        left := left - {slot};
        gone := gone + {slot};
      }
      RemovesOwnOnly(before, ref, stuck, gone);
    }

    method ProcessCRDChange(store: Store, ev: Event, weather: Weather) returns (count: int, ghost gone: set<Slot>)
      modifies this
      ensures Outcome(old(table), ev, weather, gone)
      ensures table == Handled(store, old(table), old(next), ev, weather, gone)
      ensures next >= old(next)
      ensures count == if !weather.leading then 0
                       else if ev.change.Delete? then -1
                       else if weather.still && Succeeds(store, old(table), ev.ref, weather) then 1 else 0
      ensures !weather.leading ==> table == old(table)
      ensures ev.change.Delete? ==>
                && (forall s :: s in table ==> s in old(table) && table[s] == old(table)[s])
                && (forall s :: s in old(table) && !StandsFor(old(table)[s].config, ev.ref) ==> s in table)
                && (Fair(weather) ==> forall s :: s in table ==> !StandsFor(table[s].config, ev.ref))
      ensures !ev.change.Delete? ==>
                forall s :: (PlaceOf(ev.ref).None? || s != SlotOf(PlaceOf(ev.ref).value)) ==>
                              (s in table <==> s in old(table)) && (s in table ==> table[s] == old(table)[s])
    {
      gone := {};
      if !weather.leading {
        return 0, {};
      }
      match ev.change {
        case Delete =>
          gone := RemoveWorkloadWithCRDRef(ev.ref, weather.stuck);
          count := -1;
        case _ =>
          count := SyncWorkloadFromCRD(store, ev.ref, weather);
      }
    }

    /** The objects of all four kinds are handled, in the order they were listed, as additions. */
    method PerformInitialSync(store: Store, items: seq<Place>, weathers: seq<Weather>)
      requires |items| == |weathers| && Served(items)
      modifies this
      ensures Shape(table) == Overlay(store, Shape(old(table)), items, weathers)
    {
      var i := 0;
      while i < |items|
        invariant 0 <= i <= |items|
        invariant Shape(table) == Overlay(store, Shape(old(table)), items[..i], weathers[..i])
      {
        ghost var before, id := table, next;
        var _, _ := ProcessCRDChange(store, Event(Add, RefOf(items[i])), weathers[i]);
        SyncOverlays(store, before, id, items[i], weathers[i]);
        assert items[..i + 1][..i] == items[..i] && weathers[..i + 1][..i] == weathers[..i];
        i := i + 1;
      }
      assert items[..i] == items && weathers[..i] == weathers;
    }
  }

  // ---------------------------------------------------------------------------------------
  // The initial sync, up to identities
  // ---------------------------------------------------------------------------------------

  type Configs = map<Slot, Config>

  function Shape(t: Table): Configs {
    map s | s in t :: t[s].config
  }

  predicate Served(items: seq<Place>) {
    forall p :: p in items ==> p.namespace != ""
  }

  function Decoded(p: Place, spec: Spec): Config {
    Config(Some(RefOf(p)), p.namespace, spec.body)
  }

  /** The configurations after one object was handled as an addition. */
  function Put(store: Store, c: Configs, p: Place, weather: Weather): Configs {
    if !weather.leading || !weather.still || !weather.answers || p !in store || store[p].None? then c
    else if SlotOf(p) in c && SlotOf(p) in weather.stuck then c
    else if store[p].value.valid then c[SlotOf(p) := Decoded(p, store[p].value)]
    else c - {SlotOf(p)}
  }

  function Overlay(store: Store, c: Configs, items: seq<Place>, weathers: seq<Weather>): Configs
    requires |items| == |weathers|
    decreases |items|
  {
    if items == [] then c
    else
      var n := |items| - 1;
      Put(store, Overlay(store, c, items[..n], weathers[..n]), items[n], weathers[n])
  }

  lemma SyncOverlays(store: Store, t: Table, next: nat, p: Place, weather: Weather)
    requires p.namespace != ""
    ensures Shape(Handled(store, t, next, Event(Add, RefOf(p)), weather, {})) == Put(store, Shape(t), p, weather)
  {
  }

  /** The last of the listed objects that says something about a slot, if any. */
  function LastWord(store: Store, items: seq<Place>, s: Slot): (i: int)
    ensures -1 <= i < |items|
    ensures i >= 0 ==> SlotOf(items[i]) == s && items[i] in store && store[items[i]].Some?
    ensures forall j :: i < j < |items| && SlotOf(items[j]) == s && items[j] in store ==> store[items[j]].None?
    decreases |items|
  {
    if items == [] then -1
    else
      var n := |items| - 1;
      if SlotOf(items[n]) == s && items[n] in store && store[items[n]].Some? then n
      else LastWord(store, items[..n], s)
  }

  predicate Says(store: Store, c: Configs, p: Place)
    requires p in store && store[p].Some?
  {
    if store[p].value.valid then SlotOf(p) in c && c[SlotOf(p)] == Decoded(p, store[p].value)
    else SlotOf(p) !in c
  }

  predicate Same(a: Configs, b: Configs, s: Slot) {
    (s in a <==> s in b) && (s in a ==> a[s] == b[s])
  }

  /** One addition decides its own slot, if there is something to add, and no other. */
  lemma PutDecides(store: Store, c: Configs, p: Place, weather: Weather, s: Slot)
    requires Fair(weather)
    ensures var after := Put(store, c, p, weather);
            if SlotOf(p) == s && p in store && store[p].Some? then Says(store, after, p) else Same(after, c, s)
  {
  }

  /** After an undisturbed sync, every slot is as the last object listed for it says, and a slot
      nothing was listed for is as it was. */
  lemma {:induction false} SweepDecides(store: Store, c: Configs, items: seq<Place>, weathers: seq<Weather>, s: Slot)
    requires |items| == |weathers| && forall w :: w in weathers ==> Fair(w)
    ensures var i := LastWord(store, items, s);
            var after := Overlay(store, c, items, weathers);
            if i == -1 then Same(after, c, s) else Says(store, after, items[i])
    decreases |items|
  {
    if items != [] {
      var n := |items| - 1;
      SweepDecides(store, c, items[..n], weathers[..n], s);
      PutDecides(store, Overlay(store, c, items[..n], weathers[..n]), items[n], weathers[n], s);
    }
  }

  /** Two undisturbed syncs in a row leave what one leaves. */
  lemma SyncIsIdempotent(store: Store, c: Configs, items: seq<Place>, first: seq<Weather>, second: seq<Weather>)
    requires |items| == |first| == |second|
    requires (forall w :: w in first ==> Fair(w)) && (forall w :: w in second ==> Fair(w))
    ensures Overlay(store, Overlay(store, c, items, first), items, second) == Overlay(store, c, items, first)
  {
    var once := Overlay(store, c, items, first);
    var twice := Overlay(store, once, items, second);
    forall s: Slot ensures Same(twice, once, s) {
      SweepDecides(store, c, items, first, s);
      SweepDecides(store, once, items, second, s);
    }
    assert forall s :: s in twice ==> Same(twice, once, s);
    assert forall s :: s in once ==> Same(twice, once, s);
  }

  /** The order of the listing only matters to namesakes, that is, to objects of one kind and one
      name in two namespaces. */
  lemma ListingOrderIsImmaterial(store: Store, c: Configs, one: seq<Place>, two: seq<Place>, w1: seq<Weather>, w2: seq<Weather>)
    requires |one| == |w1| && |two| == |w2|
    requires (forall w :: w in w1 ==> Fair(w)) && (forall w :: w in w2 ==> Fair(w))
    requires forall p: Place :: p in one <==> p in two
    requires forall p, q :: p in one && q in one && SlotOf(p) == SlotOf(q) ==> p == q
    ensures Overlay(store, c, one, w1) == Overlay(store, c, two, w2)
    ensures forall p :: p in one && p in store && store[p].Some? ==> Says(store, Overlay(store, c, one, w1), p)
    ensures forall s :: (forall p :: p in one ==> SlotOf(p) != s) ==> Same(Overlay(store, c, one, w1), c, s)
  {
    var a := Overlay(store, c, one, w1);
    var b := Overlay(store, c, two, w2);
    forall s: Slot ensures Same(a, b, s) {
      SweepDecides(store, c, one, w1, s);
      SweepDecides(store, c, two, w2, s);
      var i, j := LastWord(store, one, s), LastWord(store, two, s);
      if i >= 0 {
        assert one[i] in two;
      }
      if j >= 0 {
        assert two[j] in one;
      }
    }
    assert forall s :: s in a ==> Same(a, b, s);
    assert forall s :: s in b ==> Same(a, b, s);
    forall p | p in one && p in store && store[p].Some? ensures Says(store, a, p) {
      SweepDecides(store, c, one, w1, SlotOf(p));
    }
    forall s | forall p :: p in one ==> SlotOf(p) != s ensures Same(a, c, s) {
      SweepDecides(store, c, one, w1, s);
    }
  }
}
