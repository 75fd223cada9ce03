/**
  Handlings that overlap, and what is left when all of them are over: the exact condition under which
  an object that is in line stays so.
 */
module Overlap {
  import opened Wrappers
  import opened Watcher
  import opened Convergence

  /** The rest of a handling: everything but the beginning of a new one, and changes to the store. */
  predicate Finishing(a: Action) {
    a.Clear? || a.Insert? || a.Remove?
  }

  /** A run that ends with nothing under way, and in which nothing begins and nothing changes. */
  predicate Finish(c: Cluster, acts: seq<Action>) {
    Runs(c, acts) && (forall a :: a in acts ==> Finishing(a)) && End(c, acts).pending == map[]
  }

  predicate Wanted(c: Cluster, p: Place) {
    p in c.store && c.store[p].Some? && c.store[p].value.valid
  }

  predicate Unwanted(c: Cluster, p: Place) {
    p in c.store && c.store[p].Some? && !c.store[p].value.valid
  }

  // ---------------------------------------------------------------------------------------
  // Who may still act on a slot
  // ---------------------------------------------------------------------------------------

  predicate Syncs(c: Cluster, id: nat, s: Slot) {
    id in c.pending && c.pending[id].Syncing? && SlotOf(c.pending[id].p) == s
  }

  /** This handling will stop whatever workload it finds. */
  predicate Clears(c: Cluster, id: nat, s: Slot) {
    Syncs(c, id, s) && !c.pending[id].cleared
  }

  predicate Removes(c: Cluster, id: nat, s: Slot) {
    id in c.pending && c.pending[id].Removing? && s in c.pending[id].slots
  }

  /** This handling will put a workload in, if the slot is free. */
  predicate Inserts(c: Cluster, id: nat, s: Slot) {
    Syncs(c, id, s) && c.pending[id].spec.valid
  }

  /** What it carries is what the store holds. */
  predicate Right(c: Cluster, id: nat, p: Place)
    requires id in c.pending && c.pending[id].Syncing?
  {
    c.pending[id].p == p && p in c.store && c.store[p] == Some(c.pending[id].spec)
  }

  /** It may decide what is left in the slot. */
  predicate Contends(c: Cluster, id: nat, s: Slot) {
    Clears(c, id, s) || Inserts(c, id, s)
  }

  predicate Frees(c: Cluster, s: Slot) {
    exists id :: id in c.pending && (Clears(c, id, s) || Removes(c, id, s))
  }

  /** Exactly these handlings under way can undo an agreement for good.
      A wanted workload: one that removes it; or one that clears the slot, if it or another one then
      leaves something else in it. An unwanted one: any that fills the slot. A deleted object: one
      that carries it, if the slot is free or becomes so. */
  predicate Spoils(c: Cluster, p: Place) {
    var s := SlotOf(p);
    if Wanted(c, p) then
      || (exists id :: id in c.pending && Removes(c, id, s))
      || (exists u, x :: u in c.pending && x in c.pending && Clears(c, u, s) && Contends(c, x, s) && !Right(c, x, p))
    else if Unwanted(c, p) then exists x :: x in c.pending && Inserts(c, x, s)
    else (s !in c.table || Frees(c, s)) && exists x :: x in c.pending && Inserts(c, x, s) && c.pending[x].p == p
  }

  // ---------------------------------------------------------------------------------------
  // Nothing that spoils: the agreement is there again in the end
  // ---------------------------------------------------------------------------------------

  /** All handlings that may decide about the slot carry what the store holds. */
  predicate Unanimous(c: Cluster, p: Place) {
    forall x :: x in c.pending && Contends(c, x, SlotOf(p)) ==> Right(c, x, p)
  }

  /** A wanted workload is in its slot, or on its way there; nothing else can get in. */
  predicate Secure(c: Cluster, p: Place)
    requires Wanted(c, p)
  {
    var s := SlotOf(p);
    && (forall id :: id in c.pending ==> !Removes(c, id, s))
    && ((exists u :: u in c.pending && Clears(c, u, s)) ==> Unanimous(c, p))
    && (|| Agrees(c.store, c.table, p)
        || (s !in c.table && Unanimous(c, p) && exists y :: y in c.pending && Inserts(c, y, s)))
  }

  predicate Safe(c: Cluster, p: Place) {
    if Wanted(c, p) then Secure(c, p) else Agrees(c.store, c.table, p) && !Spoils(c, p)
  }

  lemma ClearIsSafe(c: Cluster, id: nat, stuck: bool, p: Place)
    requires Wanted(c, p) && Enabled(c, Clear(id, stuck)) && Secure(c, p)
    ensures Secure(Do(c, Clear(id, stuck)), p)
  {
    var d, s := Do(c, Clear(id, stuck)), SlotOf(p);
    if Clears(c, id, s) {
      assert Contends(c, id, s) && Inserts(d, id, s);
    }
    assert forall x :: x in d.pending && Contends(d, x, s) ==> Contends(c, x, s);
    if y :| y in c.pending && Inserts(c, y, s) {
      assert Inserts(d, y, s);
    }
  }

  lemma InsertIsSafe(c: Cluster, id: nat, p: Place)
    requires Wanted(c, p) && Enabled(c, Insert(id)) && Secure(c, p)
    ensures Secure(Do(c, Insert(id)), p)
  {
    var d, s := Do(c, Insert(id)), SlotOf(p);
    assert forall x :: x in d.pending && Contends(d, x, s) ==> Contends(c, x, s);
    if !Inserts(c, id, s) && exists y :: y in c.pending && Inserts(c, y, s) {
      var y :| y in c.pending && Inserts(c, y, s);
      assert Inserts(d, y, s);
    } else if Inserts(c, id, s) {
      assert Contends(c, id, s);
    }
  }

  lemma RemoveIsSafe(c: Cluster, id: nat, slot: Slot, stuck: bool, p: Place)
    requires Wanted(c, p) && Enabled(c, Remove(id, slot, stuck)) && Secure(c, p)
    ensures Secure(Do(c, Remove(id, slot, stuck)), p)
  {
    var d, s := Do(c, Remove(id, slot, stuck)), SlotOf(p);
    assert !Removes(c, id, s);
    assert forall x :: x in d.pending && Contends(d, x, s) ==> Contends(c, x, s);
    if y :| y in c.pending && Inserts(c, y, s) {
      assert Inserts(d, y, s);
    }
  }

  lemma OtherStaysSafe(c: Cluster, a: Action, p: Place)
    requires p.namespace != "" && Proper(c) && !Wanted(c, p) && Enabled(c, a) && Finishing(a) && Safe(c, p)
    ensures Safe(Do(c, a), p)
  {
  }

  lemma StaysSafe(c: Cluster, a: Action, p: Place)
    requires p.namespace != "" && Proper(c) && Enabled(c, a) && Finishing(a) && Safe(c, p)
    ensures Safe(Do(c, a), p)
  {
    if !Wanted(c, p) {
      OtherStaysSafe(c, a, p);
    } else {
      match a
      case Clear(id, stuck) => ClearIsSafe(c, id, stuck, p);
      case Insert(id) => InsertIsSafe(c, id, p);
      case Remove(id, slot, stuck) => RemoveIsSafe(c, id, slot, stuck, p);
      case _ =>
    }
  }

  lemma AgreementIsSafe(c: Cluster, p: Place)
    requires Agrees(c.store, c.table, p) && !Spoils(c, p)
    ensures Safe(c, p)
  {
    if Wanted(c, p) && exists u :: u in c.pending && Clears(c, u, SlotOf(p)) {
      var u :| u in c.pending && Clears(c, u, SlotOf(p));
      assert forall x :: x in c.pending && Contends(c, x, SlotOf(p)) ==> Right(c, x, p);
    }
  }

  lemma {:induction false} SafeRunsAgree(c: Cluster, acts: seq<Action>, p: Place)
    requires p.namespace != "" && Proper(c) && Safe(c, p) && Finish(c, acts)
    ensures Agrees(End(c, acts).store, End(c, acts).table, p)
    decreases |acts|
  {
    if acts != [] {
      assert acts[0] in acts && forall a :: a in acts[1..] ==> a in acts;
      StaysSafe(c, acts[0], p);
      StaysProper(c, acts[0]);
      SafeRunsAgree(Do(c, acts[0]), acts[1..], p);
    }
  }

  // ---------------------------------------------------------------------------------------
  // Something that spoils: a run that ends out of line
  // ---------------------------------------------------------------------------------------

  /** A finishing run to some cluster. */
  predicate Leads(c: Cluster, acts: seq<Action>, d: Cluster) {
    Runs(c, acts) && (forall a :: a in acts ==> Finishing(a)) && End(c, acts) == d
  }

  lemma LeadsOne(c: Cluster, a: Action)
    requires Enabled(c, a) && Finishing(a)
    ensures Leads(c, [a], Do(c, a))
  {
    assert Runs(Do(c, a), [a][1..]);
  }

  lemma {:induction false} LeadsOn(c: Cluster, acts: seq<Action>, d: Cluster, more: seq<Action>, e: Cluster)
    requires Leads(c, acts, d) && Leads(d, more, e)
    ensures Leads(c, acts + more, e)
    decreases |acts|
  {
    if acts == [] {
      assert [] + more == more;
    } else {
      assert acts[0] in acts && forall a :: a in acts[1..] ==> a in acts;
      assert (acts + more)[1..] == acts[1..] + more;
      LeadsOn(Do(c, acts[0]), acts[1..], d, more, e);
    }
  }

  /** Of what is under way only these are left, and nothing that was in the table has been taken out. */
  predicate Reduced(c: Cluster, d: Cluster, keep: set<nat>) {
    && d.store == c.store
    && d.pending.Keys == c.pending.Keys * keep
    && (forall id :: id in d.pending ==> d.pending[id] == c.pending[id])
    && (forall s :: s in c.table ==> s in d.table && d.table[s] == c.table[s])
  }

  /** A removal whose workloads refuse to stop leaves the table alone. */
  lemma {:induction false} RemovalGivesUp(c: Cluster, id: nat) returns (acts: seq<Action>, d: Cluster)
    requires Proper(c) && id in c.pending && c.pending[id].Removing?
    ensures Leads(c, acts, d) && d == c.(pending := c.pending - {id})
    decreases |c.pending[id].slots|
  {
    var slot :| slot in c.pending[id].slots;
    var a := Remove(id, slot, true);
    d := Do(c, a);
    LeadsOne(c, a);
    acts := [a];
    assert slot !in c.table ==> c.table - {slot} == c.table;
    if id in d.pending {
      StaysProper(c, a);
      var more, e := RemovalGivesUp(d, id);
      LeadsOn(c, acts, d, more, e);
      assert e.pending == c.pending - {id};
      acts, d := acts + more, e;
    }
  }

  /** So does a sync, but for a free slot it may fill. */
  lemma SyncGivesUp(c: Cluster, id: nat) returns (acts: seq<Action>, d: Cluster)
    requires Proper(c) && id in c.pending && c.pending[id].Syncing?
    ensures Leads(c, acts, d) && Reduced(c, d, c.pending.Keys - {id})
  {
    acts, d := [], c;
    if !c.pending[id].cleared {
      LeadsOne(c, Clear(id, true));
      acts, d := [Clear(id, true)], Do(c, Clear(id, true));
    }
    LeadsOne(d, Insert(id));
    LeadsOn(c, acts, d, [Insert(id)], Do(d, Insert(id)));
    acts, d := acts + [Insert(id)], Do(d, Insert(id));
  }

  lemma OneGivesUp(c: Cluster, id: nat) returns (acts: seq<Action>, d: Cluster)
    requires Proper(c) && id in c.pending
    ensures Leads(c, acts, d) && Reduced(c, d, c.pending.Keys - {id})
  {
    if c.pending[id].Removing? {
      acts, d := RemovalGivesUp(c, id);
    } else {
      acts, d := SyncGivesUp(c, id);
    }
  }

  lemma ReducedTwice(c: Cluster, d: Cluster, e: Cluster, id: nat, keep: set<nat>)
    requires id !in keep && Reduced(c, d, c.pending.Keys - {id}) && Reduced(d, e, keep)
    ensures Reduced(c, e, keep) && (Proper(c) ==> Proper(d))
  {
  }

  lemma {:induction false} OthersGiveUp(c: Cluster, keep: set<nat>) returns (acts: seq<Action>, d: Cluster)
    requires Proper(c)
    ensures Leads(c, acts, d) && Reduced(c, d, keep)
    decreases |c.pending.Keys - keep|
  {
    acts, d := [], c;
    if id :| id in c.pending && id !in keep {
      acts, d := OneGivesUp(c, id);
      assert d.pending.Keys - keep == (c.pending.Keys - keep) - {id};
      ReducedTwice(c, d, d, id, c.pending.Keys - {id});
      var more, e := OthersGiveUp(d, keep);
      LeadsOn(c, acts, d, more, e);
      ReducedTwice(c, d, e, id, keep);
      acts, d := acts + more, e;
    }
  }

  /** Some way to finish leaves the object out of line. */
  ghost predicate CanEndBadly(c: Cluster, p: Place) {
    exists acts :: Finish(c, acts) && !Agrees(End(c, acts).store, End(c, acts).table, p)
  }

  lemma Badly(c: Cluster, acts: seq<Action>, d: Cluster, p: Place)
    requires Leads(c, acts, d) && d.pending == map[] && !Agrees(d.store, d.table, p)
    ensures CanEndBadly(c, p)
  {
    assert Finish(c, acts);
  }

  /** Everybody else gives up, and the removal goes through. */
  lemma RemovalSpoils(c: Cluster, id: nat, p: Place)
    requires Proper(c) && Wanted(c, p) && id in c.pending && Removes(c, id, SlotOf(p))
    ensures CanEndBadly(c, p)
  {
    var acts, d := OthersGiveUp(c, {id});
    var more, e := RemovalGoesThrough(d, id);
    LeadsOn(c, acts, d, more, e);
    Badly(c, acts + more, e, p);
  }

  lemma {:induction false} RemovalGoesThrough(c: Cluster, id: nat) returns (acts: seq<Action>, d: Cluster)
    requires id in c.pending && c.pending[id].Removing? && c.pending[id].slots != {} && c.pending.Keys == {id}
    ensures Leads(c, acts, d) && d.store == c.store && d.pending == map[]
    ensures d.table == c.table - c.pending[id].slots
    decreases |c.pending[id].slots|
  {
    var slot :| slot in c.pending[id].slots;
    var a := Remove(id, slot, false);
    d := Do(c, a);
    LeadsOne(c, a);
    acts := [a];
    if c.pending[id].slots == {slot} {
      assert d.pending == map[];
    } else {
      assert c.pending[id].slots - {slot} != {};
      var more, e := RemovalGoesThrough(d, id);
      LeadsOn(c, acts, d, more, e);
      assert c.table - {slot} - (c.pending[id].slots - {slot}) == c.table - c.pending[id].slots;
      acts, d := acts + more, e;
    }
  }

  /** Everybody else gives up, then the sync goes through. */
  lemma LastSync(c: Cluster, id: nat, p: Place) returns (acts: seq<Action>, e: Cluster)
    requires Proper(c) && id in c.pending && Clears(c, id, SlotOf(p))
    ensures Leads(c, acts, e) && e.store == c.store && e.pending == map[]
    ensures var h := c.pending[id];
            if h.spec.valid then SlotOf(p) in e.table && e.table[SlotOf(p)].config == Decoded(h.p, h.spec)
            else SlotOf(p) !in e.table
  {
    var first, d := OthersGiveUp(c, {id});
    LeadsOne(d, Clear(id, false));
    var d1 := Do(d, Clear(id, false));
    LeadsOne(d1, Insert(id));
    e := Do(d1, Insert(id));
    LeadsOn(d, [Clear(id, false)], d1, [Insert(id)], e);
    LeadsOn(c, first, d, [Clear(id, false)] + [Insert(id)], e);
    acts := first + ([Clear(id, false)] + [Insert(id)]);
    assert e.pending == map[];
  }

  /** The slot is freed, the sync fills it, and everybody else gives up. */
  lemma QuickSync(c: Cluster, id: nat, p: Place) returns (acts: seq<Action>, e: Cluster)
    requires Proper(c) && id in c.pending && Inserts(c, id, SlotOf(p)) && c.pending[id].cleared && SlotOf(p) !in c.table
    ensures Leads(c, acts, e) && e.store == c.store && e.pending == map[]
    ensures SlotOf(p) in e.table && e.table[SlotOf(p)].config == Decoded(c.pending[id].p, c.pending[id].spec)
  {
    LeadsOne(c, Insert(id));
    var d := Do(c, Insert(id));
    StaysProper(c, Insert(id));
    var more;
    more, e := OthersGiveUp(d, {});
    LeadsOn(c, [Insert(id)], d, more, e);
    acts := [Insert(id)] + more;
  }

  lemma WrongIsBad(c: Cluster, e: Cluster, id: nat, p: Place)
    requires p.namespace != "" && Proper(c) && id in c.pending && Contends(c, id, SlotOf(p)) && Wanted(c, p) && !Right(c, id, p)
    requires e.store == c.store
    requires var h := c.pending[id];
             if h.spec.valid then SlotOf(p) in e.table && e.table[SlotOf(p)].config == Decoded(h.p, h.spec)
             else SlotOf(p) !in e.table
    ensures !Agrees(e.store, e.table, p)
  {
  }

  lemma StaleSyncSpoils(c: Cluster, u: nat, x: nat, p: Place)
    requires p.namespace != "" && Proper(c) && Wanted(c, p) && u in c.pending && x in c.pending
    requires Clears(c, u, SlotOf(p)) && Contends(c, x, SlotOf(p)) && !Right(c, x, p)
    ensures CanEndBadly(c, p)
  {
    if Clears(c, x, SlotOf(p)) {
      var acts, e := LastSync(c, x, p);
      WrongIsBad(c, e, x, p);
      Badly(c, acts, e, p);
    } else {
      var d := Do(c, Clear(u, false));
      LeadsOne(c, Clear(u, false));
      StaysProper(c, Clear(u, false));
      var more, e := QuickSync(d, x, p);
      LeadsOn(c, [Clear(u, false)], d, more, e);
      WrongIsBad(c, e, x, p);
      Badly(c, [Clear(u, false)] + more, e, p);
    }
  }

  /** A sync ends with something in its slot, whoever put it there. */
  lemma FillSpoils(c: Cluster, x: nat, p: Place)
    requires Proper(c) && Unwanted(c, p) && x in c.pending && Inserts(c, x, SlotOf(p))
    ensures CanEndBadly(c, p)
  {
    if c.pending[x].cleared {
      var first, d := OthersGiveUp(c, {x});
      LeadsOne(d, Insert(x));
      var e := Do(d, Insert(x));
      LeadsOn(c, first, d, [Insert(x)], e);
      assert e.pending == map[];
      Badly(c, first + [Insert(x)], e, p);
    } else {
      var acts, e := LastSync(c, x, p);
      Badly(c, acts, e, p);
    }
  }

  /** A deleted object comes back. */
  lemma GhostSpoils(c: Cluster, x: nat, p: Place)
    requires p.namespace != "" && Proper(c) && !Wanted(c, p) && !Unwanted(c, p)
    requires x in c.pending && Inserts(c, x, SlotOf(p)) && c.pending[x].p == p
    requires SlotOf(p) !in c.table || Frees(c, SlotOf(p))
    ensures CanEndBadly(c, p)
  {
    var s := SlotOf(p);
    var acts, e;
    if !c.pending[x].cleared {
      acts, e := LastSync(c, x, p);
    } else if s !in c.table {
      acts, e := QuickSync(c, x, p);
    } else {
      var u :| u in c.pending && (Clears(c, u, s) || Removes(c, u, s));
      var a := if Clears(c, u, s) then Clear(u, false) else Remove(u, s, false);
      LeadsOne(c, a);
      StaysProper(c, a);
      var more;
      more, e := QuickSync(Do(c, a), x, p);
      LeadsOn(c, [a], Do(c, a), more, e);
      acts := [a] + more;
    }
    Badly(c, acts, e, p);
  }

  /** An object in line stays in line, or is in line again, however everything under way is finished,
      exactly if nothing under way spoils it. */
  lemma EndsWellExactly(c: Cluster, p: Place)
    requires p.namespace != "" && Proper(c) && Agrees(c.store, c.table, p)
    ensures (forall acts :: Finish(c, acts) ==> Agrees(End(c, acts).store, End(c, acts).table, p)) <==> !Spoils(c, p)
  {
    if !Spoils(c, p) {
      AgreementIsSafe(c, p);
      forall acts | Finish(c, acts) ensures Agrees(End(c, acts).store, End(c, acts).table, p) {
        SafeRunsAgree(c, acts, p);
      }
    } else {
      SpoilersCanAct(c, p);
    }
  }

  lemma SpoilersCanAct(c: Cluster, p: Place)
    requires p.namespace != "" && Proper(c) && Spoils(c, p)
    ensures CanEndBadly(c, p)
  {
    var s := SlotOf(p);
    if Wanted(c, p) {
      if id :| id in c.pending && Removes(c, id, s) {
        RemovalSpoils(c, id, p);
      } else {
        var u, x :| u in c.pending && x in c.pending && Clears(c, u, s) && Contends(c, x, s) && !Right(c, x, p);
        StaleSyncSpoils(c, u, x, p);
      }
    } else if Unwanted(c, p) {
      var x :| x in c.pending && Inserts(c, x, s);
      FillSpoils(c, x, p);
    } else {
      var x :| x in c.pending && Inserts(c, x, s) && c.pending[x].p == p;
      GhostSpoils(c, x, p);
    }
  }
}
