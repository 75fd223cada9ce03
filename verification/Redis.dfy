/**
  pkg/storage/redis_storage.go. The server expires keys by itself. An acquire is one command, a
  renewal is a read and a script, a release is a script, a read and sometimes a deletion.
 */
module Redis {
  import opened Wrappers

  /** The metadata stored under the key, and the instant the server drops it, if ever. */
  datatype Stored = Stored(value: string, version: int, expires: Option<int>)

  type Keys = map<string, Stored>

  predicate Alive(row: Stored, now: int) {
    row.expires.None? || now < row.expires.value
  }

  predicate Present(m: Keys, key: string, now: int) {
    key in m && Alive(m[key], now)
  }

  predicate OwnedBy(m: Keys, key: string, who: string, now: int) {
    Present(m, key, now) && m[key].value == who
  }

  // ---------------------------------------------------------------------------------------
  // Server commands
  // ---------------------------------------------------------------------------------------

  /** What a successful acquire stores; a zero lifetime means a key that stays. */
  function Claim(now: int, value: string, ttl: nat): Stored {
    Stored(value, now * 1_000_000, if ttl == 0 then None else Some(now + ttl))
  }

  function SetNx(m: Keys, now: int, key: string, value: string, ttl: nat): (Keys, bool) {
    if Present(m, key, now) then (m, false)
    else (m[key := Claim(now, value, ttl)], true)
  }

  /** The renewal script: overwrite the key with the caller's metadata if the stored value is the
      caller's. The lifetime is cut to whole seconds, and the server refuses to expire a key at
      once. */
  function SetIfOwned(m: Keys, now: int, key: string, who: string, ttl: nat, meta: Stored): (Keys, bool) {
    if OwnedBy(m, key, who, now) && ttl >= 1_000
    then (m[key := meta.(expires := Some(now + ttl / 1_000 * 1_000))], true)
    else (m, false)
  }

  function DelIfOwned(m: Keys, now: int, key: string, who: string): (Keys, bool) {
    if OwnedBy(m, key, who, now) then (m - {key}, true) else (m, false)
  }

  // ---------------------------------------------------------------------------------------
  // The store, when nobody interferes
  // ---------------------------------------------------------------------------------------

  class RedisStorage {
    var keys: Keys

    constructor ()
      ensures keys == map[]
    {
      keys := map[];
    }

    method TryAcquireLock(now: int, key: string, value: string, ttl: nat) returns (success: bool)
      modifies this
      ensures success <==> !Present(old(keys), key, now)
      ensures !success ==> keys == old(keys)
      ensures success ==> key in keys && keys[key].value == value && keys[key].version == now * 1_000_000
      ensures success ==> forall t :: now <= t ==> (Present(keys, key, t) <==> ttl == 0 || t < now + ttl)
      ensures forall k :: k != key ==> (k in keys <==> k in old(keys)) && (k in keys ==> keys[k] == old(keys)[k])
    {
      var r := SetNx(keys, now, key, value, ttl);
      keys := r.0;
      return r.1;
    }

    method RenewLock(now: int, key: string, value: string, ttl: nat) returns (success: bool)
      modifies this
      ensures success <==> OwnedBy(old(keys), key, value, now) && ttl >= 1_000
      ensures success ==> OwnedBy(keys, key, value, now) && keys[key].version == old(keys)[key].version + 1
      ensures success ==> forall t :: now <= t ==> (Present(keys, key, t) <==> t < now + ttl / 1_000 * 1_000)
      ensures !success ==> keys == old(keys)
      ensures forall k :: k != key ==> (k in keys <==> k in old(keys)) && (k in keys ==> keys[k] == old(keys)[k])
    {
      if !Present(keys, key, now) {
        return false;
      }
      var metadata := keys[key];
      if metadata.value != value {
        return false;
      }
      metadata := metadata.(version := metadata.version + 1);
      var r := SetIfOwned(keys, now, key, value, ttl, metadata);
      keys := r.0;
      return r.1;
    }

    method ReleaseLock(now: int, key: string, value: string) returns (success: bool)
      modifies this
      ensures success <==> key in old(keys) && old(keys)[key].value == value && Present(old(keys), key, now)
      ensures keys == if success then old(keys) - {key} else old(keys)
    {
      var r := DelIfOwned(keys, now, key, value);
      keys := r.0;
      return r.1;  // the read that follows finds nothing to delete
    }
  }

  // ---------------------------------------------------------------------------------------
  // Interleaved clients of one key
  // ---------------------------------------------------------------------------------------

  /** What a client is in the middle of. */
  datatype Pending =
    | Renewal(who: string, meta: Stored)  // read, and about to run the script
    | Dropped(who: string)                // the release script deleted the key
    | Doubtful(who: string)               // and the key was there again

  datatype World = World(now: int, keys: Keys, pending: map<nat, Pending>)

  datatype Action =
    | Pass(to: int)
    | Acquire(who: string, ttl: nat)
    | ReadForRenewal(id: nat, who: string)
    | WriteRenewal(id: nat, ttl: nat)
    | Release(id: nat, who: string)
    | CheckGone(id: nat)
    | ForceDelete(id: nat)

  const K := "lock"

  predicate Enabled(w: World, a: Action) {
    match a
    case Pass(to) => w.now <= to
    case Acquire(_, _) => true
    case ReadForRenewal(id, _) => id !in w.pending
    case WriteRenewal(id, _) => id in w.pending && w.pending[id].Renewal?
    case Release(id, _) => id !in w.pending
    case CheckGone(id) => id in w.pending && w.pending[id].Dropped?
    case ForceDelete(id) => id in w.pending && w.pending[id].Doubtful?
  }

  function Do(w: World, a: Action): World
    requires Enabled(w, a)
  {
    match a
    case Pass(to) => w.(now := to)
    case Acquire(who, ttl) => w.(keys := SetNx(w.keys, w.now, K, who, ttl).0)
    case ReadForRenewal(id, who) =>
      if OwnedBy(w.keys, K, who, w.now)
      then w.(pending := w.pending[id := Renewal(who, w.keys[K].(version := w.keys[K].version + 1))])
      else w
    case WriteRenewal(id, ttl) =>
      var p := w.pending[id];
      w.(keys := SetIfOwned(w.keys, w.now, K, p.who, ttl, p.meta).0, pending := w.pending - {id})
    case Release(id, who) =>
      var (keys, ok) := DelIfOwned(w.keys, w.now, K, who);
      w.(keys := keys, pending := if ok then w.pending[id := Dropped(who)] else w.pending)
    case CheckGone(id) =>
      if Present(w.keys, K, w.now) then w.(pending := w.pending[id := Doubtful(w.pending[id].who)])
      else w.(pending := w.pending - {id})
    case ForceDelete(id) => w.(keys := w.keys - {K}, pending := w.pending - {id})
  }

  /** The value a client acts for. */
  function Actor(w: World, a: Action): Option<string>
    requires Enabled(w, a)
  {
    match a
    case Pass(_) => None
    case Acquire(who, _) => Some(who)
    case ReadForRenewal(_, who) => Some(who)
    case WriteRenewal(id, _) => Some(w.pending[id].who)
    case Release(_, who) => Some(who)
    case CheckGone(id) => Some(w.pending[id].who)
    case ForceDelete(id) => Some(w.pending[id].who)
  }

  /** Every renewal under way would write its own client's name. */
  predicate Sound(w: World) {
    forall id :: id in w.pending && w.pending[id].Renewal? ==> w.pending[id].meta.value == w.pending[id].who
  }

  lemma StepKeepsSound(w: World, a: Action)
    requires Sound(w) && Enabled(w, a)
    ensures Sound(Do(w, a))
  {
  }

  /** No step of another client changes a lock that is held, with one exception: the deletion
      after a release, and that one always does. */
  lemma OwnershipExactly(w: World, a: Action)
    requires Sound(w) && Enabled(w, a) && Present(w.keys, K, w.now)
    requires Actor(w, a) != Some(w.keys[K].value)
    ensures Do(w, a).keys == w.keys <==> !a.ForceDelete?
  {
  }

  predicate Runs(w: World, acts: seq<Action>)
    decreases |acts|
  {
    acts == [] || (Enabled(w, acts[0]) && Runs(Do(w, acts[0]), acts[1..]))
  }

  function End(w: World, acts: seq<Action>): World
    requires Runs(w, acts)
    decreases |acts|
  {
    if acts == [] then w else End(Do(w, acts[0]), acts[1..])
  }

  /** Steps of other clients than the holder, without deletions, before the lock lapses. */
  predicate Bystanders(w: World, acts: seq<Action>, row: Stored)
    requires Runs(w, acts)
    decreases |acts|
  {
    && Alive(row, w.now)
    && (acts == []
        || (&& Actor(w, acts[0]) != Some(row.value) && !acts[0].ForceDelete?
            && Bystanders(Do(w, acts[0]), acts[1..], row)))
  }

  /** The two steps of a renewal may be far apart: over any history of other clients, the holder's
      record stays as it is. */
  lemma {:induction false} HolderUndisturbed(w: World, acts: seq<Action>)
    requires Sound(w) && Runs(w, acts) && Present(w.keys, K, w.now)
    requires Bystanders(w, acts, w.keys[K])
    ensures End(w, acts).keys == w.keys && Sound(End(w, acts))
    decreases |acts|
  {
    if acts != [] {
      StepKeepsSound(w, acts[0]);
      OwnershipExactly(w, acts[0]);
      HolderUndisturbed(Do(w, acts[0]), acts[1..]);
    }
  }

  // ---------------------------------------------------------------------------------------
  // How long a key lasts
  // ---------------------------------------------------------------------------------------

  /** Every request comes while the key is still there, nobody deletes it by force, and `who` neither
      renews nor releases it. Reads, and the refused steps of others, are free. */
  predicate LeftAlone(w: World, acts: seq<Action>, who: string)
    requires Runs(w, acts)
    decreases |acts|
  {
    acts == []
    || (&& !acts[0].ForceDelete? && (acts[0].Acquire? ==> Present(w.keys, K, w.now))
        && (acts[0].WriteRenewal? || acts[0].Release? ==> Actor(w, acts[0]) != Some(who))
        && LeftAlone(Do(w, acts[0]), acts[1..], who))
  }

  lemma {:induction false} RecordStays(w: World, acts: seq<Action>)
    requires Sound(w) && Runs(w, acts) && K in w.keys && LeftAlone(w, acts, w.keys[K].value)
    ensures End(w, acts).keys == w.keys
    decreases |acts|
  {
    if acts != [] {
      StepKeepsSound(w, acts[0]);
      RecordStays(Do(w, acts[0]), acts[1..]);
    }
  }

  /** `who` gets the lock now, whatever its lifetime. */
  predicate Obtains(w: World, who: string) {
    !Present(w.keys, K, w.now) && OwnedBy(Do(w, Acquire(who, 0)).keys, K, who, w.now)
  }

  /** A key acquired for a lifetime, and then left alone, is there for anybody else to take from the
      end of that lifetime on and not before; without a lifetime it never is. */
  lemma AcquiredKeyLasts(w: World, who: string, ttl: nat, acts: seq<Action>, other: string)
    requires Sound(w) && !Present(w.keys, K, w.now)
    requires Runs(Do(w, Acquire(who, ttl)), acts) && LeftAlone(Do(w, Acquire(who, ttl)), acts, who)
    ensures var e := End(Do(w, Acquire(who, ttl)), acts);
            Obtains(e, other) <==> ttl != 0 && w.now + ttl <= e.now
  {
    StepKeepsSound(w, Acquire(who, ttl));
    RecordStays(Do(w, Acquire(who, ttl)), acts);
  }

  /** A renewal extends the lock by whole seconds. */
  lemma RenewedKeyLasts(w: World, id: nat, ttl: nat, acts: seq<Action>, other: string)
    requires Sound(w) && Enabled(w, WriteRenewal(id, ttl)) && ttl >= 1_000
    requires var who := w.pending[id].who;
             && OwnedBy(w.keys, K, who, w.now)
             && Runs(Do(w, WriteRenewal(id, ttl)), acts) && LeftAlone(Do(w, WriteRenewal(id, ttl)), acts, who)
    ensures var e := End(Do(w, WriteRenewal(id, ttl)), acts);
            Obtains(e, other) <==> w.now + (ttl - ttl % 1_000) <= e.now
  {
    StepKeepsSound(w, WriteRenewal(id, ttl));
    RecordStays(Do(w, WriteRenewal(id, ttl)), acts);
  }

  /** A renewal that nobody with the same name gets in the way of raises the version by one, and leaves
      the lock with its holder. */
  lemma RenewalRaisesVersion(w: World, id: nat, who: string, ttl: nat, acts: seq<Action>)
    requires Sound(w) && Enabled(w, ReadForRenewal(id, who)) && OwnedBy(w.keys, K, who, w.now) && ttl >= 1_000
    requires var w1 := Do(w, ReadForRenewal(id, who));
             Runs(w1, acts) && Elsewhere(acts, id) && Bystanders(w1, acts, w.keys[K])
    ensures var e := End(Do(w, ReadForRenewal(id, who)), acts);
            && Enabled(e, WriteRenewal(id, ttl))
            && (Present(e.keys, K, e.now) ==>
                  var e' := Do(e, WriteRenewal(id, ttl));
                  OwnedBy(e'.keys, K, who, e.now) && e'.keys[K].version == w.keys[K].version + 1)
  {
    var w1 := Do(w, ReadForRenewal(id, who));
    StepKeepsSound(w, ReadForRenewal(id, who));
    HolderUndisturbed(w1, acts);
    HistoryElsewhere(w1, acts, id, {who});
  }

  /** No renewal of `who` is written. */
  predicate Unrenewed(w: World, acts: seq<Action>, who: string)
    requires Runs(w, acts)
    decreases |acts|
  {
    acts == []
    || (&& (acts[0].WriteRenewal? ==> w.pending[acts[0].id].who != who)
        && Unrenewed(Do(w, acts[0]), acts[1..], who))
  }

  predicate RecordOr(w: World, row: Stored, names: set<string>) {
    K in w.keys ==> w.keys[K] == row || w.keys[K].value in names
  }

  lemma {:induction false} RecordOrNewer(w: World, acts: seq<Action>, row: Stored, names: set<string>)
    requires Sound(w) && Runs(w, acts) && Unrenewed(w, acts, row.value) && RecordOr(w, row, names)
    ensures RecordOr(End(w, acts), row, names + Acquirers(acts))
    decreases |acts|
  {
    if acts != [] {
      StepKeepsSound(w, acts[0]);
      var more := if acts[0].Acquire? then {acts[0].who} else {};
      RecordOrNewer(Do(w, acts[0]), acts[1..], row, names + more);
      assert names + more + Acquirers(acts[1..]) == names + Acquirers(acts);
    }
  }

  /** Whatever else happens: once a lock's lifetime is over and its holder has not renewed it, whoever
      holds the key has asked for it since. */
  lemma LapsedLockIsTakenAnew(w: World, acts: seq<Action>)
    requires Sound(w) && Runs(w, acts) && K in w.keys && Unrenewed(w, acts, w.keys[K].value)
    requires !Alive(w.keys[K], End(w, acts).now)
    ensures var e := End(w, acts); Present(e.keys, K, e.now) ==> e.keys[K].value in Acquirers(acts)
  {
    RecordOrNewer(w, acts, w.keys[K], {});
  }

  // ---------------------------------------------------------------------------------------
  // The deletion after a release
  // ---------------------------------------------------------------------------------------

  /** Steps of other clients than `id`. */
  predicate Elsewhere(acts: seq<Action>, id: nat) {
    forall i :: 0 <= i < |acts| ==> !Of(acts[i], id)
  }

  predicate Of(a: Action, id: nat) {
    match a
    case Pass(_) => false
    case Acquire(_, _) => false
    case _ => a.id == id
  }

  /** The values on whose behalf somebody asked for the lock. */
  function Acquirers(acts: seq<Action>): set<string> {
    if acts == [] then {}
    else (if acts[0].Acquire? then {acts[0].who} else {}) + Acquirers(acts[1..])
  }

  predicate HeldFrom(w: World, names: set<string>) {
    K in w.keys ==> w.keys[K].value in names
  }

  /** The key only ever holds a value that was there or was acquired since, and another client's
      unfinished release stays as it is. */
  lemma {:induction false} HistoryElsewhere(w: World, acts: seq<Action>, id: nat, names: set<string>)
    requires Sound(w) && Runs(w, acts) && Elsewhere(acts, id) && id in w.pending && HeldFrom(w, names)
    ensures var e := End(w, acts);
            id in e.pending && e.pending[id] == w.pending[id] && HeldFrom(e, names + Acquirers(acts))
    decreases |acts|
  {
    if acts != [] {
      StepKeepsSound(w, acts[0]);
      var more := if acts[0].Acquire? then {acts[0].who} else {};
      HistoryElsewhere(Do(w, acts[0]), acts[1..], id, names + more);
      assert names + more + Acquirers(acts[1..]) == names + Acquirers(acts);
    }
  }

  /** Whatever others do between a release and its check: the deletion is reached exactly if the key is
      there again at the check, and then it is there because somebody acquired it in between. */
  lemma DeletionNeedsAnIntruder(w: World, id: nat, who: string, acts: seq<Action>)
    requires Sound(w) && Enabled(w, Release(id, who)) && OwnedBy(w.keys, K, who, w.now)
    requires Runs(Do(w, Release(id, who)), acts) && Elsewhere(acts, id)
    ensures var e := End(Do(w, Release(id, who)), acts);
            && Enabled(e, CheckGone(id))
            && (Enabled(Do(e, CheckGone(id)), ForceDelete(id)) <==> Present(e.keys, K, e.now))
            && (Present(e.keys, K, e.now) ==> e.keys[K].value in Acquirers(acts))
  {
    StepKeepsSound(w, Release(id, who));
    HistoryElsewhere(Do(w, Release(id, who)), acts, id, {});
  }

  /** And whatever others do between the check and the deletion, the deletion takes the lock from
      whoever holds it then. */
  lemma DeletionIsBlind(w: World, id: nat, acts: seq<Action>)
    requires Sound(w) && Enabled(w, CheckGone(id)) && Present(w.keys, K, w.now)
    requires Runs(Do(w, CheckGone(id)), acts) && Elsewhere(acts, id)
    ensures var e := End(Do(w, CheckGone(id)), acts);
            Enabled(e, ForceDelete(id)) && !Present(Do(e, ForceDelete(id)).keys, K, e.now)
  {
    StepKeepsSound(w, CheckGone(id));
    HistoryElsewhere(Do(w, CheckGone(id)), acts, id, {w.keys[K].value});
  }
}
