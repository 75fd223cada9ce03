/**
  pkg/storage/db_storage.go on dialects other than SQLite: one row per key, and an acquire that is
  a read, then an update or a transaction, then a verification, with everybody else's statements
  in between.
 */
module Database {
  import opened Wrappers

  /** `meta` is the version inside the JSON metadata; None if it cannot be parsed. */
  datatype Row = Row(value: string, created: int, updated: int, expires: int, version: int, meta: Option<int>)

  type Table = map<string, Row>

  // ---------------------------------------------------------------------------------------
  // Statements and transactions
  // ---------------------------------------------------------------------------------------

  predicate Active(t: Table, now: int, key: string) {
    key in t && t[key].expires > now
  }

  /** UPDATE ... WHERE key = ? AND value = ?: only the columns, not the metadata, and whether or
      not the row has expired. `stamp` is the clock read before the statement. */
  function Extend(t: Table, stamp: int, key: string, value: string, ttl: int): (Table, bool) {
    if key in t && t[key].value == value
    then (t[key := t[key].(updated := stamp, expires := stamp + ttl, version := t[key].version + 1)], true)
    else (t, false)
  }

  function NewRow(stamp: int, value: string, ttl: int): Row {
    Row(value, stamp, stamp, stamp + ttl, stamp * 1_000_000, Some(stamp * 1_000_000))
  }

  /** Delete the row if it had expired at `stamp`; insert a new one if none is left. */
  function Create(t: Table, stamp: int, key: string, value: string, ttl: int): (Table, bool) {
    if Active(t, stamp, key) then (t, false) else (t[key := NewRow(stamp, value, ttl)], true)
  }

  /** RenewLock: the owner's row, expired or not; the version continues the metadata's. */
  function RenewRow(r: Row, now: int, ttl: int): Row {
    var next := (if r.meta.Some? then r.meta.value else r.version) + 1;
    r.(updated := now, expires := now + ttl, version := next, meta := Some(next))
  }

  function Renewed(t: Table, now: int, key: string, value: string, ttl: int): (Table, bool) {
    if key in t && t[key].value == value then (t[key := RenewRow(t[key], now, ttl)], true) else (t, false)
  }

  function Released(t: Table, key: string, value: string): (Table, bool) {
    if key in t && t[key].value == value then (t - {key}, true) else (t, false)
  }

  function Cleaned(t: Table, now: int): Table {
    map k | k in t && t[k].expires >= now :: t[k]
  }

  // ---------------------------------------------------------------------------------------
  // The store, when nobody interferes
  // ---------------------------------------------------------------------------------------

  class DBStorage {
    var table: Table

    constructor ()
      ensures table == map[]
    {
      table := map[];
    }

    /** An acquire that is not interrupted grants the lock exactly if no other holder's row is
        active. The clock is read for the first query and again before the write. */
    method TryAcquireLock(now: int, later: int, key: string, value: string, ttl: int) returns (success: bool)
      requires now <= later
      modifies this
      ensures success <==> !(Active(old(table), now, key) && old(table)[key].value != value)
      ensures success ==> key in table && table[key].value == value && table[key].expires == later + ttl
      ensures success ==> var kept := Active(old(table), now, key); var row := table[key];
              && row.updated == later && row.created == (if kept then old(table)[key].created else later)
              && (kept ==> row.version == old(table)[key].version + 1 && row.meta == old(table)[key].meta)
              && (!kept ==> row.meta == Some(row.version) && row.version == later * 1_000_000)
      ensures !success ==> table == old(table)
      ensures forall k :: k != key ==> (k in table <==> k in old(table)) && (k in table ==> table[k] == old(table)[k])
    {
      if key in table && table[key].expires > now {
        if table[key].value != value {
          return false;
        }
        var updated := Extend(table, later, key, value, ttl);
        table := updated.0;
        return updated.1;
      }
      var created := Create(table, later, key, value, ttl);
      table := created.0;
      success := created.1;
      if success {
        // the lock is read back and compared
        success := key in table && table[key].value == value;
      }
    }

    method RenewLock(now: int, key: string, value: string, ttl: int) returns (success: bool)
      modifies this
      ensures (table, success) == Renewed(old(table), now, key, value, ttl)
      ensures success <==> key in old(table) && old(table)[key].value == value
      ensures success ==> var was, row := old(table)[key], table[key];
              && row.value == value && row.created == was.created && row.updated == now && row.expires == now + ttl
              && row.meta == Some(row.version)
              && row.version == 1 + (if was.meta.Some? then was.meta.value else was.version)
      ensures forall k :: k in table <==> k in old(table)
      ensures forall k :: k in table && (k != key || !success) ==> table[k] == old(table)[k]
    {
      if !(key in table && table[key].value == value) {
        return false;
      }
      var existing := table[key];
      var version := existing.version;
      if existing.meta.Some? {
        version := existing.meta.value;
      }
      var newVersion := version + 1;
      // UPDATE ... WHERE key = ? AND value = ? AND version = ?
      var affected := key in table && table[key].value == value && table[key].version == existing.version;
      if !affected {
        return false;
      }
      table := table[key := existing.(updated := now, expires := now + ttl, version := newVersion, meta := Some(newVersion))];
      return table[key].value == value;
    }

    method ReleaseLock(key: string, value: string) returns (success: bool)
      modifies this
      ensures (table, success) == Released(old(table), key, value)
      ensures success <==> key in old(table) && old(table)[key].value == value
      ensures table == if success then old(table) - {key} else old(table)
    {
      success := key in table && table[key].value == value;
      if success {
        table := table - {key};  // nothing is left for the forced deletion that follows
      }
    }

    method CleanupExpiredLocks(now: int)
      modifies this
      ensures table == Cleaned(old(table), now)
      ensures forall k :: k in table <==> k in old(table) && old(table)[k].expires >= now
      ensures forall k :: k in table ==> table[k] == old(table)[k]
    {
      table := map k | k in table && !(table[k].expires < now) :: table[k];
    }

    method GetLockValue(now: int, key: string) returns (value: string)
      ensures value == if Active(table, now, key) then table[key].value else ""
    {
      if key in table && table[key].expires > now {
        return table[key].value;
      }
      return "";
    }
  }

  // ---------------------------------------------------------------------------------------
  // Versions
  // ---------------------------------------------------------------------------------------

  datatype Write =
    | Creating(key: string, value: string, ttl: int)
    | Extending(key: string, value: string, ttl: int)
    | Renewing(key: string, value: string, ttl: int)
    | Releasing(key: string, value: string)
    | Cleaning

  function Written(t: Table, now: int, op: Write): Table {
    match op
    case Creating(key, value, ttl) => Create(t, now, key, value, ttl).0
    case Extending(key, value, ttl) => Extend(t, now, key, value, ttl).0
    case Renewing(key, value, ttl) => Renewed(t, now, key, value, ttl).0
    case Releasing(key, value) => Released(t, key, value).0
    case Cleaning => Cleaned(t, now)
  }

  /** How often each row was extended by its owner's acquire since it was created or renewed. */
  function Lag(t: Table, lag: map<string, nat>, now: int, op: Write): map<string, nat> {
    var t' := Written(t, now, op);
    match op
    case Creating(key, value, ttl) => if Create(t, now, key, value, ttl).1 then lag[key := 0] else lag
    case Extending(key, value, ttl) =>
      if Extend(t, now, key, value, ttl).1 && key in lag then lag[key := lag[key] + 1] else lag
    case Renewing(key, value, ttl) => if Renewed(t, now, key, value, ttl).1 then lag[key := 0] else lag
    case Releasing(_, _) => map k | k in lag && k in t' :: lag[k]
    case Cleaning => map k | k in lag && k in t' :: lag[k]
  }

  ghost predicate Lagging(t: Table, lag: map<string, nat>) {
    && lag.Keys == t.Keys
    && forall k :: k in t ==> t[k].meta.Some? && t[k].version == t[k].meta.value + lag[k]
  }

  lemma LagStep(t: Table, lag: map<string, nat>, now: int, op: Write)
    requires Lagging(t, lag)
    ensures Lagging(Written(t, now, op), Lag(t, lag, now, op))
  {
  }

  function WrittenAll(t: Table, h: seq<(int, Write)>): Table
    decreases |h|
  {
    if h == [] then t else WrittenAll(Written(t, h[0].0, h[0].1), h[1..])
  }

  function LagAll(t: Table, lag: map<string, nat>, h: seq<(int, Write)>): map<string, nat>
    decreases |h|
  {
    if h == [] then lag else LagAll(Written(t, h[0].0, h[0].1), Lag(t, lag, h[0].0, h[0].1), h[1..])
  }

  /** Over every history the version column runs ahead of the metadata by exactly the acquires that
      extended the row since it was created or renewed; without such acquires the two are equal. */
  lemma {:induction false} VersionsLag(t: Table, lag: map<string, nat>, h: seq<(int, Write)>)
    requires Lagging(t, lag)
    ensures Lagging(WrittenAll(t, h), LagAll(t, lag, h))
    ensures (forall i :: 0 <= i < |h| ==> !h[i].1.Extending?) && (forall k :: k in lag ==> lag[k] == 0)
            ==> forall k :: k in WrittenAll(t, h) ==> WrittenAll(t, h)[k].meta == Some(WrittenAll(t, h)[k].version)
    decreases |h|
  {
    if h != [] {
      LagStep(t, lag, h[0].0, h[0].1);
      VersionsLag(Written(t, h[0].0, h[0].1), Lag(t, lag, h[0].0, h[0].1), h[1..]);
    }
  }

  /** A renewal moves the version column by one minus the lag: up exactly if no acquire extended the
      row since the last renewal, and back exactly if two or more did. */
  lemma RenewalRaisesExactly(t: Table, lag: map<string, nat>, now: int, key: string, value: string, ttl: int)
    requires Lagging(t, lag) && Renewed(t, now, key, value, ttl).1
    ensures var t' := Renewed(t, now, key, value, ttl).0;
            && t'[key].version == t[key].version + 1 - lag[key]
            && (t'[key].version > t[key].version <==> lag[key] == 0)
            && (t'[key].version < t[key].version <==> lag[key] >= 2)
  {
  }

  /** From the empty table: an acquire, two more by the same owner, a renewal. The version has gone
      back, to one above the first. */
  lemma VersionGoesBack(key: string, value: string)
    ensures var h := [(0, Creating(key, value, 100)), (1, Extending(key, value, 100)), (2, Extending(key, value, 100))];
            var before := WrittenAll(map[], h);
            var after := WrittenAll(map[], h + [(3, Renewing(key, value, 100))]);
            && key in before && key in after && before[key].version == 2 && after[key].version == 1
  {
    var t1 := Written(map[], 0, Creating(key, value, 100));
    var t2 := Written(t1, 1, Extending(key, value, 100));
    var t3 := Written(t2, 2, Extending(key, value, 100));
    var tail := [(1, Extending(key, value, 100)), (2, Extending(key, value, 100))];
    var h := [(0, Creating(key, value, 100)), (1, Extending(key, value, 100)), (2, Extending(key, value, 100))];
    assert h[1..] == tail && tail[1..] == [(2, Extending(key, value, 100))];
    assert WrittenAll(t3, []) == t3;
    assert WrittenAll(t2, tail[1..]) == t3;
    assert WrittenAll(map[], h) == t3;
    WrittenLast(map[], h, (3, Renewing(key, value, 100)));
  }

  lemma {:induction false} WrittenLast(t: Table, h: seq<(int, Write)>, last: (int, Write))
    ensures WrittenAll(t, h + [last]) == Written(WrittenAll(t, h), last.0, last.1)
    decreases |h|
  {
    if h == [] {
      assert [] + [last] == [last] && [last][1..] == [];
      assert WrittenAll(Written(t, last.0, last.1), []) == Written(t, last.0, last.1);
    } else {
      assert (h + [last])[1..] == h[1..] + [last];
      WrittenLast(Written(t, h[0].0, h[0].1), h[1..], last);
    }
  }

  // ---------------------------------------------------------------------------------------
  // Concurrent callers of one key
  // ---------------------------------------------------------------------------------------

  datatype Phase =
    | Query                   // first read
    | Update(stamp: int)      // own active row found: extend it
    | Insert(stamp: int)      // no active row found: transaction
    | Verify
    | Done(ok: bool)

  /** When a call made the row its own, until when its value then has the lock, when its value gave
      it back, and whether nobody else has written the row since. */
  datatype Win = Win(at: int, until: int, released: Option<int>, open: bool)

  /** One call of TryAcquireLock. `success` is the captured variable, `attempt` counts retries, `won` is
      its last win. */
  datatype Caller = Caller(value: string, ttl: int, phase: Phase, success: bool, attempt: nat, won: Option<Win>)

  const MAX_RETRIES := 5

  /** The last write of the row: by whom, and until when it gave the lock. */
  datatype Lease = Lease(value: string, until: int)

  /** The row of one key, and the calls around it. */
  datatype World = World(
    now: int,
    sqlite: bool,
    row: Option<Row>,
    callers: map<nat, Caller>,
    lease: Option<Lease>)

  /** A statement fails without effect, or with its effect and a lost acknowledgement. */
  datatype Luck = Fine | Fault(lock: bool, applied: bool)

  datatype Action =
    | Pass(to: int)
    | Call(id: nat, value: string, ttl: int)
    | Step(id: nat, luck: Luck)
    | Renew(value: string, ttl: int)
    | Release(value: string)
    | Cleanup

  predicate Enabled(w: World, a: Action) {
    match a
    case Pass(to) => w.now <= to
    case Call(id, _, ttl) => id !in w.callers
    case Step(id, _) => id in w.callers && !w.callers[id].phase.Done?
    case _ => true
  }

  const K := "lock"

  function AsTable(row: Option<Row>): Table {
    if row.Some? then map[K := row.value] else map[]
  }

  function AsRow(t: Table): Option<Row> {
    if K in t then Some(t[K]) else None
  }

  /** The statement of a phase: the row after it, and whether it wrote. */
  function Statement(w: World, c: Caller): (Option<Row>, bool) {
    match c.phase
    case Update(stamp) => var (t, ok) := Extend(AsTable(w.row), stamp, K, c.value, c.ttl); (AsRow(t), ok)
    case Insert(stamp) =>
      if w.sqlite then (Some(NewRow(stamp, c.value, c.ttl)), true)  // whatever row there was is deleted
      else var (t, ok) := Create(AsTable(w.row), stamp, K, c.value, c.ttl); (AsRow(t), ok)
    case _ => (w.row, false)
  }

  function ActiveRow(w: World): bool {
    w.row.Some? && w.row.value.expires > w.now
  }

  /** The call after a statement that was answered. */
  function Answered(w: World, c: Caller, wrote: bool): Caller {
    match c.phase
    case Query =>
      if ActiveRow(w) then
        if w.row.value.value != c.value then c.(success := false, phase := Done(false))
        else c.(phase := Update(w.now))
      else c.(phase := Insert(w.now))
    case Update(_) => c.(success := wrote, phase := Done(wrote))
    case Insert(_) => if wrote then c.(success := true, phase := Verify) else c.(success := false, phase := Done(false))
    case Verify =>
      if w.row.Some? && w.row.value.value == c.value then c.(phase := Done(c.success))
      else c.(success := false, phase := Done(false))
    case Done(_) => c
  }

  /** retryOnLockError: an error about locks starts the call again, up to a limit; any other error
      is returned. The verification's errors only clear `success`. */
  function Faulted(c: Caller, lock: bool): Caller {
    if c.phase.Verify? then c.(success := false, phase := Done(false))
    else
      var c := if c.phase.Insert? then c.(success := true) else c;
      if lock && c.attempt + 1 < MAX_RETRIES then c.(phase := Query, attempt := c.attempt + 1)
      else c.(phase := Done(false))
  }

  /** The step writes the row. */
  predicate Commits(w: World, id: nat, luck: Luck)
    requires Enabled(w, Step(id, luck))
  {
    Statement(w, w.callers[id]).1 && (luck.Fine? || luck.applied)
  }

  /** Somebody wrote the row for `value`: its own wins now last until `until`, the others' are over. */
  function Overwritten(c: Caller, value: string, until: int): Caller {
    if c.won.None? || !c.won.value.open then c
    else if c.value == value then c.(won := Some(c.won.value.(until := until)))
    else c.(won := Some(c.won.value.(open := false)))
  }

  /** The row of `value` was given back. */
  function GivenBack(c: Caller, value: string, now: int): Caller {
    if c.won.None? || !c.won.value.open || c.value != value then c
    else c.(won := Some(c.won.value.(released := Some(now), open := false)))
  }

  function Advanced(w: World, id: nat, luck: Luck): Caller
    requires Enabled(w, Step(id, luck))
  {
    var c := w.callers[id];
    if luck.Fine? then Answered(w, c, Statement(w, c).1) else Faulted(c, luck.lock)
  }

  function Do(w: World, a: Action): World
    requires Enabled(w, a)
  {
    match a
    case Pass(to) => w.(now := to)
    case Call(id, value, ttl) => w.(callers := w.callers[id := Caller(value, ttl, Query, false, 0, None)])
    case Step(id, luck) =>
      var c := w.callers[id];
      var row := Statement(w, c).0;
      if Commits(w, id, luck) && row.Some? then
        var until := row.value.expires;
        var others := map i | i in w.callers :: Overwritten(w.callers[i], c.value, until);
        w.(row := row, lease := Some(Lease(c.value, until)),
           callers := others[id := Advanced(w, id, luck).(won := Some(Win(w.now, until, None, true)))])
      else w.(callers := w.callers[id := Advanced(w, id, luck)])
    case Renew(value, ttl) =>
      var (t, ok) := Renewed(AsTable(w.row), w.now, K, value, ttl);
      if ok then
        w.(row := AsRow(t), lease := Some(Lease(value, w.now + ttl)),
           callers := map i | i in w.callers :: Overwritten(w.callers[i], value, w.now + ttl))
      else w
    case Release(value) =>
      var (t, ok) := Released(AsTable(w.row), K, value);
      if ok then
        w.(row := AsRow(t), lease := None, callers := map i | i in w.callers :: GivenBack(w.callers[i], value, w.now))
      else w
    case Cleanup => w.(row := AsRow(Cleaned(AsTable(w.row), w.now)))
  }

  // ---------------------------------------------------------------------------------------
  // What every step keeps
  // ---------------------------------------------------------------------------------------

  /** The row is the last write, and stays at least as long as that lasts. */
  predicate Backed(w: World) {
    && (w.row.Some? ==> w.lease == Some(Lease(w.row.value.value, w.row.value.expires)))
    && (w.lease.Some? && w.lease.value.until > w.now ==> w.row.Some?)
  }

  /** When the reign that began with a win is over. */
  function EndOf(win: Win): int {
    if win.released.Some? && win.released.value < win.until then win.released.value else win.until
  }

  predicate CallerSound(w: World, c: Caller) {
    && (c.phase.Update? ==> c.phase.stamp <= w.now)
    && (c.phase.Insert? ==> c.phase.stamp <= w.now)
    && (c.phase.Verify? ==> c.success && c.won.Some?)
    && (c.phase == Done(true) ==> c.success && c.won.Some?)
    && (c.won.Some? ==>
          && c.won.value.at <= w.now
          && if c.won.value.open then w.lease == Some(Lease(c.value, c.won.value.until))
             else EndOf(c.won.value) <= w.now)
  }

  predicate Sound(w: World) {
    !w.sqlite && Backed(w) && forall id :: id in w.callers ==> CallerSound(w, w.callers[id])
  }

  predicate OthersActive(w: World, value: string) {
    ActiveRow(w) && w.row.value.value != value
  }

  /** The commit point of an acquire: no other holder's row is active, and the row becomes the
      caller's. */
  lemma CommitIsAtomic(w: World, id: nat, luck: Luck)
    requires Sound(w) && Enabled(w, Step(id, luck)) && Commits(w, id, luck)
    ensures var w' := Do(w, Step(id, luck));
            var v := w.callers[id].value;
            && !OthersActive(w, v)
            && w'.row.Some? && w'.row.value.value == v && w'.lease == Some(Lease(v, w'.row.value.expires))
            && w'.callers[id].won == Some(Win(w.now, w'.row.value.expires, None, true))
            && (w.lease.Some? && w.lease.value.value != v ==> w.lease.value.until <= w.now)
  {
  }

  /** Only the SQLite branch can take an active row from its holder, and it always does. */
  lemma OwnershipExactly(w: World, id: nat, luck: Luck)
    requires Enabled(w, Step(id, luck)) && Commits(w, id, luck)
    requires var p := w.callers[id].phase; p.Insert? ==> p.stamp <= w.now
    ensures OthersActive(w, w.callers[id].value) ==> w.sqlite && w.callers[id].phase.Insert?
    ensures w.sqlite && w.callers[id].phase.Insert? && OthersActive(w, w.callers[id].value)
            ==> Do(w, Step(id, luck)).row.value.value != w.row.value.value
  {
  }

  /** The value on whose behalf an action is taken. */
  function Actor(w: World, a: Action): Option<string> {
    match a
    case Step(id, _) => if id in w.callers then Some(w.callers[id].value) else None
    case Renew(value, _) => Some(value)
    case Release(value) => Some(value)
    case _ => None
  }

  /** Nobody but the holder changes an active row. */
  lemma ActiveRowUntouched(w: World, a: Action)
    requires Sound(w) && Enabled(w, a) && ActiveRow(w)
    requires Actor(w, a) != Some(w.row.value.value)
    ensures Do(w, a).row == w.row
  {
    if a.Step? && Commits(w, a.id, a.luck) {
      CommitIsAtomic(w, a.id, a.luck);
    }
  }

  lemma CommitKeepsWinner(w: World, id: nat, luck: Luck)
    requires Sound(w) && Enabled(w, Step(id, luck)) && Commits(w, id, luck)
    ensures var w' := Do(w, Step(id, luck)); !w'.sqlite && Backed(w') && CallerSound(w', w'.callers[id])
  {
    assert CallerSound(w, w.callers[id]);
    CommitIsAtomic(w, id, luck);
  }

  lemma CommitKeepsOther(w: World, id: nat, luck: Luck, i: nat)
    requires Sound(w) && Enabled(w, Step(id, luck)) && Commits(w, id, luck) && i in w.callers && i != id
    ensures var w' := Do(w, Step(id, luck)); CallerSound(w', w'.callers[i])
  {
    assert CallerSound(w, w.callers[i]);
    CommitIsAtomic(w, id, luck);
  }

  lemma CommitKeepsSound(w: World, id: nat, luck: Luck)
    requires Sound(w) && Enabled(w, Step(id, luck)) && Commits(w, id, luck)
    ensures Sound(Do(w, Step(id, luck)))
  {
    CommitKeepsWinner(w, id, luck);
    var w' := Do(w, Step(id, luck));
    forall i | i in w'.callers ensures CallerSound(w', w'.callers[i]) {
      if i != id {
        CommitKeepsOther(w, id, luck, i);
      }
    }
  }

  lemma QuietStepKeepsSound(w: World, id: nat, luck: Luck)
    requires Sound(w) && Enabled(w, Step(id, luck)) && !Commits(w, id, luck)
    ensures Sound(Do(w, Step(id, luck)))
  {
    assert CallerSound(w, w.callers[id]);
  }

  lemma RenewKeepsSound(w: World, value: string, ttl: int)
    requires Sound(w)
    ensures Sound(Do(w, Renew(value, ttl)))
  {
    var w' := Do(w, Renew(value, ttl));
    forall i | i in w'.callers ensures CallerSound(w', w'.callers[i]) {
      assert CallerSound(w, w.callers[i]);
    }
  }

  lemma ReleaseKeepsSound(w: World, value: string)
    requires Sound(w)
    ensures Sound(Do(w, Release(value)))
  {
    var w' := Do(w, Release(value));
    forall i | i in w'.callers ensures CallerSound(w', w'.callers[i]) {
      assert CallerSound(w, w.callers[i]);
    }
  }

  lemma StepKeepsSound(w: World, a: Action)
    requires Sound(w) && Enabled(w, a)
    ensures Sound(Do(w, a))
  {
    match a
    case Step(id, luck) =>
      if Commits(w, id, luck) {
        CommitKeepsSound(w, id, luck);
      } else {
        QuietStepKeepsSound(w, id, luck);
      }
    case Renew(value, ttl) => RenewKeepsSound(w, value, ttl);
    case Release(value) => ReleaseKeepsSound(w, value);
    case _ =>
  }

  // ---------------------------------------------------------------------------------------
  // What one call is told
  // ---------------------------------------------------------------------------------------

  /** The last statement of an acquire: only a caller whose own row is still there is told true. */
  lemma VerifiedExactly(w: World, id: nat)
    requires Sound(w) && Enabled(w, Step(id, Fine)) && w.callers[id].phase.Verify?
    ensures var w' := Do(w, Step(id, Fine));
            && w'.row == w.row
            && w'.callers[id].phase == Done(w.row.Some? && w.row.value.value == w.callers[id].value)
  {
    assert CallerSound(w, w.callers[id]);
  }

  /** A failed statement starts the call again exactly if it was no verification, the error was about
      locks, and at most three failed before it. Otherwise the call is told false. */
  lemma RetriedExactly(w: World, id: nat, lock: bool, applied: bool)
    requires Enabled(w, Step(id, Fault(lock, applied)))
    ensures var c, c' := w.callers[id], Do(w, Step(id, Fault(lock, applied))).callers[id];
            if lock && !c.phase.Verify? && c.attempt <= 3 then c'.phase == Query && c'.attempt == c.attempt + 1
            else c'.phase == Done(false)
  {
  }

  predicate Runs(w: World, acts: seq<Action>)
    decreases |acts|
  {
    acts == [] || (Enabled(w, acts[0]) && Runs(Do(w, acts[0]), acts[1..]))
  }

  function End(w: World, acts: seq<Action>): World
    requires Runs(w, acts)
    decreases |acts|
  {
    if acts == [] then w else End(Do(w, acts[0]), acts[1..])
  }

  function FaultsOf(acts: seq<Action>, id: nat): nat {
    if acts == [] then 0
    else (if acts[0].Step? && acts[0].id == id && acts[0].luck.Fault? then 1 else 0) + FaultsOf(acts[1..], id)
  }

  /** In every run, a call that goes on has counted all its failures, and they are at most four. */
  lemma {:induction false} FaultsAreCounted(w: World, acts: seq<Action>, id: nat)
    requires Runs(w, acts) && id in w.callers && w.callers[id].attempt <= 4
    ensures id in End(w, acts).callers
    ensures var c := End(w, acts).callers[id];
            !c.phase.Done? ==> c.attempt == w.callers[id].attempt + FaultsOf(acts, id) <= 4
    decreases |acts|
  {
    if acts != [] {
      CallerGoesOn(w, acts[0], id);
      if w.callers[id].phase.Done? {
        DoneStaysDone(Do(w, acts[0]), acts[1..], id);
      } else if Do(w, acts[0]).callers[id].phase.Done? {
        DoneStaysDone(Do(w, acts[0]), acts[1..], id);
      } else {
        FaultsAreCounted(Do(w, acts[0]), acts[1..], id);
      }
    }
  }

  lemma CallerGoesOn(w: World, a: Action, id: nat)
    requires Enabled(w, a) && id in w.callers && w.callers[id].attempt <= 4
    ensures id in Do(w, a).callers
    ensures var c, c' := w.callers[id], Do(w, a).callers[id];
            && (c.phase.Done? ==> c'.phase == c.phase)
            && (!c'.phase.Done? ==> c'.attempt == c.attempt + FaultsOf([a], id) <= 4)
  {
    if a.Step? && a.id == id {
      StepCountsFault(w, id, a.luck);
    }
  }

  lemma StepCountsFault(w: World, id: nat, luck: Luck)
    requires Enabled(w, Step(id, luck)) && w.callers[id].attempt <= 4
    ensures var c, c' := w.callers[id], Advanced(w, id, luck);
            !c'.phase.Done? ==> c'.attempt == c.attempt + FaultsOf([Step(id, luck)], id) <= 4
  {
  }

  lemma {:induction false} DoneStaysDone(w: World, acts: seq<Action>, id: nat)
    requires Runs(w, acts) && id in w.callers && w.callers[id].phase.Done?
    ensures id in End(w, acts).callers && End(w, acts).callers[id].phase == w.callers[id].phase
    decreases |acts|
  {
    if acts != [] {
      DoneStaysDone(Do(w, acts[0]), acts[1..], id);
    }
  }

  /** Four statements in a row: a call, its query, its insert and its verification. */
  lemma FreeRowIsTaken(w: World, id: nat, value: string, ttl: int)
    requires w.row.None? && id !in w.callers
    ensures var acts := [Call(id, value, ttl), Step(id, Fine), Step(id, Fine), Step(id, Fine)];
            && Runs(w, acts)
            && var e := End(w, acts);
               && e.now == w.now && id in e.callers && e.callers[id].phase == Done(true)
               && e.row.Some? && e.row.value.value == value && e.row.value.expires == w.now + ttl
  {
    var w1 := Do(w, Call(id, value, ttl));
    var w2 := Do(w1, Step(id, Fine));
    assert w2.callers[id].phase == Insert(w.now);
    var w3 := Do(w2, Step(id, Fine));
    assert w3.callers[id].phase == Verify;
    var w4 := Do(w3, Step(id, Fine));
    assert Runs(w4, []);
    Prepend(w3, Step(id, Fine), []);
    Prepend(w2, Step(id, Fine), [Step(id, Fine)]);
    Prepend(w1, Step(id, Fine), [Step(id, Fine), Step(id, Fine)]);
    Prepend(w, Call(id, value, ttl), [Step(id, Fine), Step(id, Fine), Step(id, Fine)]);
  }

  /** A call for the value of the active row extends it, in two statements and a query. */
  lemma OwnRowIsExtended(w: World, id: nat, ttl: int)
    requires ActiveRow(w) && id !in w.callers
    ensures var acts := [Call(id, w.row.value.value, ttl), Step(id, Fine), Step(id, Fine)];
            && Runs(w, acts)
            && var e := End(w, acts);
               && e.now == w.now && id in e.callers && e.callers[id].phase == Done(true)
               && e.row == Some(w.row.value.(updated := w.now, expires := w.now + ttl, version := w.row.value.version + 1))
  {
    var value := w.row.value.value;
    var w1 := Do(w, Call(id, value, ttl));
    var w2 := Do(w1, Step(id, Fine));
    assert w2.callers[id].phase == Update(w.now);
    var w3 := Do(w2, Step(id, Fine));
    assert Runs(w3, []);
    Prepend(w2, Step(id, Fine), []);
    Prepend(w1, Step(id, Fine), [Step(id, Fine)]);
    Prepend(w, Call(id, value, ttl), [Step(id, Fine), Step(id, Fine)]);
  }

  /** A call for another value is told false by its query, and changes nothing. */
  lemma ActiveRowRefuses(w: World, id: nat, value: string, ttl: int)
    requires OthersActive(w, value) && id !in w.callers
    ensures var acts := [Call(id, value, ttl), Step(id, Fine)];
            && Runs(w, acts)
            && var e := End(w, acts); e.row == w.row && id in e.callers && e.callers[id].phase == Done(false)
  {
    var w1 := Do(w, Call(id, value, ttl));
    var w2 := Do(w1, Step(id, Fine));
    assert Runs(w2, []);
    Prepend(w1, Step(id, Fine), []);
    Prepend(w, Call(id, value, ttl), [Step(id, Fine)]);
  }

  /** A release by anybody but the holder does nothing. One by the holder makes room at once: the next
      caller is told true although the old lifetime has not ended. */
  lemma ReleaseMakesRoom(w: World, holder: string, id: nat, value: string, ttl: int)
    requires id !in w.callers
    ensures w.row.None? || w.row.value.value != holder ==> Do(w, Release(holder)) == w
    ensures w.row.Some? && w.row.value.value == holder ==>
            var acts := [Release(holder), Call(id, value, ttl), Step(id, Fine), Step(id, Fine), Step(id, Fine)];
            && Do(w, Release(holder)).row == None
            && Runs(w, acts)
            && var e := End(w, acts);
               && e.now == w.now && id in e.callers && e.callers[id].phase == Done(true)
               && e.row.Some? && e.row.value.value == value && e.row.value.expires == w.now + ttl
  {
    if w.row.Some? && w.row.value.value == holder {
      var w1 := Do(w, Release(holder));
      FreeRowIsTaken(w1, id, value, ttl);
      Prepend(w, Release(holder), [Call(id, value, ttl), Step(id, Fine), Step(id, Fine), Step(id, Fine)]);
    }
  }

  /** Concurrency, faults and retries included: a call returns true only if at some moment it made
      the row its own. */
  lemma {:induction false} TrueMeansWon(w: World, acts: seq<Action>, id: nat)
    requires Sound(w) && Runs(w, acts) && id in End(w, acts).callers
    ensures Sound(End(w, acts))
    ensures var c := End(w, acts).callers[id];
            c.phase == Done(true) ==> c.won.Some? && c.won.value.at <= End(w, acts).now
    decreases |acts|
  {
    if acts != [] {
      StepKeepsSound(w, acts[0]);
      TrueMeansWon(Do(w, acts[0]), acts[1..], id);
    }
  }

  // ---------------------------------------------------------------------------------------
  // One holder at a time
  // ---------------------------------------------------------------------------------------

  predicate Rivals(c: Caller, d: Caller) {
    c.value != d.value && c.won.Some? && d.won.Some?
  }

  /** The reigns of two wins do not overlap. */
  predicate Apart(c: Caller, d: Caller) {
    Rivals(c, d) ==> EndOf(c.won.value) <= d.won.value.at || EndOf(d.won.value) <= c.won.value.at
  }

  /** An open win is the last: all reigns of other values were over when it began. */
  predicate Latest(c: Caller, d: Caller) {
    Rivals(c, d) && c.won.value.open ==> EndOf(d.won.value) <= c.won.value.at
  }

  predicate Disjoint(w: World) {
    forall i, j :: i in w.callers && j in w.callers ==>
      Apart(w.callers[i], w.callers[j]) && Latest(w.callers[i], w.callers[j])
  }

  predicate Settled(c: Caller, d: Caller) {
    Apart(c, d) && Latest(c, d) && Latest(d, c)
  }

  /** A write for `value` at a time when nobody else's reign lasts. */
  lemma OverwrittenPair(w: World, c: Caller, d: Caller, value: string, until: int)
    requires CallerSound(w, c) && CallerSound(w, d) && Settled(c, d)
    ensures Settled(Overwritten(c, value, until), Overwritten(d, value, until))
  {
  }

  lemma GivenBackPair(w: World, c: Caller, d: Caller, value: string)
    requires CallerSound(w, c) && CallerSound(w, d) && Settled(c, d)
    ensures Settled(GivenBack(c, value, w.now), GivenBack(d, value, w.now))
  {
  }

  lemma PairKept(w: World, a: Action, i: nat, j: nat)
    requires Sound(w) && Disjoint(w) && Enabled(w, a)
    requires i in Do(w, a).callers && j in Do(w, a).callers
    requires a.Step? ==> i != a.id && j != a.id
    ensures var w' := Do(w, a); Apart(w'.callers[i], w'.callers[j]) && Latest(w'.callers[i], w'.callers[j])
  {
    if i in w.callers && j in w.callers {
      var c, d := w.callers[i], w.callers[j];
      assert Apart(c, d) && Latest(c, d) && Latest(d, c) && CallerSound(w, c) && CallerSound(w, d);
      match a
      case Step(id, luck) =>
        var row := Statement(w, w.callers[id]).0;
        if row.Some? {
          OverwrittenPair(w, c, d, w.callers[id].value, row.value.expires);
        }
      case Renew(value, ttl) => OverwrittenPair(w, c, d, value, w.now + ttl);
      case Release(value) => GivenBackPair(w, c, d, value);
      case _ =>
    }
  }

  /** A call wins: everybody else's reign is over. */
  lemma WinnerIsLast(w: World, id: nat, luck: Luck, j: nat)
    requires Sound(w) && Enabled(w, Step(id, luck)) && Commits(w, id, luck) && j in w.callers
    ensures var w' := Do(w, Step(id, luck)); Settled(w'.callers[id], w'.callers[j])
  {
    CommitIsAtomic(w, id, luck);
    assert CallerSound(w, w.callers[j]);
  }

  lemma StepperKept(w: World, id: nat, luck: Luck, j: nat)
    requires Sound(w) && Disjoint(w) && Enabled(w, Step(id, luck)) && j in w.callers
    ensures var w' := Do(w, Step(id, luck)); Settled(w'.callers[id], w'.callers[j])
  {
    if Commits(w, id, luck) {
      WinnerIsLast(w, id, luck, j);
    } else {
      assert Apart(w.callers[id], w.callers[j]) && Latest(w.callers[id], w.callers[j]) && Latest(w.callers[j], w.callers[id]);
    }
  }

  lemma StepKeepsDisjoint(w: World, a: Action)
    requires Sound(w) && Disjoint(w) && Enabled(w, a)
    ensures Disjoint(Do(w, a))
  {
    var w' := Do(w, a);
    forall i, j | i in w'.callers && j in w'.callers
      ensures Apart(w'.callers[i], w'.callers[j]) && Latest(w'.callers[i], w'.callers[j])
    {
      if a.Step? && i == a.id {
        StepperKept(w, a.id, a.luck, j);
      } else if a.Step? && j == a.id {
        StepperKept(w, a.id, a.luck, i);
        assert Settled(w'.callers[j], w'.callers[i]);
      } else {
        PairKept(w, a, i, j);
      }
    }
  }

  lemma {:induction false} RunsStayDisjoint(w: World, acts: seq<Action>)
    requires Sound(w) && Disjoint(w) && Runs(w, acts)
    ensures Sound(End(w, acts)) && Disjoint(End(w, acts))
    decreases |acts|
  {
    if acts != [] {
      StepKeepsSound(w, acts[0]);
      StepKeepsDisjoint(w, acts[0]);
      RunsStayDisjoint(Do(w, acts[0]), acts[1..]);
    }
  }

  /** Nobody has asked for the lock yet. */
  function Untouched(start: int, sqlite: bool): World {
    World(start, sqlite, None, map[], None)
  }

  /** Of two calls for different values that were both told true, one won no earlier than the other's
      lock lapsed or was given back. */
  predicate OneHolder(w: World) {
    forall i, j :: i in w.callers && j in w.callers
                   && w.callers[i].phase == Done(true) && w.callers[j].phase == Done(true)
                   && w.callers[i].value != w.callers[j].value
                   ==> Rivals(w.callers[i], w.callers[j]) && Apart(w.callers[i], w.callers[j])
  }

  /** So of any number of concurrent callers at most one is told true within a lifetime, unless the lock
      is released. */
  lemma OneHolderAtATime(start: int, acts: seq<Action>)
    requires Runs(Untouched(start, false), acts)
    ensures OneHolder(End(Untouched(start, false), acts))
  {
    RunsStayDisjoint(Untouched(start, false), acts);
    var e := End(Untouched(start, false), acts);
    forall i, j | i in e.callers && j in e.callers
                  && e.callers[i].phase == Done(true) && e.callers[j].phase == Done(true)
                  && e.callers[i].value != e.callers[j].value
      ensures Rivals(e.callers[i], e.callers[j]) && Apart(e.callers[i], e.callers[j])
    {
      assert CallerSound(e, e.callers[i]) && CallerSound(e, e.callers[j]);
    }
  }

  /** `v` writes nothing and gives nothing back. */
  predicate Undisturbed(a: Action, v: string, w: World)
    requires Enabled(w, a)
  {
    match a
    case Release(value) => value != v
    case Renew(value, _) => value != v
    case Step(id, luck) => w.callers[id].value == v ==> !Commits(w, id, luck)
    case _ => true
  }

  predicate UndisturbedRun(w: World, acts: seq<Action>, v: string)
    requires Runs(w, acts)
    decreases |acts|
  {
    acts == [] || (Undisturbed(acts[0], v, w) && UndisturbedRun(Do(w, acts[0]), acts[1..], v))
  }

  /** The lock of `v` was written until some time; that time has come, or it still is. */
  predicate Promised(w: World, v: string, until: int) {
    w.now >= until || w.lease == Some(Lease(v, until))
  }

  lemma PromiseKept(w: World, a: Action, v: string, until: int)
    requires Sound(w) && Enabled(w, a) && Promised(w, v, until) && Undisturbed(a, v, w)
    ensures Promised(Do(w, a), v, until)
  {
    if a.Step? && Commits(w, a.id, a.luck) {
      CommitIsAtomic(w, a.id, a.luck);
    }
  }

  /** A holder promised the lock until some time keeps it until then: whatever others do, none of
      their calls wins the row earlier. */
  lemma {:induction false} PromisesHold(w: World, acts: seq<Action>, v: string, until: int, id: nat, luck: Luck)
    requires Sound(w) && Runs(w, acts) && Promised(w, v, until) && UndisturbedRun(w, acts, v)
    requires var e := End(w, acts); Enabled(e, Step(id, luck)) && e.callers[id].value != v && Commits(e, id, luck)
    ensures End(w, acts).now >= until
    decreases |acts|
  {
    if acts == [] {
      CommitIsAtomic(w, id, luck);
    } else {
      StepKeepsSound(w, acts[0]);
      PromiseKept(w, acts[0], v, until);
      PromisesHold(Do(w, acts[0]), acts[1..], v, until, id, luck);
    }
  }

  /** After a call has won, and until its value writes again or gives the lock up, another value wins
      no earlier than the lifetime after the first one's clock reading. The first call may verify,
      return and be followed by others meanwhile. */
  lemma OneWinnerPerLifetime(w: World, first: nat, luck: Luck, acts: seq<Action>, second: nat, luck': Luck)
    requires Sound(w) && Enabled(w, Step(first, luck)) && Commits(w, first, luck)
    requires var w1 := Do(w, Step(first, luck)); Runs(w1, acts) && UndisturbedRun(w1, acts, w.callers[first].value)
    requires var e := End(Do(w, Step(first, luck)), acts);
             && Enabled(e, Step(second, luck')) && Commits(e, second, luck')
             && e.callers[second].value != w.callers[first].value
    ensures var c := w.callers[first];
            End(Do(w, Step(first, luck)), acts).now >= c.phase.stamp + c.ttl
  {
    var c := w.callers[first];
    CommitIsAtomic(w, first, luck);
    StepKeepsSound(w, Step(first, luck));
    PromisesHold(Do(w, Step(first, luck)), acts, c.value, c.phase.stamp + c.ttl, second, luck');
  }

  lemma Prepend(w: World, a: Action, rest: seq<Action>)
    requires Enabled(w, a) && Runs(Do(w, a), rest)
    ensures Runs(w, [a] + rest) && End(w, [a] + rest) == End(Do(w, a), rest)
  {
    assert ([a] + rest)[1..] == rest;
  }

  /** A caller that found no row, on SQLite: it inserts and verifies. */
  lemma SqliteInserts(w: World, id: nat) returns (acts: seq<Action>)
    requires w.sqlite && id in w.callers && w.callers[id] == Caller(w.callers[id].value, 100, Insert(0), false, 0, None)
    ensures Runs(w, acts)
    ensures var e := End(w, acts);
            && e.sqlite && e.now == w.now && e.callers.Keys == w.callers.Keys
            && e.callers[id] == Caller(w.callers[id].value, 100, Done(true), true, 0, Some(Win(w.now, 100, None, true)))
            && forall i :: i in w.callers && i != id ==> e.callers[i] == Overwritten(w.callers[i], w.callers[id].value, 100)
  {
    var w1 := Do(w, Step(id, Fine));
    assert Runs(Do(w1, Step(id, Fine)), []);
    Prepend(w1, Step(id, Fine), []);
    Prepend(w, Step(id, Fine), [Step(id, Fine)] + []);
    acts := [Step(id, Fine)] + ([Step(id, Fine)] + []);
  }

  /** On SQLite two callers that both found no row both get true, at the same instant. */
  lemma SqliteLetsTwoWin() returns (acts: seq<Action>)
    ensures Runs(Untouched(0, true), acts)
    ensures var e := End(Untouched(0, true), acts);
            && 1 in e.callers && 2 in e.callers && e.callers[1].value != e.callers[2].value
            && e.callers[1].phase == Done(true) && e.callers[2].phase == Done(true) && !OneHolder(e)
  {
    var w0 := Untouched(0, true);
    var w1 := Do(w0, Call(1, "a", 100));
    var w2 := Do(w1, Step(1, Fine));
    var w3 := Do(w2, Call(2, "b", 100));
    var w4 := Do(w3, Step(2, Fine));
    var first := SqliteInserts(w4, 1);
    var w5 := End(w4, first);
    var second := SqliteInserts(w5, 2);
    var e := End(w5, second);
    assert Rivals(e.callers[1], e.callers[2]) && !Apart(e.callers[1], e.callers[2]);
    Concat(w4, first, second);
    var rest := first + second;
    Prepend(w3, Step(2, Fine), rest);
    Prepend(w2, Call(2, "b", 100), [Step(2, Fine)] + rest);
    Prepend(w1, Step(1, Fine), [Call(2, "b", 100)] + ([Step(2, Fine)] + rest));
    acts := [Step(1, Fine)] + ([Call(2, "b", 100)] + ([Step(2, Fine)] + rest));
    Prepend(w0, Call(1, "a", 100), acts);
    acts := [Call(1, "a", 100)] + acts;
  }

  ghost predicate AlwaysOneHolder(sqlite: bool) {
    forall start, acts :: Runs(Untouched(start, sqlite), acts) ==> OneHolder(End(Untouched(start, sqlite), acts))
  }

  /** One holder at a time, in all runs, exactly on the dialects other than SQLite. */
  lemma OneHolderExactly(sqlite: bool)
    ensures AlwaysOneHolder(sqlite) <==> !sqlite
  {
    if sqlite {
      var acts := SqliteLetsTwoWin();
    } else {
      forall start, acts | Runs(Untouched(start, false), acts) ensures OneHolder(End(Untouched(start, false), acts)) {
        OneHolderAtATime(start, acts);
      }
    }
  }

  lemma {:induction false} Concat(w: World, acts: seq<Action>, more: seq<Action>)
    ensures Runs(w, acts) && Runs(End(w, acts), more) ==> Runs(w, acts + more) && End(w, acts + more) == End(End(w, acts), more)
    decreases |acts|
  {
    if acts == [] {
      assert acts + more == more;
    } else if Enabled(w, acts[0]) {
      assert (acts + more)[1..] == acts[1..] + more;
      Concat(Do(w, acts[0]), acts[1..], more);
    }
  }
}
