/**
  The lock table of pkg/storage: rows that expire, and the operations on them.

  Expiry is lazy in the in-memory and the Spanner store: an expired row stays in the table
  until somebody overwrites or purges it. Both stores follow one specification, `Apply`. They
  differ in the instant a row dies and in the version a new row starts from.

  Times are integers in milliseconds.
 */
module Leases {
  import opened Wrappers

  const MAX_VERSION: nat := 0x1_0000_0000_0000_0000

  datatype Backend = Memory | Spanner

  datatype Entry = Entry(value: string, created: int, updated: int, expires: int, ttl: int, version: nat)

  type Locks = map<string, Entry>

  datatype Op =
    | Acquire(key: string, value: string, ttl: int)
    | Renew(key: string, value: string, ttl: int)
    | Release(key: string, value: string)
    | Info(key: string)
    | Purge(keys: set<string>)  // the cleanup routine, on any part of the table

  datatype Reply = Flag(ok: bool) | Record(found: Option<Entry>) | Purged

  /** The in-memory store keeps a row up to and including its last instant, Spanner does not. */
  predicate Expired(b: Backend, e: Entry, now: int) {
    if b.Memory? then now > e.expires else now >= e.expires
  }

  predicate Live(b: Backend, m: Locks, key: string, now: int) {
    key in m && !Expired(b, m[key], now)
  }

  predicate HeldBy(b: Backend, m: Locks, key: string, who: string, now: int) {
    Live(b, m, key, now) && m[key].value == who
  }

  /** The in-memory store counts from one, Spanner from the clock in nanoseconds. */
  function FirstVersion(b: Backend, now: int): nat {
    if b.Memory? then 1 else (now * 1_000_000) % MAX_VERSION
  }

  function Fresh(b: Backend, now: int, value: string, ttl: int): Entry {
    Entry(value, now, now, now + ttl, ttl, FirstVersion(b, now))
  }

  function Extended(e: Entry, now: int, ttl: int): Entry {
    e.(updated := now, expires := now + ttl, ttl := ttl, version := (e.version + 1) % MAX_VERSION)
  }

  /** A row as a reader sees it: its lifetime is what is left of it. */
  function Seen(e: Entry, now: int): Entry {
    e.(ttl := if e.expires < now then 0 else e.expires - now)
  }

  /** The one atomic step every operation takes. */
  function Apply(b: Backend, m: Locks, now: int, op: Op): (Locks, Reply) {
    match op
    case Acquire(key, value, ttl) =>
      if HeldBy(b, m, key, value, now) then (m[key := Extended(m[key], now, ttl)], Flag(true))
      else if Live(b, m, key, now) then (m, Flag(false))
      else (m[key := Fresh(b, now, value, ttl)], Flag(true))
    case Renew(key, value, ttl) =>
      if HeldBy(b, m, key, value, now) then (m[key := Extended(m[key], now, ttl)], Flag(true))
      else (m, Flag(false))
    case Release(key, value) =>
      if key in m && m[key].value == value && (b.Memory? || value != "") then (m - {key}, Flag(true))
      else (m, Flag(false))
    case Info(key) =>
      (m, Record(if Live(b, m, key, now) then Some(Seen(m[key], now)) else None))
    case Purge(keys) =>
      (map k | k in m && !(k in keys && Expired(b, m[k], now)) :: m[k], Purged)
  }

  // ---------------------------------------------------------------------------------------
  // Histories
  // ---------------------------------------------------------------------------------------

  datatype Timed = Timed(at: int, op: Op)

  type History = seq<Timed>

  predicate Monotone(h: History) {
    forall i, j :: 0 <= i <= j < |h| ==> h[i].at <= h[j].at
  }

  function Replay(b: Backend, m: Locks, h: History): Locks
    decreases |h|
  {
    if h == [] then m else Replay(b, Apply(b, m, h[0].at, h[0].op).0, h[1..])
  }

  /** What the clients of a history are told; the cleanup routine tells nobody anything. */
  function Answers(b: Backend, m: Locks, h: History): seq<Reply>
    decreases |h|
  {
    if h == [] then []
    else
      var (m', r) := Apply(b, m, h[0].at, h[0].op);
      (if h[0].op.Purge? then [] else [r]) + Answers(b, m', h[1..])
  }

  function WithoutPurges(h: History): History {
    if h == [] then []
    else (if h[0].op.Purge? then [] else [h[0]]) + WithoutPurges(h[1..])
  }

  // ---------------------------------------------------------------------------------------
  // Lazy expiry equals eager expiry
  // ---------------------------------------------------------------------------------------

  /** `p` is `m` after some of its dead rows were dropped. */
  ghost predicate PurgedFrom(b: Backend, m: Locks, p: Locks, now: int) {
    && (forall k :: k in p ==> k in m && m[k] == p[k])
    && (forall k :: k in m && k !in p ==> Expired(b, m[k], now))
  }

  /** Release is the one operation that looks at dead rows. */
  predicate LateRelease(b: Backend, m: Locks, now: int, op: Op) {
    op.Release? && op.key in m && m[op.key].value == op.value && Expired(b, m[op.key], now)
  }

  lemma StepIgnoresDeadRows(b: Backend, m: Locks, p: Locks, now: int, op: Op)
    requires PurgedFrom(b, m, p, now) && !op.Purge?
    ensures PurgedFrom(b, Apply(b, m, now, op).0, Apply(b, p, now, op).0, now)
    ensures Apply(b, m, now, op).1 != Apply(b, p, now, op).1
            <==> LateRelease(b, m, now, op) && op.key !in p && (b.Memory? || op.value != "")
    ensures Apply(b, m, now, op).1 != Apply(b, p, now, op).1
            ==> Apply(b, m, now, op).1 == Flag(true) && Apply(b, p, now, op).1 == Flag(false)
  {
  }

  lemma PurgeDropsOnlyDeadRows(b: Backend, m: Locks, p: Locks, now: int, op: Op)
    requires PurgedFrom(b, m, p, now) && op.Purge?
    ensures PurgedFrom(b, m, Apply(b, p, now, op).0, now)
  {
  }

  lemma DeadStaysDead(b: Backend, m: Locks, p: Locks, now: int, later: int)
    requires PurgedFrom(b, m, p, now) && now <= later
    ensures PurgedFrom(b, m, p, later)
  {
  }

  /** What the answers of a lazy and of a purged history have in common: everything except the
      boolean of releases, where the purged table may say "nothing there". */
  ghost predicate SameUpToLateReleases(ops: History, lazy: seq<Reply>, eager: seq<Reply>) {
    if ops == [] then lazy == eager == []
    else
      && lazy != [] && eager != []
      && (lazy[0] != eager[0] ==> ops[0].op.Release? && lazy[0] == Flag(true) && eager[0] == Flag(false))
      && SameUpToLateReleases(ops[1..], lazy[1..], eager[1..])
  }

  /** Purging anywhere, of any part of the table, changes no later answer but that of a late
      release, and never which rows are live. */
  lemma {:induction false} PurgesAreInvisible(b: Backend, m: Locks, p: Locks, h: History, start: int)
    requires Monotone(h) && (h == [] || start <= h[0].at)
    requires PurgedFrom(b, m, p, start)
    ensures SameUpToLateReleases(WithoutPurges(h), Answers(b, m, WithoutPurges(h)), Answers(b, p, h))
    ensures var end := if h == [] then start else h[|h| - 1].at;
            PurgedFrom(b, Replay(b, m, WithoutPurges(h)), Replay(b, p, h), end)
    decreases |h|
  {
    if h != [] {
      var now, op := h[0].at, h[0].op;
      DeadStaysDead(b, m, p, start, now);
      if op.Purge? {
        PurgeDropsOnlyDeadRows(b, m, p, now, op);
        PurgesAreInvisible(b, m, Apply(b, p, now, op).0, h[1..], now);
        assert WithoutPurges(h) == WithoutPurges(h[1..]);
        assert Answers(b, p, h) == Answers(b, Apply(b, p, now, op).0, h[1..]);
      } else {
        StepIgnoresDeadRows(b, m, p, now, op);
        PurgesAreInvisible(b, Apply(b, m, now, op).0, Apply(b, p, now, op).0, h[1..], now);
        assert WithoutPurges(h)[1..] == WithoutPurges(h[1..]);
        assert Answers(b, p, h)[1..] == Answers(b, Apply(b, p, now, op).0, h[1..]);
        assert Answers(b, m, WithoutPurges(h))[1..]
            == Answers(b, Apply(b, m, now, op).0, WithoutPurges(h[1..]));
      }
    }
  }

  /** The holder of a lease may use it until it lapses: a history in which nobody releases a
      lapsed lease gets the very same answers with and without purges. */
  predicate NoLateRelease(b: Backend, m: Locks, h: History)
    decreases |h|
  {
    h == [] || (!LateRelease(b, m, h[0].at, h[0].op)
                && NoLateRelease(b, Apply(b, m, h[0].at, h[0].op).0, h[1..]))
  }

  lemma {:induction false} PunctualHistoriesAgree(b: Backend, m: Locks, p: Locks, h: History, start: int)
    requires Monotone(h) && (h == [] || start <= h[0].at)
    requires PurgedFrom(b, m, p, start)
    requires NoLateRelease(b, m, WithoutPurges(h))
    ensures Answers(b, m, WithoutPurges(h)) == Answers(b, p, h)
    decreases |h|
  {
    if h != [] {
      var now, op := h[0].at, h[0].op;
      DeadStaysDead(b, m, p, start, now);
      if op.Purge? {
        PurgeDropsOnlyDeadRows(b, m, p, now, op);
        assert WithoutPurges(h) == WithoutPurges(h[1..]);
        PunctualHistoriesAgree(b, m, Apply(b, p, now, op).0, h[1..], now);
      } else {
        assert WithoutPurges(h)[1..] == WithoutPurges(h[1..]);
        StepIgnoresDeadRows(b, m, p, now, op);
        PunctualHistoriesAgree(b, Apply(b, m, now, op).0, Apply(b, p, now, op).0, h[1..], now);
      }
    }
  }

  // ---------------------------------------------------------------------------------------
  // Ownership
  // ---------------------------------------------------------------------------------------

  /** Nobody but the holder changes a live row, whatever the operation. */
  lemma OwnershipFrame(b: Backend, m: Locks, now: int, op: Op, key: string)
    requires Live(b, m, key, now)
    requires (op.Acquire? || op.Renew? || op.Release?) && op.key == key ==> op.value != m[key].value
    ensures key in Apply(b, m, now, op).0 && Apply(b, m, now, op).0[key] == m[key]
  {
  }

  predicate By(t: Timed, key: string, who: string) {
    (t.op.Acquire? || t.op.Renew? || t.op.Release?) && t.op.key == key && t.op.value == who
  }

  /** Over any history without the holder, a row survives unchanged as long as it lives, and
      everybody else is refused. */
  lemma {:induction false} HolderUndisturbed(b: Backend, m: Locks, h: History, key: string)
    requires key in m
    requires forall i :: 0 <= i < |h| ==> !Expired(b, m[key], h[i].at) && !By(h[i], key, m[key].value)
    ensures key in Replay(b, m, h) && Replay(b, m, h)[key] == m[key]
    ensures forall i :: 0 <= i < |h| && (h[i].op.Acquire? || h[i].op.Renew? || h[i].op.Release?) && h[i].op.key == key ==>
                          Apply(b, Replay(b, m, h[..i]), h[i].at, h[i].op).1 == Flag(false)
    decreases |h|
  {
    if h != [] {
      var m' := Apply(b, m, h[0].at, h[0].op).0;
      assert !By(h[0], key, m[key].value);
      OwnershipFrame(b, m, h[0].at, h[0].op, key);
      forall i | 0 <= i < |h[1..]|
        ensures !Expired(b, m'[key], h[1..][i].at) && !By(h[1..][i], key, m'[key].value)
      {
        assert h[1..][i] == h[i + 1];
      }
      HolderUndisturbed(b, m', h[1..], key);
      forall i | 0 <= i < |h| && (h[i].op.Acquire? || h[i].op.Renew? || h[i].op.Release?) && h[i].op.key == key
        ensures Apply(b, Replay(b, m, h[..i]), h[i].at, h[i].op).1 == Flag(false)
      {
        if i > 0 {
          assert h[..i][0] == h[0] && h[..i][1..] == h[1..][..i - 1];
          assert h[1..][i - 1] == h[i];
        } else {
          assert h[..0] == [];
        }
      }
    }
  }

  // ---------------------------------------------------------------------------------------
  // Tenants
  // ---------------------------------------------------------------------------------------

  const KEY_PREFIX := "highlander-leader-lock:"
  const DEFAULT_TENANT := "default"

  function LockKey(tenant: string): string {
    KEY_PREFIX + (if tenant == "" then DEFAULT_TENANT else tenant)
  }

  /** Two tenants share a lock exactly when they are the same, "" standing for the default. */
  lemma LockKeyInjective(a: string, b: string)
    ensures LockKey(a) == LockKey(b)
            <==> a == b || (a == "" && b == DEFAULT_TENANT) || (a == DEFAULT_TENANT && b == "")
  {
    assert LockKey(a)[|KEY_PREFIX|..] == if a == "" then DEFAULT_TENANT else a;
    assert LockKey(b)[|KEY_PREFIX|..] == if b == "" then DEFAULT_TENANT else b;
  }

  function Only(m: Locks, key: string): Locks {
    if key in m then map[key := m[key]] else map[]
  }

  /** One tenant's part of an operation. */
  predicate Concerns(op: Op, key: string) {
    op.Purge? || op.key == key
  }

  function OnKey(h: History, key: string): History {
    if h == [] then []
    else (if Concerns(h[0].op, key) then [h[0]] else []) + OnKey(h[1..], key)
  }

  function AnswersOnKey(b: Backend, m: Locks, h: History, key: string): seq<Reply>
    decreases |h|
  {
    if h == [] then []
    else
      var (m', r) := Apply(b, m, h[0].at, h[0].op);
      (if !h[0].op.Purge? && h[0].op.key == key then [r] else []) + AnswersOnKey(b, m', h[1..], key)
  }

  lemma StepOnKey(b: Backend, m: Locks, now: int, op: Op, key: string)
    ensures Concerns(op, key) ==> Only(Apply(b, m, now, op).0, key) == Apply(b, Only(m, key), now, op).0
    ensures Concerns(op, key) ==> Apply(b, m, now, op).1 == Apply(b, Only(m, key), now, op).1
    ensures !Concerns(op, key) ==> Only(Apply(b, m, now, op).0, key) == Only(m, key)
  {
  }

  /** A history of many tenants, seen by one of them, is that tenant's own history run alone. */
  lemma {:induction false} TenantsIndependent(b: Backend, m: Locks, h: History, key: string)
    ensures Only(Replay(b, m, h), key) == Replay(b, Only(m, key), OnKey(h, key))
    ensures AnswersOnKey(b, m, h, key) == Answers(b, Only(m, key), OnKey(h, key))
    decreases |h|
  {
    if h != [] {
      var now, op := h[0].at, h[0].op;
      StepOnKey(b, m, now, op, key);
      TenantsIndependent(b, Apply(b, m, now, op).0, h[1..], key);
      if Concerns(op, key) {
        assert OnKey(h, key)[1..] == OnKey(h[1..], key);
      } else {
        assert OnKey(h, key) == OnKey(h[1..], key);
      }
    }
  }

  // ---------------------------------------------------------------------------------------
  // The record of a tenure
  // ---------------------------------------------------------------------------------------

  /** Who has held a lock since when, and how often it was renewed: kept from the requests and
      the answers alone. */
  datatype Tenure = Tenure(value: string, since: int, renewals: nat)

  function Track(b: Backend, m: Locks, book: map<string, Tenure>, now: int, op: Op): map<string, Tenure> {
    var r := Apply(b, m, now, op).1;
    match op
    case Acquire(key, value, _) =>
      if r != Flag(true) then book
      else if Live(b, m, key, now) && key in book then book[key := book[key].(renewals := book[key].renewals + 1)]
      else book[key := Tenure(value, now, 0)]
    case Renew(key, _, _) =>
      if r == Flag(true) && key in book then book[key := book[key].(renewals := book[key].renewals + 1)] else book
    case Release(key, _) => if r == Flag(true) then book - {key} else book
    case Info(_) => book
    case Purge(keys) => map k | k in book && !(k in keys && k in m && Expired(b, m[k], now)) :: book[k]
  }

  function Book(b: Backend, m: Locks, book: map<string, Tenure>, h: History): map<string, Tenure>
    decreases |h|
  {
    if h == [] then book
    else Book(b, Apply(b, m, h[0].at, h[0].op).0, Track(b, m, book, h[0].at, h[0].op), h[1..])
  }

  ghost predicate RowRecorded(b: Backend, e: Entry, t: Tenure) {
    && e.value == t.value
    && e.created == t.since
    && e.expires == e.updated + e.ttl
    && e.version == (FirstVersion(b, t.since) + t.renewals) % MAX_VERSION
  }

  ghost predicate Recorded(b: Backend, m: Locks, book: map<string, Tenure>) {
    && book.Keys == m.Keys
    && forall k :: k in m ==> RowRecorded(b, m[k], book[k])
  }

  lemma RenewedRow(b: Backend, e: Entry, t: Tenure, now: int, ttl: int)
    requires RowRecorded(b, e, t)
    ensures RowRecorded(b, Extended(e, now, ttl), t.(renewals := t.renewals + 1))
  {
  }

  lemma FreshRow(b: Backend, value: string, now: int, ttl: int)
    ensures RowRecorded(b, Fresh(b, now, value, ttl), Tenure(value, now, 0))
  {
  }

  lemma TrackStep(b: Backend, m: Locks, book: map<string, Tenure>, now: int, op: Op)
    requires Recorded(b, m, book)
    ensures Recorded(b, Apply(b, m, now, op).0, Track(b, m, book, now, op))
  {
    var m', book' := Apply(b, m, now, op).0, Track(b, m, book, now, op);
    forall k | k in m' ensures RowRecorded(b, m'[k], book'[k]) {
      if (op.Acquire? || op.Renew?) && op.key == k && Apply(b, m, now, op).1 == Flag(true) {
        if HeldBy(b, m, k, op.value, now) {
          RenewedRow(b, m[k], book[k], now, op.ttl);
        } else {
          FreshRow(b, op.value, now, op.ttl);
        }
      }
    }
  }

  /** Along every history from the empty table, each row carries its holder, the fixed time the
      tenure began, an expiry exactly one lifetime after its last update, and a version that
      counts the renewals of this tenure. */
  lemma {:induction false} RecordsKeepTheBook(b: Backend, m: Locks, book: map<string, Tenure>, h: History)
    requires Recorded(b, m, book)
    ensures Recorded(b, Replay(b, m, h), Book(b, m, book, h))
    decreases |h|
  {
    if h != [] {
      TrackStep(b, m, book, h[0].at, h[0].op);
      RecordsKeepTheBook(b, Apply(b, m, h[0].at, h[0].op).0, Track(b, m, book, h[0].at, h[0].op), h[1..]);
    }
  }

  // ---------------------------------------------------------------------------------------
  // The in-memory store
  // ---------------------------------------------------------------------------------------

  /** pkg/storage/memory_storage.go. Each method is one critical section of the mutex; the
      clock it reads is a parameter. */
  class InMemoryStorage {
    var locks: Locks

    constructor ()
      ensures locks == map[]
    {
      locks := map[];
    }

    method TryAcquireLock(now: int, key: string, value: string, ttl: int) returns (ok: bool)
      modifies this
      ensures (locks, Flag(ok)) == Apply(Memory, old(locks), now, Acquire(key, value, ttl))
      ensures !ok <==> key in old(locks) && now <= old(locks)[key].expires && old(locks)[key].value != value
      ensures !ok ==> locks == old(locks)
      ensures ok ==> key in locks && locks == old(locks)[key := locks[key]]
                     && locks[key].value == value && locks[key].updated == now && locks[key].expires == now + ttl
    {
      if key in locks {
        var existing := locks[key];
        if now > existing.expires {
          // expired, may be taken
        } else {
          if existing.value == value {
            existing := existing.(updated := now);
            existing := existing.(expires := now + ttl);
            existing := existing.(ttl := ttl);
            existing := existing.(version := (existing.version + 1) % MAX_VERSION);
            locks := locks[key := existing];
            return true;
          }
          return false;
        }
      }
      locks := locks[key := Entry(value, now, now, now + ttl, ttl, 1)];
      return true;
    }

    method RenewLock(now: int, key: string, value: string, ttl: int) returns (ok: bool)
      modifies this
      ensures (locks, Flag(ok)) == Apply(Memory, old(locks), now, Renew(key, value, ttl))
      ensures ok <==> key in old(locks) && now <= old(locks)[key].expires && old(locks)[key].value == value
      ensures !ok ==> locks == old(locks)
      ensures ok ==> key in locks && locks == old(locks)[key := locks[key]]
                     && locks[key].value == value && locks[key].updated == now && locks[key].expires == now + ttl
    {
      if key !in locks {
        return false;
      }
      var existing := locks[key];
      if existing.value != value {
        return false;
      }
      if now > existing.expires {
        return false;
      }
      existing := existing.(updated := now);
      existing := existing.(expires := now + ttl);
      existing := existing.(ttl := ttl);
      existing := existing.(version := (existing.version + 1) % MAX_VERSION);
      locks := locks[key := existing];
      return true;
    }

    method ReleaseLock(now: int, key: string, value: string) returns (ok: bool)
      modifies this
      ensures (locks, Flag(ok)) == Apply(Memory, old(locks), now, Release(key, value))
      ensures ok <==> key in old(locks) && old(locks)[key].value == value
      ensures locks == if ok then old(locks) - {key} else old(locks)
    {
      if key !in locks {
        return false;
      }
      if locks[key].value == value {
        locks := locks - {key};
        return true;
      }
      return false;
    }

    method GetLockInfo(now: int, key: string) returns (found: Option<Entry>)
      ensures (locks, Record(found)) == Apply(Memory, locks, now, Info(key))
      ensures found.Some? <==> key in locks && now <= locks[key].expires
      ensures found.Some? ==> var row, seen := locks[key], found.value;
              && seen.value == row.value && seen.created == row.created && seen.updated == row.updated
              && seen.expires == row.expires && seen.version == row.version && seen.ttl == row.expires - now
    {
      if key !in locks || now > locks[key].expires {
        return None;
      }
      var copy := locks[key];
      copy := copy.(ttl := copy.expires - now);
      if copy.ttl < 0 {
        copy := copy.(ttl := 0);
      }
      return Some(copy);
    }

    method GetLockValue(now: int, key: string) returns (value: string)
      ensures value == if Live(Memory, locks, key, now) then locks[key].value else ""
    {
      var info := GetLockInfo(now, key);
      if info.None? {
        return "";
      }
      return info.value.value;
    }

    method GetLockTTL(now: int, key: string) returns (ttl: int)
      ensures ttl == if Live(Memory, locks, key, now) then locks[key].expires - now else 0
      ensures ttl >= 0
    {
      var info := GetLockInfo(now, key);
      if info.None? {
        return 0;
      }
      return info.value.ttl;
    }

    method Close()
      modifies this
      ensures locks == map[]
    {
      locks := map[];
    }
  }
}
