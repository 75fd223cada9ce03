/**
  pkg/storage/spanner_storage.go. Every operation is one read-write transaction, so it is one
  atomic step; `now` is both the transaction's timestamp and the client's clock.
 */
module Spanner {
  import opened Leases
  import opened Wrappers

  class SpannerStorage {
    var rows: Locks

    constructor ()
      ensures rows == map[]
    {
      rows := map[];
    }

    method TryAcquireLock(now: int, key: string, value: string, ttl: int) returns (acquired: bool)
      modifies this
      ensures (rows, Flag(acquired)) == Apply(Backend.Spanner, old(rows), now, Acquire(key, value, ttl))
      ensures !acquired <==> key in old(rows) && now < old(rows)[key].expires && old(rows)[key].value != value
      ensures !acquired ==> rows == old(rows)
      ensures acquired ==> key in rows && rows == old(rows)[key := rows[key]]
                           && rows[key].value == value && rows[key].updated == now && rows[key].expires == now + ttl
    {
      // SELECT ... WHERE key = @key AND expires > now
      if key in rows && rows[key].expires > now {
        var existing := rows[key];
        if existing.value == value {
          rows := rows[key := Entry(value, existing.created, now, now + ttl, ttl, (existing.version + 1) % MAX_VERSION)];
          return true;
        }
        return false;
      }
      // DELETE ... WHERE key = @key AND expires <= now
      rows := map k | k in rows && !(k == key && rows[k].expires <= now) :: rows[k];
      // INSERT: the key is free now
      assert rows[key := Fresh(Backend.Spanner, now, value, ttl)] == old(rows)[key := Fresh(Backend.Spanner, now, value, ttl)];
      rows := rows[key := Entry(value, now, now, now + ttl, ttl, (now * 1_000_000) % MAX_VERSION)];
      return true;
    }

    method RenewLock(now: int, key: string, value: string, ttl: int) returns (renewed: bool)
      modifies this
      ensures (rows, Flag(renewed)) == Apply(Backend.Spanner, old(rows), now, Renew(key, value, ttl))
      ensures renewed <==> key in old(rows) && now < old(rows)[key].expires && old(rows)[key].value == value
      ensures !renewed ==> rows == old(rows)
      ensures renewed ==> key in rows && rows == old(rows)[key := rows[key]]
                          && rows[key].value == value && rows[key].updated == now && rows[key].expires == now + ttl
    {
      if !(key in rows && rows[key].value == value && rows[key].expires > now) {
        return false;
      }
      var existing := rows[key];
      rows := rows[key := existing.(updated := now, expires := now + ttl, ttl := ttl,
                                    version := (existing.version + 1) % MAX_VERSION)];
      return true;
    }

    method ReleaseLock(now: int, key: string, value: string) returns (released: bool)
      modifies this
      ensures (rows, Flag(released)) == Apply(Backend.Spanner, old(rows), now, Release(key, value))
      ensures released <==> key in old(rows) && old(rows)[key].value == value && value != ""
      ensures rows == if released then old(rows) - {key} else old(rows)
    {
      var currentValue := if key in rows then rows[key].value else "";
      if currentValue == "" {
        return false;
      }
      if currentValue != value {
        return false;
      }
      rows := rows - {key};
      return true;
    }

    method GetLockInfo(now: int, key: string) returns (found: Option<Entry>)
      ensures (rows, Record(found)) == Apply(Backend.Spanner, rows, now, Info(key))
      ensures found.Some? <==> key in rows && now < rows[key].expires
      ensures found.Some? ==> var row, seen := rows[key], found.value;
              && seen.value == row.value && seen.created == row.created && seen.updated == row.updated
              && seen.expires == row.expires && seen.version == row.version && seen.ttl == row.expires - now
    {
      if !(key in rows && rows[key].expires > now) {
        return None;
      }
      var row := rows[key];
      var ttl := row.expires - now;
      if ttl < 0 {
        ttl := 0;
      }
      return Some(row.(ttl := ttl));
    }

    /** DELETE ... WHERE expires < now: rows whose last instant is `now` are dead, but stay. */
    method CleanupExpiredLocks(now: int)
      modifies this
      ensures exists keys :: rows == Apply(Backend.Spanner, old(rows), now, Purge(keys)).0
      ensures rows == map k | k in old(rows) && old(rows)[k].expires >= now :: old(rows)[k]
    {
      ghost var gone := set k | k in rows && rows[k].expires < now;
      ghost var before := rows;
      rows := map k | k in rows && !(rows[k].expires < now) :: rows[k];
      assert rows == Apply(Backend.Spanner, before, now, Purge(gone)).0;
    }
  }
}
