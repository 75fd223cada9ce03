# Leader election and workload control of k8-highlander

k8-highlander runs singleton workloads: several controllers compete for one expiring lock per tenant, and
only the holder runs the tenant's workloads. This project models the lock stores, the leader controller
and the workload managers in Dafny and proves what they keep over all runs.

| file | what it models |
|---|---|
| `Leases.dfy` | the lock table with lazy expiry: specification, histories, and the in-memory store as a class |
| `Spanner.dfy`, `Database.dfy`, `Redis.dfy` | the other back ends; the last two with concurrent clients between their steps |
| `Controller.dfy` | one leader controller: an automaton with a step per storage reply, and the code as a class proved to run it |
| `Discipline.dfy` | what every step of one controller keeps |
| `Election.dfy` | any number of controllers around a store, on one clock, with failures, crashes and restarts |
| `Safety.dfy` | at most one leader: the lease budget and the invariant |
| `Scenes.dfy`, `Limits.dfy` | runs in which there are two, and the exact condition |
| `Staleness.dfy`, `Takeover.dfy` | what holds with any kind of storage failure, and the takeover after a crash |
| `Verdicts.dfy` | what a tick, a release and the lock monitor decide, in terms of the answers alone |
| `Handover.dfy` | what a controller remembers of earlier leaders, and when it waits for their workloads |
| `Honesty.dfy` | when the monitoring server's leader flag outlives the leadership |
| `Tenants.dfy` | a run of many tenants, restricted to one, is a run of that tenant alone |
| `Watcher.dfy`, `Convergence.dfy` | the custom resource watcher as a reconciler of the workload tables |
| `Overlap.dfy` | handlings that overlap, and exactly when they leave the table stale |
| `CrdCodec.dfy` | encoders and decoders of custom resources |
| `Restarts.dfy`, `Startup.dfy` | the recovery loop, the concurrent start, and the retry loops with their backoff |
| `Wrappers.dfy` | a value that may be absent |

`dafny verify dfyconfig.toml` checks everything.

## How a run is modelled

Times are integers on one clock. A controller waits at a *phase*: a storage call, the wait for the previous
leader's workloads, a start or a stop. Between two phases of one controller any other controller may act.
A storage call takes two steps: it is *served*, which is when it takes effect and when a lease begins, and its answer
is *heard*, which is when the controller goes on. Others may act in between. A call that fails may have taken effect or
not, and a failure is a lost connection or something else (`isConnectionError` is that one boolean).

`Election.Config` holds the environment. In milliseconds, `call` bounds one storage call from request to answer;
`reuse` bounds the look at its existing workloads that a restarted leader takes before the 60 s wait (one request to the
API server for each, leader.go:972-984, 1309-1369); and `start` bounds the start of the workloads, and whatever of
the hand-over goes on after its 60 s timer has run out, such as a last pod listing.
Controllers in a tenure move within these bounds and the constants of the code; the others may be as slow as
they like, with one exception: the answer to an acquire that was granted is heard within `call` of the grant, however
long the request was under way. Two assumptions can be switched on: with `wholeTick`, a storage that answers the read
of a renewal does not lose the connection during the write of that renewal; with `sureRelease`, a release call is
always answered. The `backend` is the in-memory or the Spanner store; they differ in whether a row still
counts at the very instant it expires. Exclusivity is about controllers that have `isLeader` set and have not begun
`releaseLeadership`.

## Main results

- **One leader, exactly when** (`Limits.ExclusivityExactly`): with two willing rivals for a lock, no run has two
  leaders if and only if `wholeTick` holds and `13 * call + reuse + start` is at most 19 s, for the in-memory store, or less
  than 19 s, for the Spanner store. (The database and Redis also drop a row at the instant it expires.) The worst tenure
  takes `81 s + 13 * call + reuse + start` from the grant of the lock, the way of its answer included; `LockTTL` is 100 s.
  Both failures are shown by concrete runs: a storage that answers reads and loses renewals resets
  the failure count in every tick, so the leader never steps down (leader.go:510-516, 545-574); and one
  millisecond over the budget is enough. The theorem is about leaderships gained by the election loop: `Start` also
  acquires once by itself, beside the loop and without its mutex (leader.go:186-190), and is not part of the model.
- **Without any assumption** (`Staleness.BoundedOverlap`, `Staleness.StalenessByFailures`): a leader whose lock was
  taken clears its flag within `21 s + 15 * call` if its last sighting of its own name was a renewal's check, and within
  `84 s + 17 * call + reuse + start` if it was the grant; once a tenure has passed a check the long bound is over for good
  (`Staleness.CheckedTenuresStaySo`). Between two ticks, with f < 3 tolerated failures, the last sighting is at most
  `(f + 1) * (5 s + call)` old, plus the calls of one tick.
- **Takeover** (`Takeover.BoundedTakeover`): after a crash a controller holds the lock and leads no later than 5 s and
  six calls after the lease's end.
- **Hand-over** (`Handover.HandOverInRuns`): in every run, a controller that takes over starts its workloads at once exactly
  if, since it was created, the read before a request never named anybody else and never found the lock free less than
  five minutes after a release of its own. In the second case it looks at its own workloads first, otherwise it waits.
- **Verdicts** (`Verdicts.LeaderTick`, `Verdicts.FollowerTick`, `Verdicts.SeesAnother`): which answers of the storage make a
  leader, keep one and unseat one, over every path of a tick; and a leader shown another holder steps down.
- **The back ends are one atomic lock**: the in-memory and the Spanner store follow `Leases.Apply`; a database
  acquire that returns true made the row its own at one moment when nobody else's row was active, under any
  interleaving, fault and retry; and of two calls for different values that were both told true, one won no earlier
  than the other's lock lapsed or was given back, in all runs exactly on the dialects other than SQLite
  (`Database.OneHolderExactly`). The two exceptions are exact: SQLite's
  unconditional delete, and Redis' deletion after a release.
- **Convergence** (`Convergence.ConvergesByEvents`, `Convergence.Converges`): once the last event about every custom
  resource has been handled to the end, undisturbed, or its handling has landed and no other did it harm, the tables
  are the decoded store, whatever was lost, repeated, reordered or interleaved before; and a table that agrees with the
  whole store exists exactly if no valid object has a namesake in another namespace.

Properties the code does not have, each with its exact condition and a concrete run:

- The two flags overlap during a release (`Limits.ReleaseWindowHasTwoFlags`): the lock goes before `isLeader` does.
  Where at most one controller leads, at most one has the flag in all runs exactly if nobody ever gives the lock back
  (`Limits.OneFlagExactly`).
- A lost release call leaves the monitoring server's leader flag set although the controller neither leads nor runs
  workloads, and with it the gate open (`Honesty.GateStaysOpen`); the flag never outlives a leadership in any run if
  and only if no release call goes unanswered (`Honesty.HonestyExactly`).
- The version column of the database store stays where it is at a renewal after one acquire that extended the row, and
  goes back after two or more (`Database.RenewalRaisesExactly`, `Database.VersionGoesBack`).
- Two handlings of one custom resource that overlap can leave the older content in the table for good, although the
  event about the last change was handled to the end (`Convergence.OverlapGoesStale`). The initial sync runs
  beside the informers' handlers (crd_watcher.go:96-118, 548-581). An object that is in line stays so, or comes back,
  however everything under way is finished, if and only if nothing under way spoils it (`Overlap.EndsWellExactly`): a
  wanted workload is spoiled by a removal of it, or by a sync that has yet to clear the slot if it, or another one,
  carries something else; a deleted or invalid object by a sync that can still fill its slot.
- From the 32nd failure on, the retry backoff overflows on amd64 and retries come at every tick
  (`Startup.BackoffExactly`).
- Every `StartAll` leaves one more retry loop running, although the comment says otherwise (manager.go:190-191);
  with two loops retries do not keep their distance (`Startup.SpacingExactly`).

Where the repository's own documents give other lifetimes for the lock (README.md:350 and docs/architecture.md:107
say 15 s, docs/architecture.md:367 says 60 s), the model follows the constant in the code, 100 s.

## Model

| member | source | states |
|---|---|---|
| Leases.InMemoryStorage.TryAcquireLock | pkg/storage/memory_storage.go:51-92 | the method refines one atomic `Acquire`: refused exactly by somebody else's live row; otherwise the row is the caller's for one lifetime |
| Leases.InMemoryStorage.RenewLock | pkg/storage/memory_storage.go:95-121 | refines `Renew`: exactly a live own row is extended, to one lifetime from now |
| Leases.InMemoryStorage.ReleaseLock | pkg/storage/memory_storage.go:124-143 | refines `Release`: an own row goes, lapsed or not, and nothing else |
| Leases.InMemoryStorage.GetLockInfo | pkg/storage/memory_storage.go:146-164 | exactly the live row: its holder, times and version as stored, and the remaining lifetime |
| Leases.InMemoryStorage.GetLockValue | pkg/storage/memory_storage.go:167-176 | the live holder, or the empty string |
| Leases.InMemoryStorage.GetLockTTL | pkg/storage/memory_storage.go:179-188 | the remaining lifetime, never negative |
| Leases.InMemoryStorage.Close | pkg/storage/memory_storage.go:191-197 | the table is emptied |
| Leases.StepIgnoresDeadRows | pkg/storage/memory_storage.go:51-164 | with and without some dead rows, a step answers the same, except a release of an own dead row, exactly |
| Leases.PurgesAreInvisible | pkg/storage/spanner_storage.go:133-146 | purging expired rows anywhere in a history changes no later answer but the boolean of late releases |
| Leases.PunctualHistoriesAgree | pkg/storage/spanner_storage.go:148-416 | if nobody releases a lapsed lease, answers are identical with and without purges |
| Leases.OwnershipFrame | pkg/storage/memory_storage.go:51-143 | no operation of anybody else changes a live row |
| Leases.HolderUndisturbed | pkg/storage/memory_storage.go:51-143 | over any history of others, a live row stays and all their requests are refused |
| Leases.LockKeyInjective | pkg/leader/leader.go:140-163 | two tenants share a lock key exactly if they are equal after reading "" as "default" |
| Leases.TenantsIndependent | pkg/storage/memory_storage.go:51-164 | a multi-tenant history, restricted to one key, is that key's own history: same rows, same answers |
| Leases.RecordsKeepTheBook | pkg/storage/memory_storage.go:62-91 | along every history a row carries its tenure's holder and start, expires one lifetime after its update, and its version counts the renewals |
| Spanner.SpannerStorage.TryAcquireLock | pkg/storage/spanner_storage.go:148-309 | query, delete and insert in one transaction refine the same atomic `Acquire`, with the same contract |
| Spanner.SpannerStorage.RenewLock | pkg/storage/spanner_storage.go:311-416 | refines `Renew`: exactly an own row with time left is extended |
| Spanner.SpannerStorage.ReleaseLock | pkg/storage/spanner_storage.go:418-459 | refines `Release`: an own row with a nonempty value goes, and nothing else |
| Spanner.SpannerStorage.GetLockInfo | pkg/storage/spanner_storage.go:462-520 | exactly a row with time left: its holder, times and version as stored, and the remaining lifetime |
| Spanner.SpannerStorage.CleanupExpiredLocks | pkg/storage/spanner_storage.go:133-146 | is a purge of some expired rows: those strictly before now |
| Database.DBStorage.TryAcquireLock | pkg/storage/db_storage.go:212-362 | uninterrupted: true exactly if no other holder's row is active, and then the row is the caller's for one lifetime, an own active row keeping its start; other keys unchanged |
| Database.DBStorage.RenewLock | pkg/storage/db_storage.go:365-470 | exactly the owner's row is extended, expired or not, to one lifetime from now, and the version is one above the metadata's |
| Database.DBStorage.ReleaseLock | pkg/storage/db_storage.go:473-520 | true exactly for the holder's value, and then exactly that row is gone |
| Database.DBStorage.CleanupExpiredLocks | pkg/storage/db_storage.go:118-151 | exactly the rows that expired before now go |
| Database.DBStorage.GetLockValue | pkg/storage/db_storage.go:575-609 | the holder of an active row, or the empty string |
| Database.LagStep | pkg/storage/db_storage.go:235-325 | the version column runs ahead of the metadata version by the acquires that extended the row since, in every step |
| Database.VersionsLag | pkg/storage/db_storage.go:383-455 | over every history the lead is exactly the number of such acquires; without any, both versions are equal |
| Database.RenewalRaisesExactly | pkg/storage/db_storage.go:400-432 | a renewal raises the version column exactly if no acquire extended the row since the last one, and lowers it exactly if two did |
| Database.VersionGoesBack | pkg/storage/db_storage.go:235-241 | a history in which it goes back |
| Database.CommitIsAtomic | pkg/storage/db_storage.go:235-325 | at the commit point of a concurrent acquire no other holder's row is active, and the row becomes the caller's |
| Database.OwnershipExactly | pkg/storage/db_storage.go:288-325 | a write takes an active row from its holder exactly in the SQLite branch |
| Database.ActiveRowUntouched | pkg/storage/db_storage.go:212-520 | no step of anybody else changes an active row |
| Database.StepKeepsSound | pkg/storage/db_storage.go:154-362 | the row stays the last write, and every call knows whether it won, through queries, writes, verifications, faults and retries |
| Database.TrueMeansWon | pkg/storage/db_storage.go:154-362 | in every interleaving a call that returns true did make the row its own at some moment |
| Database.PromisesHold | pkg/storage/db_storage.go:212-520 | until a holder's written lifetime ends, no write for another value gets through, unless the holder itself writes or releases |
| Database.OneWinnerPerLifetime | pkg/storage/db_storage.go:212-362 | after a win, verified and returned or not, another value wins no earlier than a lifetime after the winner read its clock |
| Database.VerifiedExactly | pkg/storage/db_storage.go:332-347 | the read back after a write tells the caller true exactly if its own row is still there |
| Database.RetriedExactly | pkg/storage/db_storage.go:154-190 | a failed statement starts the call again exactly for a lock error, outside the read back, and at most four times |
| Database.FaultsAreCounted | pkg/storage/db_storage.go:154-190 | in every run a call that still goes on has counted every failure it met, four at most |
| Database.FreeRowIsTaken | pkg/storage/db_storage.go:254-347 | query, insert and read back in a row take a free row and are told true |
| Database.OwnRowIsExtended | pkg/storage/db_storage.go:225-253 | query and update in a row extend the caller's own active row, and are told true |
| Database.ActiveRowRefuses | pkg/storage/db_storage.go:225-253 | a query that finds somebody else's active row is told false and changes nothing |
| Database.ReleaseMakesRoom | pkg/storage/db_storage.go:473-520 | a release by the holder, and by nobody else, frees the row: the next caller is told true at once, before the old lifetime ends |
| Database.OneHolderAtATime | pkg/storage/db_storage.go:212-362 | in every run of any concurrent callers, two that were told true for different values have reigns that do not overlap |
| Database.OneHolderExactly | pkg/storage/db_storage.go:285-325 | that holds of all runs if and only if the dialect is not SQLite |
| Database.SqliteLetsTwoWin | pkg/storage/db_storage.go:288-291 | a run in which two callers on SQLite both get true at one instant |
| Redis.RedisStorage.TryAcquireLock | pkg/storage/redis_storage.go:67-100 | true exactly if the key was absent; then it is the caller's, and there for exactly the lifetime, or for good if that is zero |
| Redis.RedisStorage.RenewLock | pkg/storage/redis_storage.go:105-159 | succeeds exactly for the owner with a lifetime of a second or more, raises the version by one, and keeps the key for exactly the whole seconds of the lifetime |
| Redis.RedisStorage.ReleaseLock | pkg/storage/redis_storage.go:165-198 | true exactly for the holder, and then exactly that key is gone |
| Redis.OwnershipExactly | pkg/storage/redis_storage.go:67-198 | a step of another client changes a held lock exactly if it is the deletion after a release |
| Redis.HolderUndisturbed | pkg/storage/redis_storage.go:105-159 | read and script of renewals may be far apart: over any history of others without that deletion the record stays |
| Redis.HistoryElsewhere | pkg/storage/redis_storage.go:67-198 | over any history of others, the key only holds a value that was there or was acquired since |
| Redis.AcquiredKeyLasts | pkg/storage/redis_storage.go:89 | over any history in which the key is left alone, anybody else gets the lock from the end of the acquired lifetime on and not before; without a lifetime never |
| Redis.RenewedKeyLasts | pkg/storage/redis_storage.go:130-150 | the same after a renewal, for its whole seconds |
| Redis.RenewalRaisesVersion | pkg/storage/redis_storage.go:105-159 | whatever others do between a renewal's read and its script, the version goes up by one and the holder stays |
| Redis.LapsedLockIsTakenAnew | pkg/storage/redis_storage.go:67-198 | in every history without a renewal by the holder, whoever has the key after its lifetime has asked for it since |
| Redis.DeletionNeedsAnIntruder | pkg/storage/redis_storage.go:186-194 | whatever others do between release and check, the deletion is reached exactly if the key is there again, and then somebody acquired it in between |
| Redis.DeletionIsBlind | pkg/storage/redis_storage.go:186-194 | whatever others do between check and deletion, it takes the lock from whoever has it |
| Controllers.RankFalls | pkg/leader/leader.go:843-952 | every reply brings a tick nearer its end |
| Controllers.TicksEnd | pkg/leader/leader.go:843-952 | no election tick waits for more than sixteen replies, a renewal for no more than eleven, in every run |
| Controllers.FourReads | pkg/leader/leader.go:931-952 | a failed read is repeated exactly while fewer than four were made |
| Controllers.LeaderController.GetCurrentLeader | pkg/leader/leader.go:931-952 | the recursive reads are a run of the automaton; the last answer is returned |
| Controllers.LeaderController.CountFailure | pkg/leader/leader.go:481-494 | the failure count is one higher, the state is Degraded, and a change is told to the monitor |
| Controllers.LeaderController.ConnectionRestored | pkg/leader/leader.go:510-523 | the failure count is zero, the state is Normal, and a change is told to the monitor |
| Controllers.LeaderController.RememberLeader | pkg/leader/leader.go:355-382 | the previous leader is the other controller just named, or the controller itself after a soon return, or as before; the flag is set by a soon return and never cleared |
| Controllers.LeaderController.TryAcquireLeadership | pkg/leader/leader.go:318-464 | the code is a run of the automaton to the won or the refused lock |
| Controllers.LeaderController.AskForLock | pkg/leader/leader.go:384-464 | its second half: the request, its failures, and the verification |
| Controllers.LeaderController.RenewLeadership | pkg/leader/leader.go:467-600 | the code is a run of the automaton from the check to keeping or losing the leadership |
| Controllers.LeaderController.SurvivesFailure | pkg/leader/leader.go:478-509 | true exactly for a lost connection below the limit of three; a lost connection counts one |
| Controllers.LeaderController.ElectionTick | pkg/leader/leader.go:843-928 | one pass of the loop is a run of the automaton from its beginning to rest |
| Controllers.LeaderController.LoseLeadership | pkg/leader/leader.go:862-883 | the flag is cleared and the workloads are stopped after the last read |
| Controllers.LeaderController.TakeOver | pkg/leader/leader.go:892-922 | leadership, the wait if there was a previous leader, the start, the report; at the end the controller leads, the workloads are started, the monitor knows and no failure is counted |
| Controllers.LeaderController.WaitForPreviousWorkloads | pkg/leader/leader.go:966-1037 | after a self restart the existing workloads are looked at first; only if they cannot be kept is the wait entered |
| Controllers.LeaderController.ReleaseLeadership | pkg/leader/leader.go:603-653 | the release is a run of the automaton; a failed call leaves the monitor as it was |
| Controllers.LeaderController.GiveUp | pkg/leader/leader.go:723-741 | the health monitor's release (and Stop's): lock first, then flag, then workloads; at the end neither leads nor runs anything |
| Controllers.LeaderController.LockMonitorTick | pkg/leader/leader.go:816-838 | a leader that sees another holder ends up without flag, workloads and monitor flag; otherwise nothing changes |
| Controllers.MonitoringServer.UpdateControllerState | pkg/monitoring/monitoring.go:379-400 | the state shown is the state told |
| Controllers.MonitoringServer.UpdateLeaderStatus | pkg/monitoring/monitoring.go:511-520 | the flag shown is the flag told |
| Discipline.ResumeKeepsOrder | pkg/leader/leader.go:318-745 | every reply keeps: failures mean Degraded, controller and monitor agree, workloads run exactly while leading, the monitor knows the leader |
| Discipline.EventsKeepOrder | pkg/leader/leader.go:706-840 | so do tickers, releases and the lock monitor |
| Discipline.StartFindsNothingRunning | pkg/leader/leader.go:1048-1092 | between two StartAll there is a StopAll, and only leaders call StartAll |
| Discipline.HonestExactly | pkg/leader/leader.go:603-653 | in one step, the monitor's leader flag outlives the leadership exactly after an unanswered release call |
| Verdicts.LossIsFinal | pkg/leader/leader.go:858-883 | from the moment a renewal has failed, every path ends without flag, workloads and monitor flag, and asks for nothing; the failure count is cleared exactly if somebody is found |
| Verdicts.GrantIsUsed | pkg/leader/leader.go:430-447 | from a grant on, whatever its verification finds, every path ends leading, with workloads started, monitor told and failures at zero |
| Verdicts.ReuseSparesTheWait | pkg/leader/leader.go:972-988 | after a self restart, workloads found in order are kept and the wait is skipped; otherwise nothing is started before it is over |
| Verdicts.GrantDecides | pkg/leader/leader.go:318-464 | a controller that asks leads afterwards exactly if some request was granted; a leader that is refused is out |
| Verdicts.FollowerTick | pkg/leader/leader.go:884-923 | a follower's tick makes a leader exactly if a request is granted, and a follower by configuration makes none |
| Verdicts.LeaderTick | pkg/leader/leader.go:467-600 | a leader's tick keeps the office exactly: a connection lost fewer than three times; a free lock granted again; or its own lock renewed, or lost sight of once. Otherwise it is out |
| Verdicts.Renewal | pkg/leader/leader.go:544-600 | a renewal keeps the office exactly if it succeeds or loses the connection; the failure count is then zero or one |
| Verdicts.AskingIsBooked | pkg/leader/leader.go:333-464 | an answered request clears the failure count and sets the monitor's flag to its answer; a lost read before it counts once, a lost request not at all |
| Verdicts.ReleaseEndsTenure | pkg/leader/leader.go:603-653 | every path of a release ends the tenure; the monitor's flag stays exactly if the call failed, and the time is recorded exactly if it was confirmed |
| Verdicts.SeesAnother | pkg/leader/leader.go:816-838 | in every world a leader shown another holder loses flag and workloads at once, and the monitor is told when they have stopped |
| Verdicts.SeesNothingNew | pkg/leader/leader.go:816-818 | its own name, or any name to a follower, changes nothing |
| Verdicts.MonitorEndsFalseLeadership | pkg/leader/leader.go:780-838 | while somebody else holds the lock, one look and one reaction end a leadership |
| Handover.TenuresAreRemembered | pkg/leader/leader.go:430-431 | over every life, the controller's own name is stored exactly if it was ever granted the lock, and the release time is that of its last confirmed release |
| Handover.PredecessorIsRemembered | pkg/leader/leader.go:355-382 | over every life, the previous leader is the last other name read before a request, or its own after a soon return, and the restart flag means there was one |
| Handover.HandOver | pkg/leader/leader.go:966-1003 | over every life, a winner starts at once exactly if nobody was ever named and it never returned soon |
| Handover.EveryNodeHasItsLife | pkg/leader/leader.go:843-928 | in every run each controller is what its own life since the last restart has made of it |
| Handover.HandOverInRuns | pkg/leader/leader.go:966-1003 | so in all runs: no winner that was ever told of somebody else starts without the wait or the look at its own workloads |
| Honesty.RunsAreHonest | pkg/leader/leader.go:603-653 | in all runs with answered releases the flag belongs to a controller that leads, is about to, or is stopping, and no failed release is on its way |
| Honesty.GateStaysOpen | pkg/leader/leader.go:627-631 | a run to a controller at rest without leadership and workloads whose gate is open |
| Honesty.HonestyExactly | pkg/leader/leader.go:603-653 | in all runs the monitor's flag never outlives a leadership if and only if no release call goes unanswered |
| Election.BystanderUnmoved | pkg/leader/leader.go:843-928 | a step of one controller leaves the others' state alone, and time respects their deadlines |
| Safety.RestFalls | pkg/leader/leader.go:467-600 | in every phase and for every reply, the time a tenure may still take shrinks by the time spent |
| Safety.RestartsFit | pkg/leader/leader.go:76-90 | a grant, renewal or sighting pays for the way of its own answer and the longest path that can follow it |
| Safety.CoveredHolds | pkg/leader/leader.go:843-928 | a covered leader holds the stored, unexpired lock |
| Safety.LockUntouched | pkg/leader/leader.go:467-653 | nobody else's step touches the lock of a tenure |
| Safety.TenureStep | pkg/leader/leader.go:467-600 | a leader's call is served: it stays covered until it hears the answer, and after |
| Safety.FollowerStep | pkg/leader/leader.go:384-447 | a grant covers its winner from the moment it takes effect, before the winner knows |
| Safety.HearStep | pkg/leader/leader.go:384-600 | hearing an answer spends the time set aside for it |
| Safety.RunsAreOrderly | pkg/leader/leader.go:278-745 | in all runs: a failure count shuts the gate, a follower by configuration never leads, workloads run exactly while leading |
| Safety.RunsAreCovered | pkg/leader/leader.go:467-928 | in all runs of a system whose budget closes every controller that was granted the lock, and every leader, holds it, so there is at most one leader |
| Limits.PartialOutageBreaksExclusivity | pkg/leader/leader.go:510-574 | without `wholeTick`, a run with two leaders, however short the calls |
| Limits.ExceededBudgetBreaksExclusivity | pkg/leader/leader.go:76-90 | over budget, a run with two leaders, in which the answer to the grant takes its time |
| Limits.ReleaseWindowHasTwoFlags | pkg/leader/leader.go:731-735 | a run in which two controllers have `isLeader` set, one of them releasing |
| Limits.OneFlagExactly | pkg/leader/leader.go:731-735 | where leaders are exclusive, flags are too in all runs if and only if no run contains a release |
| Limits.ExclusivityExactly | pkg/leader/leader.go:76-90 | all runs have at most one leader if and only if the storage fails by whole ticks and 13 calls, a look at the workloads and a start fit into 19 s (an instant less on Spanner) |
| Staleness.RunsAreCurrent | pkg/leader/leader.go:478-577 | in all runs a leader's last sight of its own name, timed when the storage served it, is younger than its grace |
| Staleness.Graces | pkg/leader/leader.go:76-90 | the grace after a check, a lock taken again and a grant, in seconds and calls |
| Staleness.CheckIsSighting | pkg/leader/leader.go:471-528 | a check that finds its own name is a sighting by check |
| Staleness.CheckedTenuresStaySo | pkg/leader/leader.go:467-600 | within a tenure, once a check or a lock taken again was the last sighting, the grant never is again |
| Staleness.BoundedOverlap | pkg/leader/leader.go:478-886 | with any storage failures, a leader whose lock was taken stops leading within the grace of its last sighting: 21 s and 15 calls after a check; 84 s, 17 calls, a look and a start after the grant |
| Staleness.StalenessByFailures | pkg/leader/leader.go:478-577 | between ticks fewer than three failures are tolerated, and with f of them the last sighting is at most (f + 1) intervals and calls old, and the calls of one tick |
| Takeover.AwaitedGetsLeader | pkg/leader/leader.go:888-923 | a vacant lock is taken, and led on, in time by somebody |
| Takeover.BoundedTakeover | pkg/leader/leader.go:888-923 | after a crash some world of the run, no later than expiry plus 5 s and six calls, has a controller that holds the lock and leads |
| Tenants.RunsProject | pkg/leader/leader.go:140-163 | a run of many tenants, restricted to the controllers of one lock, is a run of that lock alone, to the same end |
| Watcher.MatchingIsEquality | pkg/workloads/crd_watcher.go:529-545 | references match exactly if equal after reading "" as "default"; they then mean one object |
| Watcher.CRDWatcher.AddWorkload | pkg/workloads/process/process_manager.go:252-284 | a valid configuration enters a free slot, and stays there even if its start fails |
| Watcher.CRDWatcher.RemoveWorkload | pkg/workloads/process/process_manager.go:330-348 | an entry goes exactly if its workload stops |
| Watcher.CRDWatcher.SyncWorkloadFromCRD | pkg/workloads/crd_watcher.go:290-446 | the slot gets the decoded object if it is valid and is emptied if not; nothing changes without the gate, an answer, an object, or if the old workload does not stop; all other slots are untouched |
| Watcher.CRDWatcher.RemoveWorkloadWithCRDRef | pkg/workloads/crd_watcher.go:449-526 | every workload of another object, and every one without an object, stays unchanged; all of the object's own go if none refuses to stop |
| Watcher.CRDWatcher.ProcessCRDChange | pkg/workloads/crd_watcher.go:200-287 | the table after an event: a deletion takes only workloads of its object, an addition or update touches only its object's slot, and nothing changes unless leading and Normal |
| Watcher.CRDWatcher.PerformInitialSync | pkg/workloads/crd_watcher.go:548-581 | the listed objects are laid over the table one after the other |
| Watcher.SyncOverlays | pkg/workloads/crd_watcher.go:290-446 | a handled addition is the overlay of that object, up to the fresh identity |
| Watcher.SweepDecides | pkg/workloads/crd_watcher.go:548-581 | after a sync each slot is as the last object listed for it says; all other slots are untouched |
| Watcher.SyncIsIdempotent | pkg/workloads/crd_watcher.go:548-581 | a second sync of an unchanged store changes nothing |
| Watcher.ListingOrderIsImmaterial | pkg/workloads/crd_watcher.go:548-581 | without namesakes every listing order gives the same table, and every object listed is covered |
| Convergence.StepsMakeASync | pkg/workloads/crd_watcher.go:290-340 | load, clear and insert in a row are the sync of the watcher |
| Convergence.LandingAgrees | pkg/workloads/crd_watcher.go:200-506 | the last step of a handling that fits the store brings its object in line |
| Convergence.AgreementExactlyStays | pkg/workloads/crd_watcher.go:200-506 | a step of a handling leaves an object in line exactly if it takes no wanted workload out and puts no unwanted one in |
| Convergence.AgreementStays | pkg/workloads/crd_watcher.go:200-506 | such steps, and changes to other objects, leave it in line |
| Convergence.LastEventDecides | pkg/workloads/crd_watcher.go:143-287 | whatever came before, an object is in line from its last landing on, as long as it does not change and no step does it harm |
| Convergence.LastHandlingDecides | pkg/workloads/crd_watcher.go:200-506 | an addition, update or deletion that fits and is handled to the end, undisturbed, brings its object in line |
| Convergence.DeletionSparesOthers | pkg/workloads/crd_watcher.go:449-526 | the workload of one object is not among those the deletion of another finds |
| Convergence.DeletionLeavesOthersStanding | pkg/workloads/crd_watcher.go:449-545 | in every run, a deletion under way leaves the running workload of any other object alone, as long as the others do |
| Convergence.UndisturbedSyncLands | pkg/workloads/crd_watcher.go:290-340 | a sync lands if nobody changes its object or works on its slot between its steps |
| Convergence.OverlapGoesStale | pkg/workloads/crd_watcher.go:290-340 | a run in which the later event lands after the last change, and the older sync then puts the old content back |
| Convergence.Converges | pkg/workloads/crd_watcher.go:143-287 | once all objects have caught up, whatever was interleaved before, the custom resources in the tables are the decoded store |
| Convergence.ConvergesByEvents | pkg/workloads/crd_watcher.go:143-287 | the same in terms of events: the last one about every object fits and is handled to the end, undisturbed |
| Overlap.SafeRunsAgree | pkg/workloads/crd_watcher.go:290-506 | if nothing under way spoils an object, it is in line however everything under way is finished |
| Overlap.EndsWellExactly | pkg/workloads/crd_watcher.go:290-506 | and only then: otherwise some way to finish leaves it out of line for good |
| Convergence.AgreementExactly | pkg/workloads/process/process_manager.go:252-284 | some table agrees with the whole store exactly if no valid object has a namesake |
| Convergence.NamesakesReplaceEachOther | pkg/workloads/crd_watcher.go:310-340 | the second of two namesakes replaces the first, and its deletion leaves neither |
| CrdCodec.Convert | pkg/common/crd_config.go:244-706 | the field-by-field decoders compute `Decode`, for all four kinds |
| CrdCodec.DecodesStored | pkg/common/crd_config.go:244-706 | any stored object: its reference; durations exactly as their texts parse and zero otherwise, the readiness timeout included; absent or wrongly typed script, variables and resources left empty |
| CrdCodec.ForeignItemsArePassedOver | pkg/common/crd_config.go:268-275 | items of another type anywhere in a command, port or volume list change nothing |
| CrdCodec.ConvertScript | pkg/common/crd_config.go:264-283 | the strings of the command list in order, and the shell |
| CrdCodec.ConvertEnv | pkg/common/crd_config.go:286-293 | the variables that are strings |
| CrdCodec.ConvertPorts | pkg/common/crd_config.go:413-433 | the ports in order, numbers cut to 32 bits |
| CrdCodec.ConvertVolumes | pkg/common/crd_config.go:649-673 | the volumes in order |
| CrdCodec.PortsReturn | pkg/common/crd_helpers.go:145-156 | every encoded port list decodes to itself |
| CrdCodec.VolumesReturn | pkg/common/crd_helpers.go:335-348 | so does every volume list |
| CrdCodec.TextsReturn | pkg/common/crd_config.go:268-275 | so does every command list |
| CrdCodec.RoundTrip | pkg/common/crd_helpers.go:15-374 | decoding what an encoder wrote gives every supplied field back, and zeros for the rest |
| CrdCodec.CreatedIsLoaded | pkg/common/crd_config.go:189-241 | through the store: a reference loads what was created under its settled namespace, and creation disturbs no other |
| Restarts.RecoveryLoop.Recover | pkg/leader/leader.go:1115-1171 | restarts exactly when due; a healthy look leaves the workload untracked, a restart counts one more or, if untracked, one; both maps keep the same keys; other workloads are untouched |
| Restarts.RecoveryLoop.Tick | pkg/leader/leader.go:1109-1172 | a tick treats each workload once, in any order, and only on the leader |
| Restarts.RestartsAreSpaced | pkg/leader/leader.go:1134-1166 | n restarts without a healthy look in between take at least the n delays |
| Restarts.HealthClearsTheCount | pkg/leader/leader.go:1163-1168 | over every history the count is the restarts since the last healthy look |
| Restarts.DelaysInClosedForm | pkg/leader/leader.go:1138-1139 | the delays after the first restart add up to 62 + 60 (n - 5) seconds |
| Restarts.SpacingIsAttained | pkg/leader/leader.go:1134-1166 | the bound is attained for every n |
| Startup.ManagerImpl.AddWorkload | pkg/workloads/manager.go:326-343 | a new name enters, an existing one is refused |
| Startup.ManagerImpl.RemoveWorkload | pkg/workloads/manager.go:346-356 | an existing name goes |
| Startup.ManagerImpl.StartAll | pkg/workloads/manager.go:174-253 | in whatever order starts end: exactly the failed ones are on record with count one, and the report is severe exactly if one was |
| Startup.BackoffExactly | pkg/workloads/manager.go:456-460 | the backoff is min(5 s * 2^(n-1), 5 min) and within 5 s and 5 min exactly up to n = 31, or on a machine whose conversion saturates |
| Startup.BackoffGrows | pkg/workloads/manager.go:456-460 | it never shrinks in that range, and is five minutes from n = 7 on |
| Startup.AloneIsSpaced | pkg/workloads/manager.go:440-515 | with one loop every retry waits for the backoff of the record it replaces |
| Startup.RetriesAreCounted | pkg/workloads/manager.go:486-519 | in every run of one loop a record goes with its first good retry and stays away; until then it counts every failed one, and n of them take at least n growing backoffs |
| Startup.RetryRewritesRecord | pkg/workloads/manager.go:486-519 | with any number of loops, a failed retry stores one failure more than it set out with, a good one removes the record; others stay |
| Startup.TwoLoopsRetryTwice | pkg/workloads/manager.go:190-191 | with two loops a run in which it does not |
| Startup.SpacingExactly | pkg/workloads/manager.go:190-191 | retries keep their distance in all runs if and only if there is at most one loop |

## Left out

- The cluster name stored with a lock, metrics, logging, HTTP, configuration loading and the builders of Kubernetes
  objects: no decision modelled here depends on them.
- Transactions and Lua scripts are single atomic steps, and a primary key means one row; the isolation of the real
  servers is theirs to provide. Spanner's commit timestamp and the client's clock are one clock, and the database
  store's lifetimes count from the client's clock reading before the write.
- A call takes effect before its answer is heard, or not at all; calls in flight end with the controller that made them.
  A request that reaches the storage after its caller has died, or has given it up, is not modelled.
- The string table of isConnectionError is one boolean of a failed call. The helper `contains` in db_storage.go:207
  tests for a proper suffix, not for a substring; which errors are retried is a parameter of each fault, so nothing
  here depends on it.
- Start's immediate acquire with its background start goroutine and its severe-error path (leader.go:186-217).
  Stop ends the controller's steps; loop iterations still pending then are not followed.
- The hand-over wait is any time up to 60 s. Pod annotations are not modelled: the wait looks for
  `k8-highlander/controlled-shutdown` (leader.go:87) while process.go:215 writes
  `k8-highlander.io/controlled-shutdown`. What the reuse check finds is a parameter: it succeeds or it does not.
- Whether two controllers' workloads ever run at once: the code hands the lock over before it stops workloads.
- Election worlds use the steps of the in-memory and the Spanner store. The database and Redis are related to an atomic
  lock of their own in their files.
- Takeover.BoundedTakeover: the follower is between two elections or in the middle of one, the storage answers, nobody
  else fails, and two storage calls are shorter than the lock's lifetime.
- Database: GetLockInfo and GetLockTTL, which read what GetLockValue reads. The concurrent callers are those of TryAcquireLock; renewals, releases and cleanups are single transactions
  of the code and interleave as such. Only one key, since statements name their key. Versions are unbounded
  integers; a time-based version does not reach 2^64 before the year 2554.
- Redis: metadata in a legacy format, and the remaining lifetime shown by GetLockInfo.
- Watcher: the four managers share one table keyed by kind and name; validation and the decoded content are opaque
  parts of an object. `managedCRDs` is only written, and informers, resync and tombstones only decide which events
  arrive. The methods of the class run without interruption; Convergence takes them apart.
- Convergence.Converges: an object without a specification cannot be loaded, so the store must hold none when the run
  ends; the CRD schemas require one.
- CrdCodec: JSON text itself; `time.ParseDuration` is a parameter.
- Restarts: checkForOrphanedWorkloads (leader.go:1183-1236) restarts workloads whose Kubernetes object is missing, in the
  same tick and without looking at the backoff maps. The spacing is that of the recovery loop's own restarts.
- Startup: the kind of error behind a failed start, and the shutdown flag, which only suppresses snapshots.
- Which field values pass validation, and pkg/crd/client.go, which converts the same configurations a second time: both
  only decide whether an object is valid.
