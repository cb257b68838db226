# A verified model of distsync

distsync builds distributed locks, semaphores and rate limiters out of Redis keys and Lua scripts. This project models
its two cores and proves what they promise:

- **the lease protocol**: one Redis, any number of clients, and time. Clients read their own clock, send, have their
  script executed any number of times, and get a reply late or never. The mutex, the leader lock, the read-write lock
  with its arrival queue and the semaphore are instances of it;
- **the four rate limiters**: token bucket, leaky bucket, fixed window and sliding window, with the input rules of
  `Allow` and the waiting loop of `Acquire`;

and, on the client side, the handle of an acquired lease and its background renewer under every interleaving of their
goroutines.

## Layout

| file | content |
|---|---|
| `store.dfy` | the keys of one primitive as a value, and every lock script as a function on it |
| `redis.dfy` | the same scripts step by step, with their loops, on a server object; each equals its function |
| `clients.dfy` | the permit set object and the non-blocking lock attempts, against that server |
| `clock.dfy` | deadline arithmetic: nanosecond clocks, millisecond stamps, the 1% + 1 ms reserve |
| `queue.dfy` | the arrival queue over whole server histories with arbitrary clients and stamps |
| `patience.dfy` | backoff, and why a contender that keeps trying is never purged |
| `protocol.dfy` | clients, server and time as one transition system |
| `safety.dfy` | its inductive invariant |
| `guarantees.dfy` | exclusion, capacity, all-or-nothing grants, fencing |
| `tightness.dfy` | runs that break exclusion and capacity wherever a condition fails, hence exact conditions |
| `fairness.dfy` | arrival order and bounded waiting for the clients of the protocol |
| `answers.dfy` | what the scripts reply and store, and what an undisturbed client therefore achieves in every reachable world |
| `buckets.dfy`, `windows.dfy` | the rate limiter scripts as functions, and whole-run bounds |
| `limiter.dfy` | the rate limiter object |
| `rates.dfy` | what each limiter lets through over whole runs, in terms of the configured rate alone |
| `handle.dfy`, `renewer.dfy`, `lifecycle.dfy` | the lifecycle of an acquired lease: its handle, its renewer, and both together |

`dafny verify dfyconfig.toml` checks everything.

## What is assumed

- Scripts are atomic and time stands still inside one. A key is gone as soon as the server clock reaches its expiry,
  the earliest moment at which a server may drop it.
- All clocks run at one rate. Client clocks differ from each other by constant offsets, at most `skew` apart. How large
  `skew` may be is part of the theorems: arbitrary for leases that own a key, bounded by the margin for shared ones.
- Owner tokens are fresh. A lease object that was acquired is not acquired again. Executions may happen late, or
  repeatedly, or never.
- Two properties of the transport are parameters of the configuration. `Config.settled`: an attempt that came back busy
  has no execution left to happen. `Config.ordered`: renewals of one reader or permit grant execute in an orderly way
  (`Protocol.Orderly`); executing in start order is orderly (`Safety.InOrderIsOrderly`). Each is shown to be needed.
- One primitive, one ttl of at least 1 ms and one capacity per name; the fencing counter is never rolled back. Its
  starting value is arbitrary.
- Bucket arithmetic is over the reals. Window limits are whole requests: comparing a count with the capacity is
  comparing it with the floor of the capacity.
- The entries `W:token` and `R:token` of the queue are a datatype; the reader member of a token is its permit of index
  0, since both live in sorted sets scored by expiry and share the renewal and release scripts.

Where the code and its comments differ, the model follows the code. `rwmutex.go` (lines 14-16) speaks of writer
preference; the scripts serve in arrival order, so a reader that queued before a writer is admitted before it
(`ArrivalQueue.WriterGrantedExactlyWhen`, `ArrivalQueue.ReaderGrantedExactlyWhen`).

## Properties that hold only under a condition

- **Exclusion among holders of a key** (mutex, leader, writers) by local validity holds in every run if and only if
  `ttl mod 1ms <= ttl/100 + 1ns` and busy attempts are settled, however far client clocks are apart
  (`Tightness.KeyExclusionExactlyWithinMargin`). A ttl of whole milliseconds, or of at least 100 ms, meets the first
  condition (`Clock.UsualMargins`). That the first condition is needed depends on when the server drops keys: one that
  kept a key until its clock has passed the expiry would keep it a millisecond longer, and every ttl would do. The second
  is needed because a busy attempt that executes late leaves a key which the next attempt replays under a deadline of
  its own (`Tightness.KeyExclusionNeedsSettled`).
- **Exclusion between readers and writers** holds in every run if and only if `skew + ttl mod 1ms <= ttl/100 + 1ns`,
  renewals execute in an orderly way (or leases are too brief for two of them) and busy attempts are settled
  (`Tightness.ExclusionExactlyWithinMargin`); **semaphore capacity** by local validity, under the same conditions
  (`Tightness.CapacityExactlyWithinMargin`). Each failing condition comes with the run in which both holders are valid
  (`Tightness.SharingNeedsMargin`, `Tightness.SharingNeedsOrder`, `Tightness.CapacityNeedsSettled`).
- **"The queue can never be blocked by a ghost"** (`CHANGELOG.md`, lines 89-91) is false of the code. A dequeue sends its
  two commands and discards their errors (`internal/lease/rw.go`, lines 59-62); if the first is lost and the second
  arrives, the entry stays queued without a stamp (`ArrivalQueue.LostRemovalLeavesGhost`). No purge ever removes it, and
  nobody behind it that conflicts with it is admitted, for as long as the queue key is kept alive
  (`ArrivalQueue.GhostBlocks`). Over every history, all queued entries have stamps if and only if no stamp is deleted
  while its entry is queued (`ArrivalQueue.StampsCompleteExactlyWhen`); a dequeue both of whose commands execute in
  order meets that (`ArrivalQueue.RunTraceable`), but the code does not see to it.
- **A contender that keeps trying is never purged** holds for pauses of at most `gap` in every history if and only if
  `gap` is at least 1 ms shorter than the waiter timeout on the server's clock, and `gap + skew` is no longer than it
  (`Patience.KeepsPlaceExactlyWhenRoomy`).
- **A deadline timer armed no later than the expiry** holds in every state of a run if and only if, for each check that
  arms a timer, the expiry gained at least the time since the check measured what remains
  (`Handle.OnTimeExactlyWhenPunctual`); so it holds when no time passes in between (`Handle.SwiftIsOnTime`) and fails with
  a single tick (`Handle.DelayedArmIsLate`).
- **A fixed window of length w admits at most the limit in w milliseconds** holds for the interval from `from` on if and
  only if `from` is a boundary or the limit is zero (`Windows.FixedLimitsExactlyAtBoundaries`); from anywhere else up to
  twice the limit is admitted, and no more (`Windows.FixedBoundIsReached`, `Windows.FixedBound`).

## Model

| member | source | states |
|---|---|---|
| Guarantees.ValidityImpliesOwnership | internal/lease/lease.go:76-81 | in every reachable world of every run, a lease whose holder still sees its local deadline ahead is owned on the server, and the server record outlives that deadline; for leases that own a key with arbitrary client clocks, for shared ones within the margin |
| Guarantees.MutualExclusion | docs/semantics.md:142-144 | in every reachable world a locally valid writer or mutex holder excludes every other locally valid lease, with late, lost and repeated executions; mutex holders and writers among themselves for arbitrary client clocks, against readers within the margin |
| Tightness.ExclusionExactlyWithinMargin | docs/semantics.md:105-110 | the read-write lock excludes in every run if and only if the margin on ttl and skew holds, renewals are orderly (or leases too brief for two of them), and busy attempts are settled |
| Tightness.KeyExclusionExactlyWithinMargin | docs/semantics.md:105-107 | holders of a key exclude each other in every run, for any client clocks, if and only if the reserve absorbs the millisecond truncations and busy attempts are settled |
| Tightness.KeyExclusionNeedsMargin | internal/lease/lease.go:76-81 | where it does not, a run in which two holders of a key with one clock are valid together |
| Tightness.CapacityExactlyWithinMargin | internal/lua/sem_acquire.lua:19-40 | the permits of valid holders stay within the capacity in every run if and only if the same three conditions hold as for readers and writers |
| Tightness.SharingNeedsMargin | internal/lua/rw_write_lock.lua:75-81 | outside the margin, a run in which a reader and a writer, or two full semaphore grants, are valid together |
| Tightness.SharingNeedsOrder | internal/lua/sem_renew.lua:23-25 | inside the margin, a run with one renewal executed after a later one in which the same two are valid together |
| Tightness.KeyExclusionNeedsSettled | internal/lua/single_acquire.lua:20-33 | without settled attempts, a run in which a busy attempt executes late, the next one replays its key under a later deadline, and two holders are valid together |
| Tightness.CapacityNeedsSettled | internal/lua/sem_acquire.lua:22-31 | the same for permits: two full semaphore grants are valid together |
| Clock.MarginIsExact | internal/lease/lease.go:79-81 | the margin condition holds if and only if no request start whatsoever gives a local deadline later than its server record less the skew |
| Clock.UsualMargins | internal/lease/lease.go:79-81 | whole-millisecond ttls tolerate a skew of 1% of the ttl; ttls from 100 ms need no whole number |
| Clock.TimeoutIsTwoTtls | internal/lease/rw.go:24-29 | the waiter timeout is two ttls in whole milliseconds |
| Safety.ReclaimedOnlyAfterDeadline | internal/lua/sem_acquire.lua:19 | when anybody's stamp reaches a score, the deadline of the score's holder has passed on the holder's own clock |
| Safety.RunKeepsInv | internal/lease/rw.go:73-119 | the invariant behind all lease guarantees holds in every world of every run |
| Safety.StepKeepsInv | internal/lease/rw.go:189-240 | every event keeps it: time passing, a new client, a client step, an execution of any script |
| Safety.AcquireForeign | internal/lua/rw_write_lock.lua:75-86 | an acquisition by one token leaves another token's key alone, and takes its set members only when their score is at most the stamp |
| Safety.RenewForeign | internal/lua/sem_renew.lua:13-26 | a renewal changes nothing for any other token |
| Safety.ReleaseForeign | internal/lua/single_release.lua:10-13 | a release never takes anything from another token |
| Guarantees.CapacityRespected | internal/lua/sem_acquire.lua:19-40 | in every reachable world the permits of all locally valid holders add up to at most the size of the set, which is at most the capacity |
| Guarantees.AllOrNothing | internal/lease/permit.go:88-151 | in every reachable world a grant of n permits has all n members with one score, or none |
| Guarantees.ValidHolderHasNewestToken | docs/semantics.md:36-41 | a valid exclusive holder's fencing token is the counter, above every token any other lease was told |
| Guarantees.TokensStrictlyIncrease | docs/semantics.md:40-41 | along every run, whoever learns a token after another lease was handed f learns a larger one |
| Guarantees.ReplayReturnsOriginal | internal/lua/single_acquire.lua:20-33 | in every reachable world a repeated execution for a live grant returns the original token and changes nothing |
| Guarantees.RunKeepsFence | internal/lua/rw_write_lock.lua:83-86 | over every run, no two leases are told one token, every told token is at most the counter, and it equals the counter while a grant awaits its reply or its holder is valid |
| Safety.InOrderIsOrderly | internal/lua/sem_renew.lua:23-25 | renewals executed in start order never pull a score below a confirmed deadline |
| Answers.PermitsRefusedExactlyWhen | internal/lua/sem_acquire.lua:19-34 | permits are refused if and only if the request is not a replay of a live grant and the unexpired members with the new ones exceed the capacity |
| Answers.PermitsStored | internal/lua/sem_acquire.lua:19-40 | member by member: a refusal and a replay keep exactly the unexpired members, a fresh grant adds exactly its own, expiring a ttl after its stamp, and nothing else changes |
| Answers.PermitsCounted | internal/lua/sem_acquire.lua:28-40 | the reply of a grant counts the unexpired members, and the new ones unless it is a replay |
| Answers.FreshGrantCounted | internal/lua/sem_acquire.lua:36-40 | granted to an id without members, n permits make the set n larger than its unexpired part, and the reply is the size of the set |
| Answers.KeyAcquireAnswer | internal/lua/single_acquire.lua:20-33 | a key is refused if and only if another token owns it; a grant of a free key lasts its ttl under the next fencing token, a replay keeps expiry and token |
| Answers.KeyRenewAnswer | internal/lua/single_renew.lua:11-15 | a key renewal succeeds if and only if the token owns the key; then the key expires a full ttl from now, and nothing else ever changes |
| Answers.KeyReleaseAnswer | internal/lua/single_release.lua:10-13 | a key release succeeds if and only if the token owns the key, and afterwards it does not |
| Answers.TimeAnswer | docs/semantics.md:105-107 | time drops exactly the keys whose expiry the server clock has reached |
| Answers.UndisturbedAttempt | internal/lease/rw.go:73-97 | in every reachable world, an attempt that nobody disturbs ends with a valid lease if and only if the ttl outlasts the reserve and what it asks for is available: a free key, room for the permits, or a free lock with nobody in the way |
| Answers.UndisturbedRenewal | internal/lease/single.go:80-103 | in every reachable world, a renewal of a valid lease that nobody disturbs succeeds and leaves it valid with the later of its old and new deadline, and the server record then lasts a full ttl |
| Answers.RunKeepsTimely | internal/lease/lease.go:76-81 | over every run, no lease ever has a deadline beyond the one a request begun now would get |
| Answers.UndisturbedRelease | internal/lua/sem_release.lua:9-13 | in every reachable world, an undisturbed release leaves nothing of its lease on the server and everything of all others |
| Answers.UndisturbedGiveUp | internal/lease/rw.go:56-62 | a contender that gives up leaves neither entry nor stamp of its own, and takes nobody else's |
| ArrivalQueue.RunOrdered | internal/lua/rw_write_lock.lua:42-52 | over every server history ranks are distinct, at most the counter, and the rank and counter keys expire together |
| ArrivalQueue.StepEvolves | internal/lua/rw_read_lock.lua:38-61 | a command changes no rank, and lets only its caller arrive, behind everyone |
| ArrivalQueue.PurgeRemovesMaximalStalePrefix | internal/lua/rw_write_lock.lua:54-66 | the purge removes exactly the longest stale prefix of the queue |
| ArrivalQueue.WriterGrantedExactlyWhen | internal/lua/rw_write_lock.lua:36-86 | a writer is newly admitted if and only if the key is free, no reader is live at its stamp, and every entry before it is stale |
| ArrivalQueue.ReaderGrantedExactlyWhen | internal/lua/rw_read_lock.lua:32-80 | a reader is newly admitted if and only if it does not hold the lock already, the key is free, and every writer entry before it goes with the stale prefix |
| ArrivalQueue.RefusedJoins | internal/lua/rw_write_lock.lua:42-52 | a refused attempt leaves its caller queued: an entry already there keeps its rank, a new one comes behind all others; the stamp is the one of the attempt and the keys live for another timeout |
| ArrivalQueue.RefusedSpares | internal/lua/rw_write_lock.lua:54-66 | a refused attempt takes entry and stamp of another contender if and only if everything up to that contender is stale |
| ArrivalQueue.RefusedReclaims | internal/lua/rw_write_lock.lua:68-81 | a refused writer takes out expired readers if and only if the key is free and it is its turn; a refused reader takes out none |
| ArrivalQueue.AdmittedWriter | internal/lua/rw_write_lock.lua:83-86 | an admitted writer has left the queue and owns the key for its ttl, under the next fencing token and with no reader left |
| ArrivalQueue.AdmittedReader | internal/lua/rw_read_lock.lua:77-80 | an admitted reader has left the queue and is in the set until its ttl after its stamp, beside all earlier readers |
| ArrivalQueue.ReplayedStays | internal/lua/rw_write_lock.lua:35-38 | an attempt that already has its grant gets the original reply and changes nothing |
| ArrivalQueue.LatecomersWait | CHANGELOG.md:84-88 | over every server history: while the entry left by a refused attempt is present, no conflicting contender whose first attempt comes later is admitted |
| ArrivalQueue.FirstComeFirstServed | docs/semantics.md:151-152 | over every server history: while the entry of a contender is present, no conflicting contender behind it is admitted |
| ArrivalQueue.AheadShrinks | internal/lua/rw_write_lock.lua:68-86 | the entries ahead of a queued contender only leave, and each admission while a writer waits is one of them leaving |
| ArrivalQueue.BoundedWaiting | internal/lua/rw_read_lock.lua:68-80 | while a writer stays queued, at most as many admissions happen as entries were ahead of it |
| ArrivalQueue.StampsKeptExactlyWhen | internal/lua/rw_write_lock.lua:42-66 | last-seen stamps stay complete under a command if and only if it does not delete the stamp of a queued entry |
| ArrivalQueue.DequeuedStaysOut | internal/lease/rw.go:56-62 | an entry removed by the first command of a dequeue stays out until its owner tries again |
| ArrivalQueue.RunTraceable | internal/lease/rw.go:56-62 | over every history in which each stamp deletion follows an executed removal of its entry, with anything but an attempt of its owner in between, every queued entry has a stamp and the keys share one expiry in every state |
| ArrivalQueue.StampsCompleteExactlyWhen | internal/lease/rw.go:183-186 | over every history, all queued entries have stamps in every state if and only if no stamp is deleted while its entry is queued |
| ArrivalQueue.LostRemovalLeavesGhost | internal/lease/rw.go:59-62 | from any free lock with an empty queue, a history in which a dequeue that loses its first command leaves an entry without a stamp |
| ArrivalQueue.GhostBlocks | CHANGELOG.md:89-91 | over every history in which the owner of such an entry neither tries nor leaves and the queue key does not expire, the entry stays and no conflicting contender behind it is admitted |
| ArrivalQueue.RunExclusive | internal/lua/rw_read_lock.lua:63-80 | over every history, for arbitrary stamps, a live writer key means an empty reader set |
| Fairness.EventIsCommand | internal/lease/rw.go:73-97 | every event of the lease protocol acts on the server as one command of a queue history, or not at all |
| Fairness.ClientsServedInOrder | internal/lease/rw.go:189-213 | over every run of the protocol, while a contender's entry is present no conflicting contender behind it is newly admitted |
| Fairness.WriterWaitsBounded | rwmutex.go:67-99 | over every run of the protocol, a queued writer sees at most as many admissions as entries were ahead of it |
| Patience.DelayBound | options.go:24-38 | every backoff delay lies between 0 and 1.2 times the maximum, for every attempt and jitter |
| Patience.DelayIsBackoff | options.go:24-38 | the delay is the capped exponential backoff scaled by the jitter, with 50 ms and 2 s where base or maximum are not positive |
| Patience.BackoffIsPower | options.go:31-34 | the backoff that doubles until the maximum is the lesser of the maximum and base times the power of two |
| Patience.ScaledBetween | options.go:35-37 | the scaled delay is the backoff times the jitter, rounded down to whole nanoseconds |
| Patience.StepKeepsPlace | internal/lua/rw_write_lock.lua:42-66 | a command within the timeout of a contender's latest attempt, stamped by a clock not too far ahead, leaves its rank, and a further attempt extends its life |
| Patience.PromptContenderKeepsPlace | internal/lease/rw.go:24-29 | over a whole history with client clocks apart, a contender that tries again within a roomy gap keeps its rank |
| Patience.KeepsPlaceExactlyWhenRoomy | internal/lease/rw.go:24-29 | pauses of at most a given gap keep the rank in every history if and only if the gap is shorter than the timeout on the server's clock and, with the skew, no longer than it |
| Patience.KeyExpires | internal/lua/rw_write_lock.lua:42-52 | a longer pause on the server's clock: a history in which the queue key expires under the contender |
| Patience.TakenForCrashed | internal/lua/rw_write_lock.lua:54-66 | a longer pause on the clock furthest ahead: a history in which another contender purges it |
| Patience.PatientContenderKeepsPlace | rwmutex.go:74-98 | for the loop attempt, reply, jittered backoff, next attempt, with client clocks apart: if two call latencies and the longest backoff are a roomy gap, the contender is never purged and keeps its rank until admitted or gone, whatever others do |
| Patience.NextTrySoon | options.go:24-38 | in that loop the next execution comes within two latencies and the longest backoff of the last start |
| Patience.LoopIsPrompt | rwmutex.go:123-155 | in every state of a history with that loop in it, the latest executed attempt is no older than that |
| Scripts.PurgeLoop | internal/lua/rw_write_lock.lua:56-66 | the purge loop ends, having removed exactly the stale prefix with its stamps |
| Scripts.JoinOrRefresh | internal/lua/rw_write_lock.lua:42-52 | joining or refreshing, with one expiry for the three keys |
| Scripts.ScanAhead | internal/lua/rw_read_lock.lua:70-75 | the scan finds a writer ahead if and only if there is one |
| Scripts.CountOwned | internal/lua/sem_acquire.lua:22-30 | the count reaches the number of tokens if and only if all are present |
| Scripts.AddAll | internal/lua/sem_renew.lua:23-25 | the insertion loop grants exactly the listed members |
| Scripts.CheckOwned | internal/lua/sem_renew.lua:17-22 | the checking loop accepts if and only if every token is present and unexpired |
| Scripts.RemoveAll | internal/lua/sem_release.lua:9-13 | the removal loop removes exactly the listed members and counts those that were there |
| Scripts.SemAcquireScript | internal/lua/sem_acquire.lua:19-40 | reclaim, replay test, capacity test and insertion compute the acquisition |
| Scripts.WriteLockScript | internal/lua/rw_write_lock.lua:36-86 | the script with its loops computes the write-lock attempt |
| Scripts.ReadLockScript | internal/lua/rw_read_lock.lua:32-80 | the script with its loops computes the read-lock attempt |
| Scripts.Server.AcquirePermits | internal/lua/sem_acquire.lua:19-40 | new keys and reply of the permit acquisition |
| Scripts.Server.RenewPermits | internal/lua/sem_renew.lua:13-26 | all scores move together or none does |
| Scripts.Server.ReleasePermits | internal/lua/sem_release.lua:9-13 | new keys and count of the permit release |
| Scripts.Server.LockWrite | internal/lua/rw_write_lock.lua:36-86 | new keys and reply of a writer attempt, queue invariant kept |
| Scripts.Server.LockRead | internal/lua/rw_read_lock.lua:32-80 | new keys and reply of a reader attempt, queue invariant kept |
| Scripts.Server.Dequeue | internal/lease/rw.go:59-62 | the entry and its stamp are gone, every other entry keeps its rank and stamp, and nothing else changes |
| Clients.PermitSet.TryAcquire | internal/lease/permit.go:54-86 | busy if and only if there is no live replay and the unexpired permits leave no room, and then the object is left alone; otherwise a grant if and only if its deadline is ahead when the reply arrives, which then is set; a fresh grant adds exactly n permits; a late grant is given back so that the server keeps only what was live before |
| Clients.PermitSet.Renew | internal/lease/permit.go:90-122 | succeeds if and only if all permits were owned and both deadlines are ahead; then the deadline never moves back |
| Clients.PermitSet.Release | internal/lease/permit.go:126-151 | clears the object, removes its own members, and reports loss if and only if one was gone |
| Clients.PermitSet.Held | internal/lease/permit.go:157-178 | held if and only if every permit is present and unexpired |
| Clients.PermitSet.TokenList | internal/lease/permit.go:60-63 | the loop builds the n tokens of the object |
| Clients.ReleaseUndoesAcquire | internal/lua/sem_release.lua:9-13 | acquire then release returns every permit and leaves exactly what was live before |
| Clients.PresentMisses | internal/lease/permit.go:148-150 | the release count is n if and only if no member was gone |
| Clients.TryLock | rwmutex.go:103-119 | busy leaves no entry and no stamp of the caller; a grant in time is the script's; a late grant is released on the spot |
| Clients.TryRLock | rwmutex.go:159-175 | the same for the read side |
| Clients.LateWriteUndone | internal/lease/rw.go:89-93 | releasing a late write grant frees the key and changes nothing else |
| Clients.LateReadUndone | internal/lease/rw.go:205-209 | releasing a late read grant of a fresh token leaves the reader set as it was before the attempt |
| Handle.RunKeepsInv | guard.go:88-185 | the invariant of the handle holds in every state of every interleaving |
| Handle.LossIsTerminal | guard.go:105-185 | loss is terminal, the expiry never moves back while held, and an expired lease never revives |
| Handle.AlwaysWatched | guard.go:86-101 | a handle not lost has a check running, or a timer due by its expiry and the time that passed between measuring and arming; once that is past, the timer can fire |
| Handle.OnTimeExactlyWhenPunctual | guard.go:94-100 | over every run, timers are armed by the expiry in every state if and only if each check that arms one is made up for by a later expiry |
| Handle.ArmsOnTimeExactlyWhen | guard.go:94-100 | one check arms on time if and only if the time since it measured is at most what the expiry gained since it was read |
| Handle.SwiftIsOnTime | guard.go:94-100 | over every run with no time between measuring and arming, timers are armed by the expiry |
| Handle.DelayedArmIsLate | guard.go:94-100 | from any live new handle, a run with one tick in between that ends not lost and with a timer due after the expiry |
| Handle.CheckDecides | guard.go:88-101 | an undisturbed check revokes the handle if and only if the lease expired, and else rearms for exactly the current expiry |
| Handle.QuietAfterLoss | guard.go:177-185 | once any markLost returned, no timer is pending then or ever after |
| Handle.ReleaseIsOrderly | guard.go:105-119 | releases are sent one at a time, after local use ended, and never after one was confirmed |
| Handle.RenewalSpeaksTrue | guard.go:134-175 | a renewal reports success only for a handle neither lost nor expired, with an expiry at least that of its own request |
| Handle.RenewDecides | guard.go:134-175 | an undisturbed renewal of a live handle succeeds if and only if the old expiry is still ahead when the reply arrives and the lease was there, or was renewed with the new deadline ahead too; which expiry then holds, and how every other outcome ends |
| Handle.RenewRefused | guard.go:135-160 | a renewal of a lost or released handle reports loss at once; one of an expired lease revokes the handle |
| Handle.MarkDecides | guard.go:177-185 | an undisturbed markLost revokes the handle, stops its timer, opens the lock and returns to its caller |
| Handle.ReleaseDecides | guard.go:105-119 | an undisturbed release ends local use whatever the server says, reports success if and only if the server released, and is final unless the round trip failed |
| Renewer.RunKeepsInv | internal/lease/renewer.go:45-99 | the invariant of the renewer holds in every interleaving of Start, Stop and the loop |
| Renewer.ClosedOnce | internal/lease/renewer.go:57-66 | done is closed at most once, and has been closed if and only if the loop is claimed and not running; the loss callback fires at most once |
| Renewer.SilentAfterStop | internal/lease/renewer.go:55-63 | after any Stop returned, no renewal or loss callback runs or ever begins |
| Renewer.CancelledLoopEnds | internal/lease/renewer.go:65-99 | after a cancel every step of the loop brings its exit nearer, and it has a step until then |
| Renewer.StopReturns | internal/lease/renewer.go:57-63 | a waiting Stop can return, or the loop can still move |
| Renewer.StartDecides | internal/lease/renewer.go:43-49 | the first Start launches the loop unless a Stop came before; every other one changes nothing |
| Renewer.StopBeforeStart | internal/lease/renewer.go:55-63 | a Stop before any Start closes done itself and returns, and no later Start launches anything |
| Renewer.BeatDecides | internal/lease/renewer.go:76-97 | an undisturbed heartbeat notifies the holder and ends the loop if and only if the lease is gone; after anything else the loop goes on |
| Renewer.CancelledBeat | internal/lease/renewer.go:72-82 | once cancelled, the loop begins no renewal and notifies no more |
| Lifecycle.RunKeepsInv | guard.go:54-61 | handle and renewer together keep both invariants; a heartbeat is in flight exactly while the loop renews |
| Lifecycle.NoHeartbeatAfterRelease | guard.go:121-131 | from the moment a release goes to the server, and ever after, no heartbeat is in flight and none can begin |
| Buckets.TokenAndLeakyAgree | internal/lua/ratelimit_leaky.lua:19-42 | for every sequence of calls, stamps, amounts and key expiries, token and leaky bucket give the same decisions and waits |
| Buckets.MirrorStep | internal/lua/ratelimit_leaky.lua:24-38 | one call keeps level = capacity - tokens and gives one decision |
| Buckets.TokenBound | internal/lua/ratelimit.lua:19-37 | from any call to an admitted call, without key expiry between, at most capacity plus rate times the stamp difference is admitted, in whatever order stamps come |
| Buckets.ExpiryNeverMatters | internal/lua/ratelimit.lua:38-40 | on one steady clock the run with key expiry equals the run without |
| Buckets.SteadyTokenBound | ratelimiter.go:98-107 | on one steady clock the bound holds between any two calls, across key expiries |
| Buckets.WaitIsExact | internal/lua/ratelimit.lua:30-35 | a rejected caller succeeds after w ms if and only if w is at least the reported wait |
| Buckets.LeakyWaitIsExact | internal/lua/ratelimit_leaky.lua:30-36 | the same for the leaky bucket |
| Windows.FixedCountsHistory | internal/lua/ratelimit_fixed.lua:19-32 | clocks within half a window: a request is admitted if and only if the admitted history of its window leaves room; counters stay exact whatever the order of stamps |
| Windows.FixedBound | ratelimiter.go:80-84 | over every run, each window admits at most the limit and each interval of a window's length at most twice the limit |
| Windows.FixedBoundIsReached | ratelimiter.go:43 | from any instant that is not a boundary, two bursts one millisecond apart reach twice the limit |
| Windows.FixedLimitsExactlyAtBoundaries | ratelimiter.go:80-84 | all runs admit at most the limit in the window's length from an instant on if and only if that instant is a boundary or the limit is zero |
| Windows.FixedWaitIsExact | internal/lua/ratelimit_fixed.lua:25-30 | alone at the key, a rejected caller succeeds after d ms if and only if d is at least the reported wait |
| Windows.SlidingCountsHistory | internal/lua/ratelimit_sliding.lua:22-39 | on one steady clock a request is admitted if and only if the admitted history of its rolling window leaves room; the log stays exactly that history |
| Windows.SlidingBound | ratelimiter.go:86-90 | over every run on one steady clock, no rolling window admits more than the limit, and the log is the admitted history of the last window |
| Windows.SlidingWaitIsShortest | internal/lua/ratelimit_sliding.lua:25-33 | no wait shorter than the reported one finds room, and that wait strictly lowers the entries in the window |
| Windows.SlidingRejectionIsNeutral | internal/lua/ratelimit_sliding.lua:25-33 | a rejection changes the live entries of no later instant |
| Limiter.FixedScript | internal/lua/ratelimit_fixed.lua:13-32 | counting first and taking back computes the fixed-window step |
| Limiter.SlidingScript | internal/lua/ratelimit_sliding.lua:16-39 | dropping, counting and inserting compute the sliding-window step |
| Limiter.AdmittedExactlyWithRoom | ratelimiter.go:181-187 | under each algorithm a servable request is admitted if and only if the room at that instant suffices |
| Limiter.NeedRoundsUp | ratelimiter.go:181-187 | the windowed algorithms round what is asked for up to the next whole request, the buckets do not |
| Rates.WindowIsCapacityOverRate | ratelimiter.go:171-175 | the window is the one whole number of milliseconds w with w times rate at most capacity seconds and (w+1) times rate above |
| Rates.GainIsRate | internal/lua/ratelimit.lua:24 | a bucket gains its rate every 1000 milliseconds |
| Rates.LifeIsRefillAndASecond | internal/lua/ratelimit.lua:38-40 | the key of a bucket outlives the time of a full refill by one second |
| Rates.SlidingAdmitsExactly | ratelimiter.go:86-90 | over every run, a call is let through if and only if it and the whole requests let through in the capacity/rate before it stay within the capacity |
| Rates.SlidingRate | ratelimiter.go:86-90 | over every run, no stretch of at most capacity/rate sees more than the capacity let through |
| Rates.FixedAdmitsExactly | ratelimiter.go:80-84 | over every run, a call is let through if and only if it and the whole requests let through in its window of capacity/rate stay within the capacity |
| Rates.FixedRate | ratelimiter.go:80-84 | over every run, each window of capacity/rate sees at most the capacity let through |
| Rates.BucketAdmitsExactly | internal/lua/ratelimit.lua:19-37 | over every run of a token or leaky bucket, a call is let through if and only if, counted from every earlier instant, it and what was let through stay within the capacity and what the rate brought since |
| Rates.BucketRate | ratelimiter.go:98-107 | over every run of a token or leaky bucket, any stretch of time sees at most the capacity and what the rate brings in it |
| Limiter.RejectionIsNeutral | ratelimiter.go:236-239 | under each algorithm a rejection leaves the room at every later instant as it was |
| Limiter.WaitIsLeast | ratelimiter.go:236-239 | under each algorithm the reported wait is positive, no shorter one finds room, and it works off debt |
| Limiter.ServeKeepsSound | ratelimiter.go:205-220 | under each algorithm every call leaves the key as one steady clock leaves it |
| Limiter.RateLimiter.constructor | ratelimiter.go:134-160 | a fresh limiter for accepted rates |
| Limiter.RateLimiter.Allow | ratelimiter.go:188-221 | zero is free; negative or impossible amounts are errors that touch nothing, exactly those; anything else is admitted if and only if there is room |
| Limiter.RateLimiter.Acquire | ratelimiter.go:240-264 | alone at the key, Acquire ends, and it ends at the first millisecond at which the request finds room |

## Left out

- Handle, Renewer, Lifecycle: modelled on values as state machines over their interleaved steps rather than as objects; mutexes, the `once` and channels are fields of the state.
- Protocol: the client objects `SingleOwner`, `RWWriter` and `RWReader` are values in the transition system, because their steps interleave; only the permit set is also an object.
- `Held` of the single-owner and read-write leases: plain reads; only the one of the permit set is modelled, and the watchdog that calls it.
- Cancellation of contexts: a caller that gives up may do so at any step (`Abandon`), but the error it then returns is not modelled; `Acquire` of the rate limiter is modelled without a deadline of its caller.
- The `Lock` and `RLock` loops as methods: between two attempts everybody else acts, so they appear as sequences of timed attempts inside a history of the server.
- go-redis, the script cache, TCP and replication: scripts are atomic steps that execute late, repeatedly or never.
- Floating-point rounding, number formatting in Lua, and integers beyond 2^53 or 2^64.
- Counter rollback, data loss, failover and clocks that jump: the project documents them as not guaranteed.
- `leader.go`, `mutex.go`, `once.go`, `semaphore.go`, `dist.go`: thin instances of the lease and its handle.
- `RateLimiter.Reset`, `Wait`, `Semaphore.Available`, metrics, tracing and key names: no further protocol state.
- Tightness.KeyExclusionExactlyWithinMargin, Tightness.ExclusionExactlyWithinMargin, Tightness.CapacityExactlyWithinMargin: without settled attempts they are stated for ttls of at least 2 ms; the one usable ttl below that inside the margin is 1.010102 ms on equal clocks (`Tightness.ShortTtls`).
- Which error accompanies a late grant whose cleanup failed: the model records the loss only.
