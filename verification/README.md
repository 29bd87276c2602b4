# A verified model of the promise and task kernel

The store keeps durable promises, the tasks that run them and the schedules that
create them, in one job queue. This project models that kernel in Dafny and proves
what it relies on: under any interleaving of requests, deliveries, timers, lease
expiries, faults and restarts.

The model has four parts.

* **What is meant.** `Records`, `Queues` and `Transaction` define the stored records,
  a small job queue (fresh ids, at most one live claim token for a job, stale claims
  without effect) and a request's unit of work as a value `Tx`: the records as the
  request reads them, the jobs its commit enqueues, the held claims and the work that
  follows the commit. `Kernel` gives every request handler, the delivery and the timers
  as functions of a `Tx`, branch by branch. `Worlds` is the state machine around them:
  requests with a fault at any point (before the commit, or after it and any prefix of
  the work that follows), claims taken outside the lock, deliveries, timer firings and
  their acknowledgement outside the lock, lease expiry by the reaper, clock advances and
  restarts.
* **What always holds.** `Invariant` states the invariant; `Steps`, `Operations`,
  `Handlers` and `Commits` show that every operation keeps it, and `Runs` that every
  state of every run has it. `Theorems`, `Wakeups`, `Fencing`, `Refusals`, `Confluence`,
  `Invisible`, `Schedules`, `Endings`, `Branches`, `Paging`, `Searches`, `Preloads`,
  `Keys` and `Lineage` contain the main results; `Frames` states what requests leave
  alone and `Closings` what a settlement decides about the job of its task.
* **What a client gets.** `Reference` writes out, field by field, the records that a
  creation, a settlement, a deadline and a firing leave. `Answers`, `Registrations`,
  `Leases` and `Searches` state the reply and the effect of every kind of request and of
  a delivery in those terms, as functions of the request and the store before it, and
  `Theorems`, `Confluence`, `Invisible` and `Schedules` use the same records.
  `Templates` has the laws of the text functions they rest on.
* **How it is done.** `Txns` has the mutable store and the transaction with its write
  buffer as classes; `Machine` and `Server` carry out every operation and every handler
  through them, with the source's loops, and each method is proved to end exactly as the
  functions of `Transaction` and `Kernel` say. `Server.Serve` joins this to the
  invariant.

To check the whole project, run `dafny verify dfyconfig.toml` with Dafny 4.11.

Where the code and its comments differ, the model follows the code:

* `src/records.rs:165-169` says that no live job exists for a halted or fulfilled task.
  That is false: a job that still waits for delivery, or whose claim was lost, survives a
  halt and a settlement (`src/kernel.rs:1091-1093`, `src/kernel.rs:418-424`), and is
  dropped at its delivery (`src/kernel.rs:651-655`). `Endings.HaltedTaskWithJob` and
  `Endings.FulfilledTaskWithJob` are runs that end with such a job. A halt and a
  settlement end the job exactly when its current claim is held (`Endings.HaltEndsJob`,
  `Endings.SettlementEndsJob`), an accepted fulfil always does
  (`Endings.AcceptedFulfilEndsJob`), and so does a delivery with a current claim
  (`Endings.DeliveryEndsJob`).
* A fence and a release check the version of the task but not that its claim is held
  (`src/kernel.rs:866`, `src/kernel.rs:1002`), so no result here says that a live lease
  is needed for them.
* A lease is looked up by job and not by claim (`src/txn.rs:272-276`); a stale claim is
  caught by the queue only.
* Ids of promises that a schedule creates are not validated (`src/kernel.rs:589-610`), so
  one can hold a null, and the index of a branch then lists entries of another
  (`Branches.NullHidesSibling` is a run that shows it). The preload of a null-free branch
  is exact unless some branch tag extends that branch by a null
  (`Branches.PreloadsAreExact`), and a schedule fires ids with a null exactly when its
  template has one, or names the schedule's id and that has one
  (`Branches.FiredIdNullFree`).

Some names need a word. `sent` and `done` in a `Tx` only record history: every unblock
job ever enqueued, and the timer jobs that were applied and not yet acknowledged. A
reply of `Panic` stands for a failed `expect`. `Env` has what the kernel takes from
elsewhere: whether a string is a URL, the next cron time (strictly later than the one
it follows, or none) and the preload limit.

## Model

| member | source | states |
|---|---|---|
| `Preloads.BoundedScanIsEnough` | src/txn.rs:159-193 | The first limit + 1 committed ids, merged with any written ids, have the same first ids as all of them. |
| `Preloads.PrefixIsContiguous` | src/txn.rs:180-183 | Keys with a prefix are adjacent in key order, so the walk may stop at the first key past them. |
| `Handlers.HandleOk` | src/kernel.rs:215-240 | Every handler, on every request, keeps the invariant of records, jobs, timers, index and held claims, and relates the records before and after. |
| `Commits.FinishKeeps` | src/txn.rs:407-438 | Any prefix of the work after a commit, also none of it, keeps the invariant. |
| `Runs.StepInv` | src/store.rs:82-103 | Every step of the store keeps the invariant: request, claim, delivery, timer, acknowledgement, lease expiry, clock, fault, restart. |
| `Runs.RunInv` | src/store.rs:82-103 | Every state of every run has the invariant. |
| `Theorems.OneJobPerTask` | src/records.rs:165-169 | In every state of every run a task has at most one live execute job, the one it names: exactly one while pending or acquired, none while suspended. That a halted or fulfilled task has none is false of the code; the next six rows say when it does. |
| `Endings.HaltEndsJob` | src/kernel.rs:1080-1097 | A halt leaves no live job if and only if there was none or the current claim of the job is held. |
| `Endings.SettlementEndsJob` | src/kernel.rs:413-424 | A settlement by any request or timer firing leaves the task of the promise no live job if and only if there was none or the current claim of the job is held. |
| `Endings.AcceptedFulfilEndsJob` | src/kernel.rs:877-924 | An accepted fulfil always ends the job, whatever fault follows its commit. |
| `Endings.DeliveryEndsJob` | src/kernel.rs:632-665 | A delivery that leaves its task halted or fulfilled leaves no live job if and only if there was none, its claim is current, or it settles a task whose current claim is held. |
| `Endings.HaltedTaskWithJob` | src/kernel.rs:1091-1093 | A run to a state in which a halted task has a live job. |
| `Endings.FulfilledTaskWithJob` | src/kernel.rs:413-424 | A run to a state in which a fulfilled task has a live job. |
| `Closings.HandleCloses` | src/kernel.rs:418-424 | Every request that settles the promise of a task schedules the release of the claim of the task after its commit, enqueues no job of the task and leaves its held claim as it was until then. |
| `Theorems.NoLostWakeup` | src/kernel.rs:957-982 | From an accepted suspend on, while the task stays suspended and its deadline is ahead, every promise it suspended on is still pending and lists it. |
| `Wakeups.FirstSettlementWakes` | src/kernel.rs:413-432 | The step in which an awaited promise settles leaves the suspended task pending with exactly one job, enqueued by that step. |
| `Theorems.CrashAfterCommit` | src/txn.rs:354-438 | Stopping a request, a delivery or a timer firing after the commit and any part of the work that follows, then restarting, gives the records of a step that ran to its end and the invariant, with no claim left. |
| `Theorems.CrashBeforeCommit` | src/txn.rs:354-379 | Stopping a request, a delivery or a timer firing before the commit leaves the records, the sent messages and the jobs as they were. |
| `Theorems.SettlementIsFinal` | src/kernel.rs:391-424 | Over any run a settled record never changes and has no registrations, and its times are in order. One settled at its deadline has an empty value and is resolved when its timer tag is true and timed out otherwise; one settled before is not timed out. |
| `Theorems.SettledByWhom` | src/kernel.rs:391-408 | The step that settles a promise settles it at its deadline exactly when the deadline has passed: it is then resolved if and only if its timer tag is true and timed out otherwise, with everything else as it was. |
| `Theorems.TaskAndPromiseAgree` | src/kernel.rs:413-421 | In every state a task exists exactly for a targeted promise and is fulfilled exactly when its promise is settled; fulfilled is final. |
| `Answers.CreateIsValidated` | src/kernel.rs:269-311 | A create is answered 400 if and only if its request is not well-formed, where origin, branch and parent tags are prefixes of the id up to a separator; otherwise it is answered with a record of its id. |
| `Answers.PromiseCreateAnswer` | src/kernel.rs:497-583 | A create of a new promise stores and shows the requested record: pending, or past its deadline created at it and settled by it. A targeted one gets a task at version 0, pending with one job that is due at the requested delay, or fulfilled without a job. |
| `Answers.PromiseGetAnswer` | src/kernel.rs:694-701 | A get shows the record as stored, or as its deadline leaves it where that has passed, and stores that. |
| `Answers.PromiseSettleAnswer` | src/kernel.rs:703-712 | A settle of a pending promise before its deadline stores and shows exactly the requested state and value and the current time, with id, parameter and tags as before; any other shows the settled record. |
| `Answers.FenceAnswer` | src/kernel.rs:985-1054 | A fence is accepted exactly for a valid action on another promise of the origin while the task is acquired at the version before its deadline; it leaves the records that the action leaves as a request of its own, and shows its reply. |
| `Answers.TaskGetAnswer` | src/kernel.rs:1071-1078 | A task get shows the task field by field, as it was or fulfilled by its deadline. |
| `Answers.HaltAnswer` | src/kernel.rs:1080-1097 | A halt of an open task keeps its version and resumes and removes its holder; a fulfilled one is refused. |
| `Answers.ContinueAnswer` | src/kernel.rs:1099-1118 | A continue of a halted task returns it to pending at its version: its job goes on if it still exists, and otherwise it has one new job that waits. |
| `Answers.ScheduleCreateAnswer` | src/kernel.rs:1133-1176 | A create of a new schedule stores and shows the request with the first cron time after now and puts the timer of that time on the queue; an existing one is shown and an invalid one refused. |
| `Answers.ScheduleGetAnswer` | src/kernel.rs:1178-1183 | A get shows the stored schedule and changes nothing. |
| `Answers.ScheduleDeleteAnswer` | src/kernel.rs:1185-1191 | A delete removes the schedule and nothing else. |
| `Registrations.CallbackReply` | src/kernel.rs:714-745 | The reply to a callback registration is 400, 404, 422 or the awaited record, by the two ids and the tags of the two promises alone. |
| `Registrations.CallbackIsKept` | src/kernel.rs:730-732 | A registration that is answered 200 while both promises are ahead leaves the awaiter in the callbacks of the awaited promise, once, and changes nothing else. |
| `Registrations.CallbackWakes` | src/kernel.rs:730-736 | A registration on a promise that is settled, or past its deadline, records it for the awaiter: a suspended task is pending with exactly one job, a new one, and resumes with that promise; a pending or acquired one has it in its resumes. |
| `Registrations.SettlementWakes` | src/kernel.rs:413-478 | A client that settles a promise wakes every task it lists whose own deadline is ahead: a suspended one is pending with a new job and resumes with that promise, any other open one has it in its resumes, and no other task changes but the promise's own. |
| `Registrations.ListenerAnswer` | src/kernel.rs:747-763 | The reply to a listener registration, by the address and the tags of the promise; a promise that is ahead lists the address, once, and nothing else changes. |
| `Leases.TakenIsCurrent` | src/network.rs:222-231 | Claiming a waiting job gives a current claim with the payload of the job and a lease of the time asked. |
| `Leases.JobWaitsAgain` | src/txn.rs:47-54 | A job whose current claim is given back, whose lease is reaped, or whose process restarts can be claimed again. |
| `Leases.DeliveryAnswer` | src/kernel.rs:641-665 | The delivery of an execute job sends the id and stored version of a task that is to run, returns it to pending at that version and holds the claim; any other sends nothing and leaves no task pending. |
| `Leases.DeliveredCanAcquire` | src/kernel.rs:641-660 | After a delivery, until the lease of its claim or the deadline of the promise ends, an acquire is accepted if and only if it names the version that was sent. |
| `Leases.UnblockAnswer` | src/kernel.rs:634-640 | The message of an unblock is the record in its job, which ends if the claim is current. |
| `Leases.AcquireAnswer` | src/kernel.rs:484-495 | An acquire is accepted if and only if the task is pending at the version before its deadline and its claim is held by a lease that has not ended. The task is then acquired at the next version and the lease ends `ttl` from now; no other task or lease changes. |
| `Leases.AcquiredCanFulfil` | src/kernel.rs:253-255 | After an accepted acquire, while only the clock moves, until `ttl` has passed or the deadline comes, the task is held at the new version and a fulfil at it is accepted and settles as requested. |
| `Leases.LeaseLasts` | src/txn.rs:272-290 | A lease that has not ended lasts while only the clock moves up to its end, and the task stays held. |
| `Leases.FulfilAnswer` | src/kernel.rs:877-924 | A fulfil is accepted if and only if it is well-formed and the task is held at the version; it stores and shows the requested state and value at the current time and fulfils the task. |
| `Leases.SuspendAnswer` | src/kernel.rs:926-983 | A suspend of a held task is refused for its claim never: it is answered 400 or 422 for what it names, 300 with the resumes cleared if a named promise is settled or past its deadline, and otherwise suspends with every named promise pending and listing it. |
| `Leases.HeartbeatAnswer` | src/kernel.rs:1056-1069 | A heartbeat moves the lease of exactly the tasks that its process holds at the versions it names, to its time plus the `ttl` of the task, and changes no record. |
| `Leases.ReleaseAnswer` | src/kernel.rs:861-875 | A release is accepted if and only if the task is acquired at the version before its deadline; the task is then pending at it, and with a current claim its job can be claimed again. |
| `Leases.NewTaskAnswer` | src/kernel.rs:778-841 | A task create of a new promise leaves an acquired task at version 1 with a claim held for `ttl` and a job due at the end of that lease; past its deadline a fulfilled task. |
| `Leases.ExistingTaskAnswer` | src/kernel.rs:795-829 | A task create of an existing task acquires it if and only if it is pending before its deadline and its claim is held or its job waits; a fulfilled one is shown and any other refused. |
| `Leases.CreatedCanFulfil` | src/kernel.rs:778-841 | After a task create that acquired its task, new or existing, while only the clock moves, until `ttl` has passed or the deadline comes, the task is held at its version and a fulfil at it is accepted. |
| `Leases.TaskCreateRefused` | src/kernel.rs:778-841 | A task create that is not well-formed is answered 400, and one of a promise without a task 422. |
| `Theorems.NoPanic` | src/kernel.rs:667-671 | No request panics in any reachable state: the expected promise of a task, the task of a targeted promise and the job of a dispatched task are there. |
| `Theorems.OneUnblockPerListener` | src/kernel.rs:433-442 | For every address that listens to a promise before it settles, the settling step puts an unblock job with the final record on the queue of the address under a new id, and no state of the run has another unblock job of the promise for it. |
| `Theorems.SettlementEnqueuesUnblock` | src/kernel.rs:433-442 | The step that settles a promise puts on the queue of every listening address one unblock job with the final record, the only one for it in the new state. |
| `Theorems.DeadlinesAreScheduled` | src/kernel.rs:574-581 | In every state every pending external promise has an outstanding timer job due at its deadline. |
| `Theorems.RegistrationsAreSound` | src/kernel.rs:313-327 | In every state resumes name other settled promises of the task's origin, suspended and fulfilled tasks have none, and callbacks are distinct and name other targeted promises of the same origin. |
| `Fencing.VersionsNeverDecrease` | src/kernel.rs:484-495 | Over any run the version of a task never decreases. |
| `Fencing.HeldIsOneInterval` | src/kernel.rs:484-495 | The time a task is held at one version is one contiguous interval with one process. |
| `Fencing.OneAcceptancePerVersion` | src/kernel.rs:861-983 | For each task and version at most one fulfil, suspend (status 200) or release is ever accepted. |
| `Fencing.RedeliveryFences` | src/kernel.rs:644-650 | After a redelivery every request at the version held then, or an older one, is refused for ever, except a new acquire, and a heartbeat at it renews nothing. |
| `Refusals.HandleRefusals` | src/kernel.rs:243-246 | A refused request changes no record but by the deadlines of the promises it names, for every handler. |
| `Refusals.RefusalChangesNothing` | src/kernel.rs:912-924 | After a 4xx reply the store has the old records or those with the named deadlines applied, also for a fulfil or suspend that loses its claim at the commit. |
| `Confluence.TryTimeoutIsExpiry` | src/kernel.rs:377-387 | Applying deadlines one by one equals the simultaneous expiry of the set of named promises, given in closed form. |
| `Confluence.ExpiryIsConfluent` | src/kernel.rs:377-387 | Any order and any repeats of the named promises give the same records and the same multiset of new jobs, up to job ids. |
| `Confluence.ExpiryDispatchesOnce` | src/kernel.rs:425-432 | A task suspended on several expiring promises is dispatched once and resumes with all of them. |
| `Invisible.RunRefines` | src/kernel.rs:377-395 | The replies to promise requests in any run are those of a machine that applies every deadline the moment it passes and has no timers. |
| `Invisible.TimersAreInvisible` | src/timers.rs:26-36 | Two runs with the same promise requests at the same times give the same replies, wherever timers, deliveries, lease expiries and restarts fall. |
| `Schedules.FiringsAreSuccessive` | src/kernel.rs:587-625 | While a schedule lives its firings are the successive times of its cron expression, none skipped and none repeated, whatever timers occur. |
| `Schedules.ChangeIsFiring` | src/timers.rs:37-45 | A schedule changes only in a timer step for its next time, not before that time, which leaves the promise of that firing. |
| `Schedules.LiveScheduleHasTimer` | src/kernel.rs:1133-1176 | In every state a schedule has an outstanding timer at its next time, unless it fired its last time. |
| `Schedules.RepeatedLastFiring` | src/kernel.rs:616-625 | Firing an exhausted schedule again changes no record and enqueues nothing. |
| `Schedules.FiredIs` | src/kernel.rs:587-610 | The promise of a firing has the schedule's parameter and tags, with the schedule's id and its own id in the five protocol tags, and the fired time plus the timeout, at 64 bits, as its deadline. |
| `Templates.FiredIdIsFilled` | src/kernel.rs:589-593 | A schedule fires the id that its template names, with its own id and its next time in the places of their placeholders. |
| `Templates.ReplaceFirst` | src/kernel.rs:589-593 | A replacement puts its text in the place of the first occurrence and goes on behind it. |
| `Templates.PrintedIsParsed` | src/kernel.rs:301-304 | Parsing a printed number gives it back, within 64 bits and nowhere else. |
| `Branches.IndexIsExact` | src/keys.rs:64-81 | The index of a null-free branch with null-free ids lists exactly its promises if and only if no promise has a branch tag that starts with that branch and a null. |
| `Branches.PreloadsAreExact` | src/txn.rs:151-201 | In every state of every run, a preload of a null-free branch that no branch tag extends by a null is the first promises of the branch in id order, without the promise itself; where the branch's ids are null-free its index is exact in no other case. |
| `Branches.FiredIdNullFree` | src/kernel.rs:589-593 | The id a schedule fires is null-free if and only if its promise id template is, and its own id is or does not occur in the template. |
| `Branches.CleanRunsAreExact` | src/txn.rs:151-201 | In every run whose schedules fire null-free ids only, every preload is the first promises of the branch in id order, without the promise itself. |
| `Branches.NullHidesSibling` | src/kernel.rs:589-610 | A run in which a schedule with a null in its promise id fires: the index of another branch is not the set of its promises, and a preload of one misses the only sibling. |
| `Frames.HandleLeaves` | src/kernel.rs:269-311 | A request adds or drops only the schedule it names, and adds index entries of null-free branches and ids only. |
| `Paging.PageShape` | src/kernel.rs:340-359 | A page has exactly the items between its cursor and the next one, in order and at most the limit. |
| `Paging.PagesAreOrdered` | src/kernel.rs:340-359 | Every item of an earlier page is before every item of a later one. |
| `Paging.WhatStaysIsReturnedOnce` | src/kernel.rs:340-359 | An id that is listed at every page is returned by exactly one of them. |
| `Paging.CursorsEnd` | src/kernel.rs:340-359 | Following the cursors ends: full pages cannot outnumber the ids. |
| `Paging.PagesOfAFixedStore` | src/kernel.rs:340-359 | On a store that does not change, the pages concatenate to the whole list. |
| `Searches.PromiseSearchIsComplete` | src/kernel.rs:765-776 | In any run, a promise that matches in every state a page is read in is returned exactly once. |
| `Searches.TaskSearchIsComplete` | src/kernel.rs:1120-1131 | The same of a task search. |
| `Searches.ScheduleSearchIsComplete` | src/kernel.rs:1193-1203 | The same of a schedule search. |
| `Searches.PromiseSearchAnswer` | src/kernel.rs:765-776 | A promise search is answered 400 for a limit outside 1 to 1000, and otherwise with exactly the stored promises of the wanted state and tags after the cursor, in id order, at most the limit or 100. |
| `Searches.TaskSearchAnswer` | src/kernel.rs:1120-1131 | The same of a task search, field by field. |
| `Searches.ScheduleSearchAnswer` | src/kernel.rs:1193-1203 | The same of a schedule search, at most the limit or 10. |
| `Searches.FilterWanted` | src/kernel.rs:362-368 | A filter selects what has every one of its tags with the same value. |
| `Searches.PromisesListed` | src/kernel.rs:765-774 | A promise search lists exactly the promises that match, in id order. |
| `Keys.AddressQueue` | src/keys.rs:26-49 | The loop over the bytes builds the escaped name, or the hashed one when it is too long. |
| `Keys.EscapingCanBeUndone` | src/keys.rs:30-42 | A decoder recovers every address from its escaped form. |
| `Keys.EscapedNamesAreDistinct` | src/keys.rs:23-49 | Escaped names are equal exactly for equal addresses, and never a hashed name or the timer queue. |
| `Keys.EscapedNamesArePlain` | src/keys.rs:26-42 | An escaped name uses only letters, digits, dots, dashes and underscores. |
| `Keys.KeysAreDisjoint` | src/keys.rs:13-20 | Keys are injective and those of promises, tasks, schedules and index entries never meet. |
| `Keys.EntryRoundTrip` | src/keys.rs:64-81 | The id is recovered from an index key under its branch. |
| `Keys.EntryOfBranch` | src/keys.rs:71-81 | An entry is listed under a null-free branch exactly when it is of that branch or of one that starts with it and a null. |
| `Lineage.LineageIsATreeOrder` | src/kernel.rs:257-267 | The ancestor relation is reflexive, antisymmetric and transitive, the ancestors of an id form a chain, and an ancestor shares its origin. |
| `Lineage.SeparatorFollowsAncestor` | src/kernel.rs:257-267 | An id is below an ancestor by a dot when the ancestor has a colon, and by a colon exactly when the ancestor is its origin. |
| `Server.Serve` | src/kernel.rs:215-246 | Any request on a store with the invariant keeps it, does not panic, and leaves the store and the reply that `Kernel.Handle` and the commit mean. |
| `Server.DeliverClaimed` | src/network.rs:242-246 | Delivering a claimed job keeps the invariant of the store. |
| `Server.FireClaimed` | src/timers.rs:25-48 | Applying a due timer keeps the invariant of the store. |
| `Txns.Txn.Commit` | src/txn.rs:354-379 | Every write and enqueue reaches the store as one step, then the work after the commit is done; the buffer is empty. |
| `Txns.Txn.CommitAck` | src/txn.rs:386-403 | The writes are applied together with the acknowledgement exactly when the claim is held, live and current; otherwise the store is unchanged and only the held claim is dropped. |
| `Txns.Txn.Finish` | src/txn.rs:407-438 | The loop over the work after the commit performs every step in order, and a lost claim has no effect. |
| `Txns.Txn.Preload` | src/txn.rs:154-201 | The bounded scan merged with the buffered writes, sorted and cut off, equals the first ids of the whole merged index: the fast form refines the simple meaning. |
| `Txns.Txn.ScanCommitted` | src/txn.rs:158-179 | The bounded scan returns the committed ids of the branch in order: all of them, or more than the limit. |
| `Txns.Txn.MergeWritten` | src/txn.rs:180-191 | The walk over the buffered keys, which stops at the first key without the prefix, adds exactly the written ids of the branch, without duplicates. |
| `Txns.Txn.Dispatch` | src/txn.rs:244-257 | Enqueues one execute job under a fresh id, due at the given time, and writes the task with that id. |
| `Server.RegisterAll` | src/kernel.rs:977-979 | Registering on the promises as they were read equals registering one after the other, as the ids are distinct. |
| `Server.CheckActions` | src/kernel.rs:927-946 | The validation loop accepts exactly the valid action lists and returns the awaited ids in order. |
| `Txns.Txn.Promises` | src/txn.rs:204-230 | The listing is every committed promise in id order. |
| `Txns.Txn.Tasks` | src/txn.rs:209-230 | The listing is every committed task in id order. |
| `Txns.Txn.Schedules` | src/txn.rs:213-230 | The listing is every committed schedule in id order. |
| `Txns.Txn.SendUnblock` | src/txn.rs:233-240 | Enqueues one unblock job for the address and changes no committed record. |
| `Txns.Txn.ScheduleTimer` | src/txn.rs:260-267 | Enqueues one timer job, not due before its time. |
| `Txns.Txn.Holds` | src/txn.rs:272-290 | Whether the claim is held with a live lease, looked up by job; a held claim whose lease ended is dropped. |
| `Txns.Txn.Renew` | src/txn.rs:294-304 | Renews the lease exactly when the claim is held, live and current; otherwise the claim is dropped. |
| `Txns.Txn.ClaimJob` | src/txn.rs:308-316 | Claims a waiting job by id and holds the claim; any other job is left alone. |
| `Machine.TryTimeout` | src/kernel.rs:377-387 | The loop settles every named promise whose deadline passed, in order. |
| `Machine.ExpirePromise` | src/kernel.rs:391-395 | The settled record is the reference record of an expiry: the timeout state its tags give, the deadline as its time, and everything else as it was. |
| `Machine.Settle` | src/kernel.rs:398-408 | The settled record is the reference record of a settlement: the requested state and value, the current time, and everything else as it was. |
| `Machine.SettleChain` | src/kernel.rs:413-444 | Fulfils the own task, releases its claim, clears the registrations, resumes the awaiters whose deadline is ahead and tells every listener. |
| `Machine.ResumeAwaiter` | src/kernel.rs:446-478 | Dispatches a suspended task, records the settlement for a pending, acquired or (by fan-out only) halted one, and leaves a fulfilled one alone. |
| `Machine.Acquire` | src/kernel.rs:484-495 | Acquires only by renewing a live claim: the task is then held at the next version with no resumes, and the lease of its claim ends `ttl` from now. |
| `Machine.CreatePromise` | src/kernel.rs:497-583 | Writes the record, the index entry, the task with its dispatch or claim, and the deadline timer; past its deadline the promise is created settled. |
| `Machine.FireSchedule` | src/kernel.rs:587-625 | Creates the promise of this firing unless it exists and advances the schedule by one firing with its timer. |
| `Machine.DeliverJob` | src/kernel.rs:632-665 | Ends as `Kernel.Deliver` decides, which `Leases.DeliveryAnswer` and `Leases.UnblockAnswer` state in terms of the stored task. |
| `Machine.FireTimer` | src/timers.rs:26-48 | A promise timer acts only on a pending promise and a schedule timer only on its own next firing. |
| `Server.ServeRegisterCallback` | src/kernel.rs:714-745 | Ends as `Kernel.HandleRegisterCallback` decides, which `Registrations.CallbackReply`, `CallbackIsKept` and `CallbackWakes` state. |
| `Server.ServeTaskCreate` | src/kernel.rs:778-841 | Ends as `Kernel.HandleTaskCreate` decides: a new task is created acquired, a pending one is acquired by its held or newly taken claim. |
| `Server.ServeTaskFulfill` | src/kernel.rs:877-910 | Ends as `Kernel.HandleTaskFulfill` decides: settled in the acknowledgement of the job, or unchanged with 409. |
| `Machine.CommitSettlement` | src/kernel.rs:912-924 | A lost claim is answered 409 and leaves the records as they were. |
| `Server.ServeTaskSuspend` | src/kernel.rs:926-983 | Ends as `Kernel.HandleTaskSuspend` decides: suspended with 200, still running with 300, or refused. |
| `Server.ServeTaskFence` | src/kernel.rs:985-1054 | Ends as `Kernel.HandleTaskFence` decides; the version is checked, the claim is not. |
| `Server.ServeTaskHeartbeat` | src/kernel.rs:1056-1069 | The loop renews the lease of every task the process holds at the named version and skips every other entry. |
| `Server.ServePromiseGet` | src/kernel.rs:694-701 | Ends as `Kernel.HandlePromiseGet` decides. |
| `Server.ServePromiseSettle` | src/kernel.rs:703-712 | Ends as `Kernel.HandlePromiseSettle` decides, which `Answers.PromiseSettleAnswer` states in terms of the request. |
| `Server.ServePromiseCreate` | src/kernel.rs:684-692 | Ends as `Kernel.HandlePromiseCreate` decides: the reply and the whole store. |
| `Server.ServeRegisterListener` | src/kernel.rs:747-763 | Ends as `Kernel.HandleRegisterListener` decides. |
| `Server.ServePromiseSearch` | src/kernel.rs:765-776 | The reply is the page of the committed promises that match; nothing is committed. |
| `Server.TaskView` | src/kernel.rs:667-682 | The view has the task, its promise and, unless fulfilled, its preload. |
| `Server.ServeTaskAcquire` | src/kernel.rs:843-859 | Ends as `Kernel.HandleTaskAcquire` decides, which `Leases.AcquireAnswer` states. |
| `Server.ServeTaskRelease` | src/kernel.rs:861-875 | Ends as `Kernel.HandleTaskRelease` decides; the claim is failed after the commit. |
| `Server.ServeTaskGet` | src/kernel.rs:1071-1078 | Ends as `Kernel.HandleTaskGet` decides. |
| `Server.ServeTaskHalt` | src/kernel.rs:1080-1097 | Ends as `Kernel.HandleTaskHalt` decides; a job still waiting survives. |
| `Server.ServeTaskContinue` | src/kernel.rs:1099-1118 | Ends as `Kernel.HandleTaskContinue` decides; a job that still exists is not doubled. |
| `Server.ServeTaskSearch` | src/kernel.rs:1120-1131 | The reply is the page of the committed tasks that match. |
| `Server.ServeScheduleCreate` | src/kernel.rs:1133-1176 | Ends as `Kernel.HandleScheduleCreate` decides. |
| `Server.ServeScheduleGet` | src/kernel.rs:1178-1183 | Ends as `Kernel.HandleScheduleGet` decides; nothing is committed. |
| `Server.ServeScheduleDelete` | src/kernel.rs:1185-1191 | Ends as `Kernel.HandleScheduleDelete` decides. |
| `Server.ServeScheduleSearch` | src/kernel.rs:1193-1203 | The reply is the page of the committed schedules that match. |
| `Txns.Txn.GetPromise` | src/txn.rs:92-118 | A read sees the request's own writes first and then the committed record: it equals the lookup in the merged view. |
| `Txns.Txn.PutPromise` | src/txn.rs:120-122 | A written promise replaces exactly its own entry of the view. |
| `Txns.Txn.IndexBranch` | src/txn.rs:124-129 | Adds the index entry of a promise with a branch tag and nothing else. |
| `Txns.Txn.GetTask` | src/txn.rs:131-133 | The same read-through lookup for tasks. |
| `Txns.Txn.PutTask` | src/txn.rs:135-137 | A written task replaces exactly its own entry of the view. |
| `Txns.Txn.GetSchedule` | src/txn.rs:139-141 | The same read-through lookup for schedules, where a buffered deletion hides the committed record. |
| `Txns.Txn.PutSchedule` | src/txn.rs:143-145 | A written schedule replaces exactly its own entry of the view, also after a deletion in the same request. |
| `Txns.Txn.DeleteSchedule` | src/txn.rs:147-149 | A deletion removes exactly that schedule from the view. |
| `Txns.Txn.JobExists` | src/txn.rs:319-321 | Whether the job exists in any state. |

## Left out

- JSON: requests, replies and records are datatypes, so parsing, envelopes, message texts and the stored encoding are not modelled; a fence's unparsed action data is one case of its body.
- The queue: its storage, flush latency, backoff and attempt counts are replaced by the small queue of `Queues`; attempts are unbounded there, as the store configures them.
- Storage errors: they appear as faults before the commit or between the steps after it; a commit is atomic.
- Networking: workers, subscribers, start and stop, generated process ids and the opening of stores are reduced to the claim, delivery, timer and restart steps.
- Cron and URL parsing: `Env` has their results.
- Clock range: the clock, deadlines and versions are unbounded integers; the saturating additions of a dispatch time and of a schedule's timeout and the range of a parsed delay are modelled at 64 bits.
- Tag names: a tag the protocol gives a meaning is a constructor of `TagKey` and any other name is `Other`.
- SHA-256: the digest of a long address is a parameter, so that two long addresses have distinct hashed names is not claimed.
- Faults in the class layer: `Server` and `Machine` carry out requests, deliveries and firings that run to their end; a process that stops on the way is a step of `Worlds`, as it has no counterpart in the code.
- Job ids: an enqueued unblock or timer draws its id when it is buffered, not at the commit; ids are fresh either way.
- Aliasing: promise and task records read by a handler are private copies in the source, so they are values here; only the store and the transaction are objects.
- Txns.Txn.Finish: an error of the queue other than a lost claim, which ends the loop early, appears only as a fault of `Worlds`.
- Task requests and schedule firings between the requests of `Invisible.TimersAreInvisible`: their effects depend on claims and on when a schedule fires, so only promise create, get, settle and the two registrations are covered.
- Liveness: that a waiting job is ever claimed, or a deadline ever fires, is not claimed; outstanding jobs state it as safety.
- The tests and the trace recorder of the repository.
