/** What a holder can rely on: a delivery announces the version that its task can be
    acquired at, an acquired task is held by a lease of its `ttl`, and until that
    lease ends the holder's requests are not refused for it. */
module Leases {
  import opened Records
  import opened Reference
  import opened Queues
  import opened Transaction
  import opened Text
  import opened Kernel
  import opened Invariant
  import opened Steps
  import opened Operations
  import opened Handlers
  import opened Worlds
  import opened Commits
  import opened Runs
  import opened Theorems
  import opened Closings
  import opened Endings
  import opened Answers

  /** The claim of task `id` is held, by a lease that ends at `until`. */
  predicate HeldUntil(w: World, id: Id, until: int) {
    && id in w.held && w.held[id].job in w.queue.leases
    && w.queue.leases[w.held[id].job] == Lease(w.held[id].token, until)
  }

  /** The claim of task `id` is held, by a lease that has not ended. */
  predicate LiveClaim(held: map<Id, Claim>, leases: map<JobId, Lease>, now: int, id: Id) {
    && id in held && held[id].job in leases
    && leases[held[id].job].token == held[id].token && now < leases[held[id].job].expiry
  }

  predicate HasLease(w: World, id: Id) {
    LiveClaim(w.held, w.queue.leases, w.now, id)
  }

  // --------------------------------------------------------------------- the acquire

  /** Task `id` waits at `version` for its holder to acquire it. */
  predicate CanAcquire(w: World, id: Id, version: int) {
    && id in w.db.tasks && w.db.tasks[id].state.Pending? && w.db.tasks[id].version == version
    && DeadlineAhead(w, id) && HasLease(w, id)
  }

  function LeaseEnd(now: int, ttl: int): int {
    if ttl > 0 then now + ttl else now
  }

  /** The task that an acquire of `t` leaves. */
  function Taken(t: Task, pid: string, ttl: int): Task {
    Task(t.id, TaskState.Acquired, t.version + 1, t.target, t.job, Some(pid), Some(ttl), {})
  }

  /** What an accepted acquire leaves and replies. */
  ghost predicate Acquires(env: Env, w: World, w': World, reply: Reply, id: Id, pid: string, ttl: int)
    requires id in w.db.tasks && id in w.db.promises && id in w.held
  {
    var t, r := Taken(w.db.tasks[id], pid, ttl), w.db.promises[id].record;
    && w' == w.(db := w.db.(tasks := w.db.tasks[id := t]), queue := w.queue.(leases := w'.queue.leases))
    && w'.queue.leases - {w.held[id].job} == w.queue.leases - {w.held[id].job}
    && HeldUntil(w', id, LeaseEnd(w.now, ttl))
    && reply == Ok(200, ViewBody(TaskRecord(id, TaskState.Acquired, t.version, 0, Some(ttl), Some(pid)), r, Preload(env, w.db, r)))
  }

  /** An acquire is accepted exactly for a pending task at its version whose deadline
      is ahead and whose claim is held by a lease that has not ended. It renews the
      lease for `ttl` from now on and changes nothing else but the task. */
  lemma AcquireAnswer(env: Env, w: World, id: Id, version: int, pid: string, ttl: int)
    requires WorldInv(env, w)
    ensures var req := TaskAcquire(id, version, pid, ttl);
            if CanAcquire(w, id, version) then
              id in w.db.promises && Acquires(env, w, Asked(env, w, req), Answer(env, w, req), id, pid, ttl)
            else Answer(env, w, req) == Err(if id in w.db.tasks then 409 else 404)
  {
    var tx, req := Begin(w), TaskAcquire(id, version, pid, ttl);
    if id in w.db.tasks && !w.db.tasks[id].state.Fulfilled? && DeadlineAhead(w, id) {
      OpenDeadline(env, w, id);
      AcquireNow(env, w, id, version, pid, ttl);
    } else {
      if id in w.db.tasks {
        OpenOrClosed(env, w, id);
      }
      AcquireLate(env, w, id, version, pid, ttl);
    }
  }

  lemma AcquireLate(env: Env, w: World, id: Id, version: int, pid: string, ttl: int)
    requires WorldInv(env, w)
    requires id in w.db.tasks ==> id in w.db.promises && (w.db.tasks[id].state.Fulfilled? || w.db.promises[id].Due(w.now))
    ensures Answer(env, w, TaskAcquire(id, version, pid, ttl)) == Err(if id in w.db.tasks then 409 else 404)
  {
    hide TxInv, InflightOk, AckingOk, TryTimeout, AcquireAndView, Answer;
    var tx := Begin(w);
    if id in w.db.tasks {
      ClosedIsFulfilled(env, tx, [id], id);
    } else {
      NoTaskAfter(env, tx, [id], id);
    }
    CommittedAnswer(env, w, TaskAcquire(id, version, pid, ttl));
  }

  /** The handler's part of an acquire whose deadline is ahead. */
  lemma AcquireShape(env: Env, w: World, id: Id, version: int, pid: string, ttl: int)
    requires id in w.db.tasks && w.db.tasks[id].id == id && id in w.db.promises && DeadlineAhead(w, id)
    requires TryTimeout(Begin(w), [id]) == Begin(w)
    ensures var out := HandleTaskAcquire(env, Begin(w), id, version, pid, ttl);
            && out.mode.Commit? && out.tx.after == []
            && if CanAcquire(w, id, version) then
                 var until := LeaseEnd(w.now, ttl);
                 var lease := Lease(w.held[id].token, until);
                 var r := w.db.promises[id].record;
                 var t := Taken(w.db.tasks[id], pid, ttl);
                 && out.tx == Begin(w).(db := w.db.(tasks := w.db.tasks[id := t]),
                                        queue := w.queue.(leases := w.queue.leases[w.held[id].job := lease]))
                 && out.reply == Ok(200, ViewBody(t.Record(), r, Preload(env, out.tx.db, r)))
               else out.reply == Err(409)
  {
    hide TryTimeout, Preload;
  }

  lemma PreloadOfRecords(env: Env, db: Db, db': Db, r: PromiseRecord)
    requires db'.promises == db.promises && db'.index == db.index
    ensures Preload(env, db', r) == Preload(env, db, r)
  {
  }

  lemma AcquireNow(env: Env, w: World, id: Id, version: int, pid: string, ttl: int)
    requires id in w.db.tasks && w.db.tasks[id].id == id && id in w.db.promises && !w.db.promises[id].Due(w.now)
    requires DeadlineAhead(w, id)
    ensures var req := TaskAcquire(id, version, pid, ttl);
            if CanAcquire(w, id, version) then Acquires(env, w, Asked(env, w, req), Answer(env, w, req), id, pid, ttl)
            else Answer(env, w, req) == Err(409)
  {
    hide Preload, Asked, Answer, HandleTaskAcquire, TryTimeout;
    NothingDue(Begin(w), [id]);
    AcquireShape(env, w, id, version, pid, ttl);
    PlainCommit(env, w, TaskAcquire(id, version, pid, ttl));
    if CanAcquire(w, id, version) {
      PreloadOfRecords(env, w.db, Asked(env, w, TaskAcquire(id, version, pid, ttl)).db, w.db.promises[id].record);
    }
  }

  // ------------------------------------------------------------------------ claims

  /** A waiting job that is claimed has a current claim, by a lease of the time asked. */
  lemma TakenIsCurrent(env: Env, w: World, job: JobId, lease: int)
    requires Enabled(w, TakeClaim(job, lease))
    ensures var w' := Next(env, w, TakeClaim(job, lease));
            exists claim :: claim in w'.inflight && claim.job == job && claim.payload == w.queue.jobs[job].payload
                            && job in w'.queue.leases && w'.queue.leases[job] == Lease(claim.token, w.now + lease)
  {
    hide Served, Delivered, Fired;
    assert w.queue.ClaimOf(job) in Next(env, w, TakeClaim(job, lease)).inflight;
  }

  /** A job whose current claim is given back, whose lease is reaped at its end, or whose
      process restarts waits again, and can be claimed. */
  lemma JobWaitsAgain(env: Env, w: World, step: Step, job: JobId)
    requires WorldInv(env, w) && Enabled(w, step) && job in w.queue.leases
    requires (step.GiveBack? && step.claim.job == job && w.queue.Current(step.claim)) || step == Reap(job) || step.Restart?
    ensures Next(env, w, step).queue.Claimable(job)
  {
    hide WorldInv, Served, Delivered, Fired;
    LeasesAreOfJobs(env, w);
  }

  // -------------------------------------------------------------------- deliveries

  /** Whether task `id` is to run: pending or acquired, with its deadline ahead. */
  predicate CanRun(w: World, id: Id) {
    id in w.db.tasks && NeedsJob(w.db.tasks[id]) && DeadlineAhead(w, id)
  }

  /** What the delivery of a task that is to run leaves, and its message. */
  ghost predicate Delivers(w: World, w': World, reply: Reply, claim: Claim, id: Id)
    requires id in w.db.tasks
  {
    var t := w.db.tasks[id];
    var returned := Task(t.id, TaskState.Pending, t.version, t.target, t.job, None, None, t.resumes);
    && reply == Ok(200, ExecuteMessage(id, t.version))
    && w' == w.(db := w.db.(tasks := w.db.tasks[id := if t.state.Acquired? then returned else t]),
                held := w.held[id := claim], inflight := w.inflight - {claim})
  }

  /** The delivery of an execute job sends the stored version of a task that is to run,
      returns the task to pending at that version and holds the claim for it; the
      delivery of any other sends nothing and leaves no task pending. */
  lemma DeliveryAnswer(env: Env, w: World, claim: Claim, id: Id)
    requires WorldInv(env, w) && claim in w.inflight && claim.payload == Execute(id)
    ensures var w', reply := Next(env, w, DeliverClaim(claim, NoFault)), Delivered(w, claim, NoFault).reply;
            if CanRun(w, id) then Delivers(w, w', reply, claim, id)
            else reply == Ok(200, NoBody) && (id in w'.db.tasks ==> !NeedsJob(w'.db.tasks[id]))
  {
    hide WorldInv, Next, Delivered, Delivers, TryTimeout;
    if CanRun(w, id) {
      OpenDeadline(env, w, id);
      NothingDue(Begin(w), [id]);
      DeliverNow(env, w, claim, id);
    } else {
      if id in w.db.tasks {
        OpenOrClosed(env, w, id);
      }
      NothingToRun(env, w, id);
      DeliverLate(env, w, claim, id);
    }
  }

  lemma DeliverNow(env: Env, w: World, claim: Claim, id: Id)
    requires TryTimeout(Begin(w), [id]) == Begin(w) && claim.payload == Execute(id)
    requires id in w.db.tasks && w.db.tasks[id].id == id && NeedsJob(w.db.tasks[id])
    ensures Delivers(w, Next(env, w, DeliverClaim(claim, NoFault)), Delivered(w, claim, NoFault).reply, claim, id)
  {
    hide TryTimeout;
    var tx := Begin(w);
    var tx1 := if w.db.tasks[id].state.Acquired? then PutTask(tx, w.db.tasks[id].Transition(TaskState.Pending)) else tx;
    assert Deliver(tx, claim) == Kernel.Done(Then(tx1, Hold(id, claim)), Ok(200, ExecuteMessage(id, w.db.tasks[id].version)));
    assert w.queue.jobs + map[] == w.queue.jobs;
    HoldLast(tx1, id, claim);
    hide Deliver, Finish, Committed;
    assert w.db.tasks[id := w.db.tasks[id]] == w.db.tasks;
  }

  lemma HoldLast(tx: Tx, id: Id, claim: Claim)
    requires tx.after == [] && tx.staged == map[]
    ensures Finish(Committed(Then(tx, Hold(id, claim))), 1) == tx.(held := tx.held[id := claim])
  {
    var tx1 := Committed(Then(tx, Hold(id, claim)));
    assert tx1.after == [Hold(id, claim)] && tx1.after[1..] == [];
    assert tx1 == tx.(after := [Hold(id, claim)]) by { assert tx.queue.jobs + map[] == tx.queue.jobs; }
    assert Finish(tx1, 1) == Finish(RunAfter(tx1, tx1.after[0]).(after := []), 0);
  }

  lemma NothingToRun(env: Env, w: World, id: Id)
    requires WorldInv(env, w) && !CanRun(w, id)
    requires id in w.db.tasks ==>
               id in w.db.promises
               && (w.db.tasks[id].state.Fulfilled? || DeadlineAhead(w, id) || w.db.promises[id].Due(w.now))
    ensures var tx1 := TryTimeout(Begin(w), [id]); id in tx1.db.tasks ==> !NeedsJob(tx1.db.tasks[id])
  {
    hide TxInv, InflightOk, AckingOk, TryTimeout;
    var tx := Begin(w);
    if id !in w.db.tasks {
      NoTaskAfter(env, tx, [id], id);
    } else if w.db.tasks[id].state.Fulfilled? || w.db.promises[id].Due(w.now) {
      ClosedIsFulfilled(env, tx, [id], id);
    } else {
      NothingDue(tx, [id]);
    }
  }

  lemma DeliverLate(env: Env, w: World, claim: Claim, id: Id)
    requires claim.payload == Execute(id)
    requires var tx1 := TryTimeout(Begin(w), [id]); id in tx1.db.tasks ==> !NeedsJob(tx1.db.tasks[id])
    ensures Delivered(w, claim, NoFault).reply == Ok(200, NoBody)
    ensures var w' := Next(env, w, DeliverClaim(claim, NoFault)); id in w'.db.tasks ==> !NeedsJob(w'.db.tasks[id])
  {
    hide TryTimeout, Finish;
    CommitsWhole(Begin(w), Deliver(Begin(w), claim));
    hide Committed;
  }

  /** The version a delivery announces is one the task can be acquired at, and no other
      is, until the lease of its claim or the deadline of its promise ends. */
  lemma DeliveredCanAcquire(env: Env, w: World, claim: Claim, id: Id, n: int, version: int, pid: string, ttl: int)
    requires env.Ok() && WorldInv(env, w) && claim in w.inflight && claim.payload == Execute(id)
    requires Delivered(w, claim, NoFault).reply != Ok(200, NoBody)
    requires claim.job in w.queue.leases && w.queue.leases[claim.job].token == claim.token
    requires w.now <= n < w.queue.leases[claim.job].expiry && id in w.db.promises && n < w.db.promises[id].record.timeoutAt
    ensures var later := Next(env, Next(env, w, DeliverClaim(claim, NoFault)), Tick(n));
            Answer(env, later, TaskAcquire(id, version, pid, ttl)).Ok? <==>
              Delivered(w, claim, NoFault).reply == Ok(200, ExecuteMessage(id, version))
  {
    hide WorldInv, Moves, Answer, Delivered;
    DeliveryAnswer(env, w, claim, id);
    var w' := Next(env, w, DeliverClaim(claim, NoFault));
    StepInv(env, w, DeliverClaim(claim, NoFault));
    StepInv(env, w', Tick(n));
    AcquireAnswer(env, Next(env, w', Tick(n)), id, version, pid, ttl);
  }

  /** An unblock is delivered with the record of its job, which ends. */
  lemma UnblockAnswer(env: Env, w: World, claim: Claim, r: PromiseRecord)
    requires WorldInv(env, w) && claim in w.inflight && claim.payload == Unblock(r)
    ensures var w', reply := Next(env, w, DeliverClaim(claim, NoFault)), Delivered(w, claim, NoFault).reply;
            && reply == Ok(200, UnblockMessage(r)) && w'.db == w.db
            && (claim.job in w.queue.jobs ==> w.queue.jobs[claim.job].payload == Unblock(r))
            && w'.queue.jobs == (if w.queue.Current(claim) then w.queue.jobs - {claim.job} else w.queue.jobs)
  {
    hide TxInv, AckingOk;
    InflightClaim(w, claim);
    hide InflightOk;
    var tx := Begin(w);
    var tx1 := Committed(Then(tx, AckClaim(claim)));
    assert tx1.after == [AckClaim(claim)] && tx1.after[1..] == [];
    assert w.queue.jobs + map[] == w.queue.jobs;
    assert Finish(tx1, 1) == Finish(RunAfter(tx1, tx1.after[0]).(after := []), 0);
  }

  // ------------------------------------------------------- the requests of a holder

  /** Task `id` is acquired at `version`, its deadline is ahead, and its claim is held
      by a lease that has not ended. */
  predicate Holding(w: World, id: Id, version: int) {
    && id in w.db.tasks && w.db.tasks[id].state.Acquired? && w.db.tasks[id].version == version
    && DeadlineAhead(w, id) && HasLease(w, id)
  }

  /** The reply and the records of a request that ends its claim with its commit. */
  lemma AckAnswer(env: Env, w: World, req: Request, id: Id)
    requires Handle(env, Begin(w), req).mode == CommitAck(id)
    requires var tx := Handle(env, Begin(w), req).tx; tx.now == w.now && tx.held == w.held && tx.queue.leases == w.queue.leases
    ensures if HasLease(w, id) then Answer(env, w, req) == Handle(env, Begin(w), req).reply
                                    && Asked(env, w, req).db == Handle(env, Begin(w), req).tx.db
                                    && Served(env, w, req, NoFault).committed
            else Answer(env, w, req) == Err(409) && Asked(env, w, req).db == w.db
  {
    hide Handle, Finish, CommittedAck;
    CommittedDb(Begin(w), Handle(env, Begin(w), req), NoFault);
  }

  /** A fulfil is accepted exactly while its task is held, and settles the promise with
      the requested state and value. */
  lemma FulfilAnswer(env: Env, w: World, id: Id, version: int, kind: ActionKind, data: SettleData)
    requires env.Ok() && WorldInv(env, w)
    ensures var req := TaskFulfill(id, version, kind, data);
            var w' := Asked(env, w, req);
            if kind.KindSettle? && data.id == id && Holding(w, id, version) then
              && id in w.db.promises && SettlesTo(w, w', Answer(env, w, req), data)
              && id in w'.db.tasks && w'.db.tasks[id].state.Fulfilled?
            else Answer(env, w, req).Err?
  {
    var req := TaskFulfill(id, version, kind, data);
    hide WorldInv, Answer, Asked, Moves;
    if kind.KindSettle? && data.id == id && id in w.db.tasks && w.db.tasks[id].IsAcquiredAt(version) && DeadlineAhead(w, id) {
      OpenDeadline(env, w, id);
      FulfilNow(env, w, id, version, kind, data);
      assert Answer(env, w, req).Ok? ==> id in Asked(env, w, req).db.tasks && Asked(env, w, req).db.tasks[id].state.Fulfilled? by {
        SettledIsFulfilled(env, w, req, id);
      }
    } else {
      if kind.KindSettle? && data.id == id {
        NotAcquired(env, w, [id], id, version);
      }
      FulfilLate(env, w, id, version, kind, data);
    }
  }

  lemma FulfilLate(env: Env, w: World, id: Id, version: int, kind: ActionKind, data: SettleData)
    requires var tx1 := TryTimeout(Begin(w), [id]);
             kind.KindSettle? && data.id == id ==> !(id in tx1.db.tasks && tx1.db.tasks[id].IsAcquiredAt(version))
    ensures Answer(env, w, TaskFulfill(id, version, kind, data)).Err?
  {
    hide TryTimeout, SettleIfPending;
  }

  lemma FulfilNow(env: Env, w: World, id: Id, version: int, kind: ActionKind, data: SettleData)
    requires WorldInv(env, w) && kind.KindSettle? && data.id == id
    requires id in w.db.tasks && w.db.tasks[id].IsAcquiredAt(version)
    requires id in w.db.promises && w.db.promises[id].IsPending() && !w.db.promises[id].Due(w.now)
    ensures var req := TaskFulfill(id, version, kind, data);
            if HasLease(w, id) then SettlesTo(w, Asked(env, w, req), Answer(env, w, req), data)
            else Answer(env, w, req) == Err(409)
  {
    var tx, req := Begin(w), TaskFulfill(id, version, kind, data);
    hide WorldInv, TryTimeout, SettleIfPending, PromiseReply, Answer, Asked, HandleTaskFulfill, SettlesTo;
    NothingDue(tx, [id]);
    FulfilIs(tx, id, version, kind, data);
    if Holds(tx, id) {
      AckSettles(env, w, req, data);
    } else {
      CommittedAnswer(env, w, req);
    }
  }

  lemma AckSettles(env: Env, w: World, req: Request, data: SettleData)
    requires WorldInv(env, w) && data.id in w.db.promises && w.db.promises[data.id].IsPending()
    requires var tx' := SettleIfPending(Begin(w), data);
             Handle(env, Begin(w), req) == Outcome(tx', PromiseReply(tx', data.id), CommitAck(data.id))
    ensures if HasLease(w, data.id) then SettlesTo(w, Asked(env, w, req), Answer(env, w, req), data)
            else Answer(env, w, req) == Err(409)
  {
    SettledAs(env, w, data);
    hide WorldInv, SettleIfPending, PromiseReply, Answer, Asked, Handle, Begin;
    AckAnswer(env, w, req, data.id);
  }

  lemma FulfilIs(tx: Tx, id: Id, version: int, kind: ActionKind, data: SettleData)
    requires TryTimeout(tx, [id]) == tx && kind.KindSettle? && data.id == id
    requires id in tx.db.tasks && tx.db.tasks[id].IsAcquiredAt(version) && id in tx.db.promises
    ensures HandleTaskFulfill(tx, id, version, kind, data) ==
              if Holds(tx, id) then Outcome(SettleIfPending(tx, data), PromiseReply(SettleIfPending(tx, data), id), CommitAck(id))
              else Kernel.Done(AfterHolds(tx, id), Err(409))
  {
    hide TryTimeout, SettleIfPending;
  }

  /** A lease that has not ended lasts while only the clock moves. */
  lemma LeaseLasts(env: Env, w: World, id: Id, version: int, until: int, n: int)
    requires HeldUntil(w, id, until) && w.now <= n < until
    requires id in w.db.tasks && w.db.tasks[id].IsAcquiredAt(version)
    requires id in w.db.promises && n < w.db.promises[id].record.timeoutAt
    ensures Enabled(w, Tick(n)) && Holding(Next(env, w, Tick(n)), id, version)
  {
  }

  /** Until the lease of an accepted acquire ends, while only the clock moves, a fulfil
      at the new version is accepted and so is its settlement. */
  lemma AcquiredCanFulfil(env: Env, w: World, id: Id, version: int, pid: string, ttl: int, n: int, data: SettleData)
    requires env.Ok() && WorldInv(env, w) && Answer(env, w, TaskAcquire(id, version, pid, ttl)).Ok?
    requires w.now <= n < w.now + ttl && id in w.db.promises && n < w.db.promises[id].record.timeoutAt && data.id == id
    ensures var later := Next(env, Asked(env, w, TaskAcquire(id, version, pid, ttl)), Tick(n));
            && Holding(later, id, version + 1) && id in later.db.promises
            && SettlesTo(later, Asked(env, later, TaskFulfill(id, version + 1, KindSettle, data)),
                         Answer(env, later, TaskFulfill(id, version + 1, KindSettle, data)), data)
  {
    hide WorldInv, Moves, Answer, SettlesTo;
    var req := TaskAcquire(id, version, pid, ttl);
    AcquireAnswer(env, w, id, version, pid, ttl);
    var w' := Asked(env, w, req);
    assert Enabled(w, Serve(req, NoFault));
    StepInv(env, w, Serve(req, NoFault));
    hide Asked;
    LeaseLasts(env, w', id, version + 1, LeaseEnd(w.now, ttl), n);
    StepInv(env, w', Tick(n));
    FulfilAnswer(env, Next(env, w', Tick(n)), id, version + 1, KindSettle, data);
  }

  // ----------------------------------------------------------------------- suspend

  /** The actions of a well-formed suspend of task `id`: distinct registrations on
      promises of its origin other than its own. */
  predicate Registers(id: Id, actions: seq<SuspendAction>) {
    actions != [] && AwaitsOthers(id, actions) && AwaitsDiffer(actions)
  }

  /** No two actions await the same promise. */
  predicate AwaitsDiffer(actions: seq<SuspendAction>) {
    forall j, k | 0 <= j < k < |actions| :: actions[j].awaited != actions[k].awaited
  }

  /** Each action is a registration of task `id` on another promise of its origin. */
  predicate AwaitsOthers(id: Id, actions: seq<SuspendAction>) {
    forall k | 0 <= k < |actions| :: AwaitsOther(id, actions[k])
  }

  predicate AwaitsOther(id: Id, action: SuspendAction) {
    && action.kind.KindRegister? && action.awaiter == id && id != ""
    && action.awaited != "" && action.awaited != id && OriginOf(action.awaited) == OriginOf(id)
  }

  lemma ValidRegistrations(id: Id, actions: seq<SuspendAction>)
    ensures ValidActions(id, actions) <==> Registers(id, actions)
  {
    hide OriginOf;
    if ValidActions(id, actions) {
      forall k | 0 <= k < |actions| ensures AwaitsOther(id, actions[k]) {
        assert ValidCallback(actions[k].awaited, id);
      }
      assert AwaitsDiffer(actions);
    }
    if Registers(id, actions) {
      forall k | 0 <= k < |actions|
        ensures actions[k].kind.KindRegister? && actions[k].awaiter == id && ValidCallback(actions[k].awaited, id)
      {
        assert AwaitsOther(id, actions[k]);
      }
      hide AwaitsOther;
      assert AwaitsDiffer(actions);
    }
  }

  lemma {:induction false} CallbacksKeepClaims(tx: Tx, awaited: seq<Id>, awaiter: Id)
    requires forall a :: a in awaited ==> a in tx.db.promises
    ensures var tx' := AddCallbacks(tx, awaited, awaiter);
            tx'.now == tx.now && tx'.held == tx.held && tx'.queue == tx.queue
    decreases |awaited|
  {
    if awaited != [] {
      CallbacksKeepClaims(AddCallback(tx, awaited[0], awaiter), awaited[1..], awaiter);
    }
  }

  /** A suspend is refused, told to run on, or suspends: by the promises it names. */
  ghost predicate SuspendsBy(env: Env, tx1: Tx, out: Outcome, id: Id, actions: seq<SuspendAction>)
    requires id in tx1.db.tasks && id in tx1.db.promises
  {
    if exists k :: 0 <= k < |actions| && !Awaitable(tx1, actions[k].awaited) then out == Kernel.Done(tx1, Err(422))
    else if exists k :: 0 <= k < |actions| && !tx1.db.promises[actions[k].awaited].IsPending() then
      && out.mode.Commit?
      && out.tx.db == tx1.db.(tasks := tx1.db.tasks[id := tx1.db.tasks[id].(resumes := {})])
      && out.reply == Ok(300, PreloadBody(Preload(env, out.tx.db, tx1.db.promises[id].record)))
    else
      && out.mode == CommitAck(id) && out.reply == Ok(200, NoBody)
      && out.tx.now == tx1.now && out.tx.held == tx1.held && out.tx.queue == tx1.queue
  }

  lemma AwaitedAre(actions: seq<SuspendAction>, a: Id)
    ensures a in AwaitedIds(actions) <==> exists k :: 0 <= k < |actions| && actions[k].awaited == a
  {
    forall k | 0 <= k < |actions| ensures actions[k].awaited in AwaitedIds(actions) {
      AwaitedAt(actions, k);
    }
  }

  /** The handler's part of a suspend of a held task. */
  lemma SuspendIs(env: Env, tx: Tx, id: Id, version: int, actions: seq<SuspendAction>)
    requires ValidActions(id, actions)
    requires var tx1 := TryTimeout(tx, [id] + AwaitedIds(actions));
             id in tx1.db.tasks && tx1.db.tasks[id].IsAcquiredAt(version) && Holds(tx1, id) && id in tx1.db.promises
             && tx1.db.tasks[id].id == id
    ensures SuspendsBy(env, TryTimeout(tx, [id] + AwaitedIds(actions)), HandleTaskSuspend(env, tx, id, version, actions), id, actions)
  {
    var tx1, awaited := TryTimeout(tx, [id] + AwaitedIds(actions)), AwaitedIds(actions);
    hide TryTimeout, AwaitedIds, AddCallbacks, ValidActions, Preload, AfterHolds, Awaitable;
    forall a ensures a in awaited <==> exists k :: 0 <= k < |actions| && actions[k].awaited == a {
      AwaitedAre(actions, a);
    }
    if forall a :: a in awaited ==> Awaitable(tx1, a) {
      assert forall a :: a in awaited ==> a in tx1.db.promises by {
        forall a | a in awaited ensures a in tx1.db.promises {
          AwaitableExists(tx1, a);
        }
      }
      CallbacksKeepClaims(tx1, awaited, id);
    }
  }

  lemma AwaitableExists(tx: Tx, a: Id)
    requires Awaitable(tx, a)
    ensures a in tx.db.promises
  {
  }

  lemma SuspendRefused(env: Env, w: World, id: Id, version: int, actions: seq<SuspendAction>)
    requires !ValidActions(id, actions)
    ensures Answer(env, w, TaskSuspend(id, version, actions)) == Err(400)
  {
    hide ValidActions;
  }

  /** The reply to a suspend of a held task depends on what it awaits alone: refused if
      one cannot be awaited, told to run on if one has settled or is past its deadline,
      and suspended if all are ahead. */
  lemma SuspendAnswer(env: Env, w: World, id: Id, version: int, actions: seq<SuspendAction>)
    requires env.Ok() && WorldInv(env, w) && Holding(w, id, version)
    ensures var req := TaskSuspend(id, version, actions);
            var w', reply := Asked(env, w, req), Answer(env, w, req);
            if !Registers(id, actions) then reply == Err(400)
            else if exists k :: 0 <= k < |actions| && !IsAwaitable(w, actions[k].awaited) then reply == Err(422)
            else if exists k :: 0 <= k < |actions| && !IsAhead(w, actions[k].awaited) then
              && id in w.db.promises && reply == Ok(300, PreloadBody(Preload(env, w'.db, w.db.promises[id].record)))
              && id in w'.db.tasks && w'.db.tasks[id] == w.db.tasks[id].(resumes := {})
            else
              && reply == Ok(200, NoBody) && IsSuspended(w', id)
              && (forall k :: 0 <= k < |actions| ==> Awaits(w', id, actions[k].awaited))
  {
    var tx, req, ids := Begin(w), TaskSuspend(id, version, actions), [id] + AwaitedIds(actions);
    var tx1 := TryTimeout(tx, ids);
    ValidRegistrations(id, actions);
    hide WorldInv, TryTimeout, Answer, Asked, HandleTaskSuspend, ValidActions, Registers, Preload, AwaitedIds, SuspendsBy;
    if !Registers(id, actions) {
      SuspendRefused(env, w, id, version, actions);
    } else {
      OpenDeadline(env, w, id);
      AfterDeadlines(env, w, ids);
      assert id in ids;
      SuspendIs(env, tx, id, version, actions);
      forall k | 0 <= k < |actions|
        ensures Awaitable(tx1, actions[k].awaited) <==> IsAwaitable(w, actions[k].awaited)
        ensures actions[k].awaited in tx1.db.promises ==>
                  (tx1.db.promises[actions[k].awaited].IsPending() <==> IsAhead(w, actions[k].awaited))
      {
        AwaitedAt(actions, k);
        assert actions[k].awaited in ids;
      }
      SuspendHeld(env, w, id, version, actions);
    }
  }

  lemma SuspendHeld(env: Env, w: World, id: Id, version: int, actions: seq<SuspendAction>)
    requires WorldInv(env, w) && Holding(w, id, version) && id in w.db.promises
    requires var tx1 := TryTimeout(Begin(w), [id] + AwaitedIds(actions));
             && tx1.now == w.now && tx1.held == w.held && tx1.queue.leases == w.queue.leases
             && id in tx1.db.tasks && id in tx1.db.promises && tx1.db.promises[id] == w.db.promises[id]
             && tx1.db.tasks[id] == w.db.tasks[id].(resumes := tx1.db.tasks[id].resumes)
             && SuspendsBy(env, tx1, HandleTaskSuspend(env, Begin(w), id, version, actions), id, actions)
             && (forall k :: 0 <= k < |actions| ==>
                   && (Awaitable(tx1, actions[k].awaited) <==> IsAwaitable(w, actions[k].awaited))
                   && (actions[k].awaited in tx1.db.promises ==>
                         (tx1.db.promises[actions[k].awaited].IsPending() <==> IsAhead(w, actions[k].awaited))))
    ensures var req := TaskSuspend(id, version, actions);
            var w', reply := Asked(env, w, req), Answer(env, w, req);
            if exists k :: 0 <= k < |actions| && !IsAwaitable(w, actions[k].awaited) then reply == Err(422)
            else if exists k :: 0 <= k < |actions| && !IsAhead(w, actions[k].awaited) then
              && reply == Ok(300, PreloadBody(Preload(env, w'.db, w.db.promises[id].record)))
              && id in w'.db.tasks && w'.db.tasks[id] == w.db.tasks[id].(resumes := {})
            else
              && reply == Ok(200, NoBody) && IsSuspended(w', id)
              && (forall k :: 0 <= k < |actions| ==> Awaits(w', id, actions[k].awaited))
  {
    var req := TaskSuspend(id, version, actions);
    hide WorldInv, TryTimeout, Answer, HandleTaskSuspend, Preload, AwaitedIds, IsAwaitable, IsAhead;
    if HandleTaskSuspend(env, Begin(w), id, version, actions).mode.Commit? {
      CommittedAnswer(env, w, req);
    } else {
      AckAnswer(env, w, req, id);
      SuspendRegisters(env, w, id, version, actions, NoFault);
    }
    hide Asked;
  }

  // --------------------------------------------------------------------- heartbeat

  /** A heartbeat by `pid` names task `id` at the version that `pid` holds it at. */
  predicate Renews(tasks: Tasks, pid: string, beats: seq<(Id, int)>, id: Id) {
    && id in tasks && tasks[id].state.Acquired? && tasks[id].pid == Some(pid) && tasks[id].ttl.Some?
    && (id, tasks[id].version) in beats
  }

  /** No two held claims are of the same claimed job. */
  predicate DistinctClaims(held: map<Id, Claim>, leases: map<JobId, Lease>) {
    forall a, b | a in held && b in held && a != b && held[a].job in leases :: held[a].job != held[b].job
  }

  /** The leases after a heartbeat: those of the named tasks end `ttl` from now on and
      all others are as they were. */
  ghost predicate Renewed(tasks: Tasks, held: map<Id, Claim>, leases: map<JobId, Lease>, leases': map<JobId, Lease>,
                          now: int, pid: string, beats: seq<(Id, int)>) {
    && leases'.Keys == leases.Keys
    && (forall j :: j in leases ==> leases'[j].token == leases[j].token)
    && (forall j :: j in leases && leases'[j] != leases[j] ==>
          exists id :: LiveClaim(held, leases, now, id) && held[id].job == j && Renews(tasks, pid, beats, id))
    && (forall id :: LiveClaim(held, leases, now, id) && Renews(tasks, pid, beats, id) ==>
          leases'[held[id].job].expiry == LeaseEnd(now, tasks[id].ttl.value))
  }

  /** A renewed claim stays held, unless its lease ended at once. */
  ghost predicate StaysHeld(tasks: Tasks, held: map<Id, Claim>, held': map<Id, Claim>, leases: map<JobId, Lease>,
                            now: int, pid: string, beats: seq<(Id, int)>) {
    && (forall id :: id in held' ==> id in held && held'[id] == held[id])
    && (forall id :: LiveClaim(held, leases, now, id) && (Renews(tasks, pid, beats, id) ==> tasks[id].ttl.value > 0) ==> id in held')
  }

  lemma BeatRenews(tx: Tx, pid: string, beat: (Id, int))
    requires DistinctClaims(tx.held, tx.queue.leases)
    ensures var tx' := Beat(tx, pid, beat.0, beat.1);
            && tx'.db == tx.db && tx'.now == tx.now && tx'.after == tx.after && tx'.staged == tx.staged && tx'.sent == tx.sent
            && tx'.queue == tx.queue.(leases := tx'.queue.leases)
            && Renewed(tx.db.tasks, tx.held, tx.queue.leases, tx'.queue.leases, tx.now, pid, [beat])
            && StaysHeld(tx.db.tasks, tx.held, tx'.held, tx.queue.leases, tx.now, pid, [beat])
            && DistinctClaims(tx'.held, tx'.queue.leases)
  {
    var id := beat.0;
    hide Renewed, StaysHeld, DistinctClaims;
    assert CanRenew(tx, id) <==> LiveClaim(tx.held, tx.queue.leases, tx.now, id);
    if Renews(tx.db.tasks, pid, [beat], id) && CanRenew(tx, id) {
      OneRenewed(tx.db.tasks, tx.held, tx.queue.leases, tx.now, pid, beat);
    } else {
      NoneRenewed(tx.db.tasks, tx.held, Beat(tx, pid, beat.0, beat.1).held, tx.queue.leases, tx.now, pid, beat);
    }
  }

  lemma NoneRenewed(tasks: Tasks, held: map<Id, Claim>, held': map<Id, Claim>, leases: map<JobId, Lease>, now: int, pid: string, beat: (Id, int))
    requires DistinctClaims(held, leases) && !(LiveClaim(held, leases, now, beat.0) && Renews(tasks, pid, [beat], beat.0))
    requires held' == held || (held' == held - {beat.0} && !LiveClaim(held, leases, now, beat.0))
    ensures Renewed(tasks, held, leases, leases, now, pid, [beat])
    ensures StaysHeld(tasks, held, held', leases, now, pid, [beat])
    ensures DistinctClaims(held', leases)
  {
    assert forall a :: Renews(tasks, pid, [beat], a) ==> a == beat.0;
  }

  lemma OneRenewed(tasks: Tasks, held: map<Id, Claim>, leases: map<JobId, Lease>, now: int, pid: string, beat: (Id, int))
    requires DistinctClaims(held, leases) && LiveClaim(held, leases, now, beat.0) && Renews(tasks, pid, [beat], beat.0)
    ensures var leases' := leases[held[beat.0].job := Lease(held[beat.0].token, LeaseEnd(now, tasks[beat.0].ttl.value))];
            && Renewed(tasks, held, leases, leases', now, pid, [beat])
            && StaysHeld(tasks, held, held, leases, now, pid, [beat])
            && DistinctClaims(held, leases')
  {
    assert forall a :: Renews(tasks, pid, [beat], a) ==> a == beat.0;
  }

  /** One beat and then the rest. */
  lemma RenewedThen(tasks: Tasks, held: map<Id, Claim>, held1: map<Id, Claim>, leases: map<JobId, Lease>,
                    leases1: map<JobId, Lease>, leases': map<JobId, Lease>, now: int, pid: string, beats: seq<(Id, int)>)
    requires beats != [] && DistinctClaims(held, leases)
    requires Renewed(tasks, held, leases, leases1, now, pid, [beats[0]]) && StaysHeld(tasks, held, held1, leases, now, pid, [beats[0]])
    requires Renewed(tasks, held1, leases1, leases', now, pid, beats[1..])
    ensures Renewed(tasks, held, leases, leases', now, pid, beats)
  {
  }

  lemma {:induction false} BeatsRenew(tx: Tx, pid: string, beats: seq<(Id, int)>)
    requires DistinctClaims(tx.held, tx.queue.leases)
    ensures var tx' := Beats(tx, pid, beats);
            && tx'.db == tx.db && tx'.now == tx.now && tx'.after == tx.after && tx'.staged == tx.staged && tx'.sent == tx.sent
            && tx'.queue == tx.queue.(leases := tx'.queue.leases)
            && Renewed(tx.db.tasks, tx.held, tx.queue.leases, tx'.queue.leases, tx.now, pid, beats)
            && StaysHeld(tx.db.tasks, tx.held, tx'.held, tx.queue.leases, tx.now, pid, beats)
    decreases |beats|
  {
    if beats != [] {
      hide Beat, DistinctClaims, Renewed, StaysHeld;
      var tx1 := Beat(tx, pid, beats[0].0, beats[0].1);
      BeatRenews(tx, pid, beats[0]);
      BeatsRenew(tx1, pid, beats[1..]);
      var tx' := Beats(tx1, pid, beats[1..]);
      RenewedThen(tx.db.tasks, tx.held, tx1.held, tx.queue.leases, tx1.queue.leases, tx'.queue.leases, tx.now, pid, beats);
      StaysHeldThen(tx.db.tasks, tx.held, tx1.held, tx'.held, tx.queue.leases, tx1.queue.leases, tx.now, pid, beats);
    }
  }

  lemma StaysHeldThen(tasks: Tasks, held: map<Id, Claim>, held1: map<Id, Claim>, held': map<Id, Claim>,
                      leases: map<JobId, Lease>, leases1: map<JobId, Lease>, now: int, pid: string, beats: seq<(Id, int)>)
    requires beats != [] && DistinctClaims(held, leases)
    requires Renewed(tasks, held, leases, leases1, now, pid, [beats[0]]) && StaysHeld(tasks, held, held1, leases, now, pid, [beats[0]])
    requires StaysHeld(tasks, held1, held', leases1, now, pid, beats[1..])
    ensures StaysHeld(tasks, held, held', leases, now, pid, beats)
  {
  }

  lemma ClaimsAreDistinct(env: Env, w: World)
    requires WorldInv(env, w)
    ensures DistinctClaims(w.held, w.queue.leases)
  {
    hide DbInv, InflightOk, AckingOk, AllJobs;
    NothingStaged(Begin(w));
  }

  lemma HeartbeatBeats(env: Env, w: World, pid: string, beats: seq<(Id, int)>)
    requires DistinctClaims(w.held, w.queue.leases)
    ensures var w' := Asked(env, w, TaskHeartbeat(pid, beats));
            && Answer(env, w, TaskHeartbeat(pid, beats)) == Ok(200, NoBody)
            && w' == w.(held := w'.held, queue := w.queue.(leases := w'.queue.leases))
            && Renewed(w.db.tasks, w.held, w.queue.leases, w'.queue.leases, w.now, pid, beats)
            && StaysHeld(w.db.tasks, w.held, w'.held, w.queue.leases, w.now, pid, beats)
  {
    hide Beats, Answer, Asked, Renewed, StaysHeld, DistinctClaims;
    BeatsRenew(Begin(w), pid, beats);
    assert w.queue.jobs + map[] == w.queue.jobs;
    PlainCommit(env, w, TaskHeartbeat(pid, beats));
  }

  /** A heartbeat moves the ends of the leases of exactly the tasks that its process
      holds at the versions it names, each to the task's `ttl` from now on. */
  lemma HeartbeatAnswer(env: Env, w: World, pid: string, beats: seq<(Id, int)>)
    requires WorldInv(env, w)
    ensures var w' := Asked(env, w, TaskHeartbeat(pid, beats));
            && Answer(env, w, TaskHeartbeat(pid, beats)) == Ok(200, NoBody)
            && w' == w.(held := w'.held, queue := w.queue.(leases := w'.queue.leases))
            && (forall id :: HasLease(w, id) && Renews(w.db.tasks, pid, beats, id) && w.db.tasks[id].ttl.value > 0 ==>
                  HeldUntil(w', id, w.now + w.db.tasks[id].ttl.value))
            && (forall id :: HasLease(w, id) && !Renews(w.db.tasks, pid, beats, id) ==>
                  HeldUntil(w', id, w.queue.leases[w.held[id].job].expiry))
            && (forall j :: j in w.queue.leases && !(j in w'.queue.leases && w'.queue.leases[j] == w.queue.leases[j]) ==>
                  exists id :: HasLease(w, id) && w.held[id].job == j && Renews(w.db.tasks, pid, beats, id))
  {
    hide WorldInv, Answer, Asked, Renewed, StaysHeld, DistinctClaims;
    ClaimsAreDistinct(env, w);
    HeartbeatBeats(env, w, pid, beats);
    var req := TaskHeartbeat(pid, beats);
    var w' := Asked(env, w, req);
    forall id | HasLease(w, id) && (Renews(w.db.tasks, pid, beats, id) ==> w.db.tasks[id].ttl.value > 0)
      ensures HeldUntil(w', id, if Renews(w.db.tasks, pid, beats, id) then w.now + w.db.tasks[id].ttl.value
                                else w.queue.leases[w.held[id].job].expiry)
    {
      HeldAfter(w.db.tasks, w.held, w'.held, w.queue.leases, w'.queue.leases, w.now, pid, beats, id);
    }
    forall j | j in w.queue.leases && !(j in w'.queue.leases && w'.queue.leases[j] == w.queue.leases[j])
      ensures exists id :: HasLease(w, id) && w.held[id].job == j && Renews(w.db.tasks, pid, beats, id)
    {
      RenewedFor(w.db.tasks, w.held, w.queue.leases, w'.queue.leases, w.now, pid, beats, j);
      var id :| LiveClaim(w.held, w.queue.leases, w.now, id) && w.held[id].job == j && Renews(w.db.tasks, pid, beats, id);
      assert HasLease(w, id);
    }
  }

  lemma RenewedFor(tasks: Tasks, held: map<Id, Claim>, leases: map<JobId, Lease>, leases': map<JobId, Lease>,
                   now: int, pid: string, beats: seq<(Id, int)>, j: JobId)
    requires Renewed(tasks, held, leases, leases', now, pid, beats) && j in leases
    requires !(j in leases' && leases'[j] == leases[j])
    ensures exists id :: LiveClaim(held, leases, now, id) && held[id].job == j && Renews(tasks, pid, beats, id)
  {
    hide Renews;
  }

  lemma HeldAfter(tasks: Tasks, held: map<Id, Claim>, held': map<Id, Claim>, leases: map<JobId, Lease>,
                  leases': map<JobId, Lease>, now: int, pid: string, beats: seq<(Id, int)>, id: Id)
    requires DistinctClaims(held, leases) && LiveClaim(held, leases, now, id)
    requires Renewed(tasks, held, leases, leases', now, pid, beats) && StaysHeld(tasks, held, held', leases, now, pid, beats)
    requires Renews(tasks, pid, beats, id) ==> tasks[id].ttl.value > 0
    ensures id in held' && held'[id] == held[id] && held[id].job in leases'
    ensures leases'[held[id].job] ==
              if Renews(tasks, pid, beats, id) then Lease(held[id].token, now + tasks[id].ttl.value) else leases[held[id].job]
  {
  }

  // ------------------------------------------------------------------------ release

  /** A release is accepted exactly for a task that is acquired at the version, its
      deadline ahead. It returns the task to pending at that version, and its job to
      waiting: with its claim current, the job can be claimed again. */
  lemma ReleaseAnswer(env: Env, w: World, id: Id, version: int)
    requires WorldInv(env, w)
    ensures var req := TaskRelease(id, version);
            var w' := Asked(env, w, req);
            if id in w.db.tasks && w.db.tasks[id].IsAcquiredAt(version) && DeadlineAhead(w, id) then
              var t := w.db.tasks[id];
              && Answer(env, w, req) == Ok(200, NoBody)
              && w'.db == w.db.(tasks := w.db.tasks[id := Task(id, TaskState.Pending, version, t.target, t.job, None, None, t.resumes)])
              && w'.held == w.held - {id} && w'.queue.jobs == w.queue.jobs
              && (HasLease(w, id) ==> w'.queue.leases == w.queue.leases - {w.held[id].job} && w'.queue.Claimable(w.held[id].job))
            else Answer(env, w, req).Err?
  {
    hide WorldInv, TryTimeout, Answer, Asked, HasLease;
    var tx := Begin(w);
    if id in w.db.tasks && w.db.tasks[id].IsAcquiredAt(version) && DeadlineAhead(w, id) {
      OpenDeadline(env, w, id);
      NothingDue(tx, [id]);
      LeasesAreOfJobs(env, w);
      ReleaseNow(env, w, id, version);
    } else {
      NotAcquired(env, w, [id], id, version);
      ReleaseLate(env, w, id, version);
    }
  }

  lemma ReleaseLate(env: Env, w: World, id: Id, version: int)
    requires var tx1 := TryTimeout(Begin(w), [id]); !(id in tx1.db.tasks && tx1.db.tasks[id].IsAcquiredAt(version))
    ensures Answer(env, w, TaskRelease(id, version)).Err?
  {
    hide TryTimeout;
  }

  lemma ReleaseNow(env: Env, w: World, id: Id, version: int)
    requires TryTimeout(Begin(w), [id]) == Begin(w) && w.queue.leases.Keys <= w.queue.jobs.Keys
    requires id in w.db.tasks && w.db.tasks[id].IsAcquiredAt(version) && w.db.tasks[id].id == id
    ensures var req := TaskRelease(id, version);
            var w', t := Asked(env, w, req), w.db.tasks[id];
            && Answer(env, w, req) == Ok(200, NoBody)
            && w'.db == w.db.(tasks := w.db.tasks[id := Task(id, TaskState.Pending, version, t.target, t.job, None, None, t.resumes)])
            && w'.held == w.held - {id} && w'.queue.jobs == w.queue.jobs
            && (HasLease(w, id) ==> w'.queue.leases == w.queue.leases - {w.held[id].job} && w'.queue.Claimable(w.held[id].job))
  {
    hide TryTimeout, Answer, Asked, HandleTaskRelease;
    ReleaseIs(Begin(w), id, version);
    NackLast(Begin(w).(db := HandleTaskRelease(Begin(w), id, version).tx.db), id);
    hide Finish, Committed;
    CommitIs(env, w, TaskRelease(id, version));
  }

  lemma ReleaseIs(tx: Tx, id: Id, version: int)
    requires TryTimeout(tx, [id]) == tx && id in tx.db.tasks && tx.db.tasks[id].IsAcquiredAt(version) && tx.db.tasks[id].id == id
    ensures var out, t := HandleTaskRelease(tx, id, version), tx.db.tasks[id];
            var returned := Task(id, TaskState.Pending, version, t.target, t.job, None, None, t.resumes);
            && out.mode.Commit? && out.reply == Ok(200, NoBody)
            && out.tx == Then(tx.(db := tx.db.(tasks := tx.db.tasks[id := returned])), NackHeld(id))
  {
    hide TryTimeout;
  }

  lemma NackLast(tx: Tx, id: Id)
    requires tx.after == [] && tx.staged == map[]
    ensures Finish(Committed(Then(tx, NackHeld(id))), 1) == RunAfter(tx, NackHeld(id))
  {
    var tx1 := Committed(Then(tx, NackHeld(id)));
    assert tx1.after == [NackHeld(id)] && tx1.after[1..] == [];
    assert tx1 == tx.(after := [NackHeld(id)]) by { assert tx.queue.jobs + map[] == tx.queue.jobs; }
    assert Finish(tx1, 1) == Finish(RunAfter(tx1, tx1.after[0]).(after := []), 0);
  }

  // ------------------------------------------------------------------- task create

  predicate ValidTaskCreate(env: Env, pid: string, ttl: int, kind: ActionKind, data: CreateData) {
    kind.KindCreate? && pid != "" && ttl >= 1 && WellFormed(env, data) && Target in data.tags && Delay !in data.tags
  }

  /** A task create that is not well-formed is refused, and so is one of a promise that
      has no task. */
  lemma TaskCreateRefused(env: Env, w: World, pid: string, ttl: int, kind: ActionKind, data: CreateData)
    requires WorldInv(env, w)
    ensures var reply := Answer(env, w, TaskCreate(pid, ttl, kind, data));
            && (!ValidTaskCreate(env, pid, ttl, kind, data) ==> reply == Err(400))
            && (ValidTaskCreate(env, pid, ttl, kind, data) && data.id in w.db.promises && data.id !in w.db.tasks ==> reply == Err(422))
  {
    var tx, req := Begin(w), TaskCreate(pid, ttl, kind, data);
    ValidationIs(env, data);
    hide WorldInv, ValidCreate, WellFormed, TryTimeout, Answer, Asked, HandleTaskCreate, Shown;
    AfterDeadlines(env, w, [data.id]);
    TaskCreateErrors(env, tx, pid, ttl, kind, data);
    if Handle(env, tx, req).reply.Err? && !Handle(env, tx, req).mode.CommitAck? {
      ErrorAnswer(env, w, req);
    }
  }

  lemma TaskCreateErrors(env: Env, tx: Tx, pid: string, ttl: int, kind: ActionKind, data: CreateData)
    ensures var out := HandleTaskCreate(env, tx, pid, ttl, kind, data);
            var tx1 := TryTimeout(tx, [data.id]);
            if !(kind.KindCreate? && pid != "" && ttl >= 1 && ValidCreate(env, data) && Target in data.tags && Delay !in data.tags) then
              out == Refuse(tx, 400)
            else data.id in tx1.db.promises && data.id !in tx1.db.tasks ==> out == Kernel.Done(tx1, Err(422))
  {
    hide ValidCreate, TryTimeout, CreatePromise, AcquireAndView, TaskView, ClaimForCreate;
  }

  /** What a task create of a new promise leaves and replies: past its deadline a
      settled promise, and otherwise an acquired task at version 1, held for `ttl`,
      whose job falls due when that lease ends. */
  ghost predicate CreatesTask(env: Env, w: World, w': World, reply: Reply, pid: string, ttl: int, data: CreateData)
    requires Target in data.tags
  {
    var r := Creation(data.id, data.timeoutAt, data.param, data.tags, w.now, w.now);
    var open := w.now < data.timeoutAt;
    var t := if open then Task(data.id, TaskState.Acquired, 1, data.tags[Target], Some(w.queue.nextJob), Some(pid), Some(ttl), {})
             else Task(data.id, TaskState.Fulfilled, 0, data.tags[Target], None, None, None, {});
    && w'.db.promises == w.db.promises[data.id := Promise(r, [], [])]
    && w'.db.tasks == w.db.tasks[data.id := t]
    && (if open then
          && HeldUntil(w', data.id, w.now + ttl)
          && HasJob(w', w.queue.nextJob, Job(Deliveries(data.tags[Target]), Execute(data.id), Max(Clamp(w.now + ttl), 0)))
          && reply == Ok(200, ViewBody(TaskRecord(t.id, TaskState.Acquired, 1, 0, Some(ttl), Some(pid)), r, Preload(env, w'.db, r)))
        else reply == Ok(200, ViewBody(TaskRecord(t.id, TaskState.Fulfilled, 0, 0, None, None), r, [])))
  }

  /** A new task is claimed by the work that follows the commit. */
  lemma ClaimedLast(tx: Tx, id: Id, job: JobId, lease: int)
    requires tx.after == [ClaimJob(id, job, lease)] && job in AllJobs(tx) && job !in tx.queue.leases
    ensures var end := Finish(Committed(tx), 1);
            && end.held == tx.held[id := Claim(job, tx.queue.nextToken, AllJobs(tx)[job].payload)]
            && end.queue.leases == tx.queue.leases[job := Lease(tx.queue.nextToken, tx.now + lease)]
            && end.queue.jobs == AllJobs(tx)
  {
    var a := Committed(tx);
    assert a.after[1..] == [];
    assert Finish(a, 1) == Finish(RunAfter(a, a.after[0]).(after := []), 0);
  }

  /** The handler's part of a task create of a new promise. */
  lemma CreateTaskIs(env: Env, tx: Tx, pid: string, ttl: int, kind: ActionKind, data: CreateData)
    requires ValidTaskCreate(env, pid, ttl, kind, data) && data.id !in tx.db.promises && data.id !in tx.db.tasks
    ensures var tx' := CreatePromise(tx, data, None, CreateAcquire(pid, ttl));
            data.id in tx'.db.tasks ==>
              HandleTaskCreate(env, tx, pid, ttl, kind, data) == Kernel.Done(tx', TaskView(env, tx', tx'.db.tasks[data.id]))
  {
    NothingDue(tx, [data.id]);
    ValidationIs(env, data);
    hide TryTimeout, CreatePromise, ValidCreate, WellFormed, TaskView;
  }

  lemma NewTaskAnswer(env: Env, w: World, pid: string, ttl: int, kind: ActionKind, data: CreateData)
    requires WorldInv(env, w) && data.id !in w.db.promises && ValidTaskCreate(env, pid, ttl, kind, data)
    ensures var req := TaskCreate(pid, ttl, kind, data);
            CreatesTask(env, w, Asked(env, w, req), Answer(env, w, req), pid, ttl, data)
  {
    var tx, req, mode := Begin(w), TaskCreate(pid, ttl, kind, data), CreateAcquire(pid, ttl);
    hide WorldInv, Answer, Asked, CreatesTask, TryTimeout, CreatePromise, WellFormed, HandleTaskCreate, TaskView, Creation, StartedTask,
      StartedDue;
    WorldAgrees(env, w, data.id);
    LeasesAreOfJobs(env, w);
    CreatePromiseIs(tx, data, mode);
    CreateTaskIs(env, tx, pid, ttl, kind, data);
    var tx' := CreatePromise(tx, data, None, mode);
    if w.now < data.timeoutAt {
      assert tx'.after == [ClaimJob(data.id, w.queue.nextJob, LeaseOf(ttl))];
      ClaimedLast(tx', data.id, w.queue.nextJob, LeaseOf(ttl));
    }
    hide Finish;
    NewTaskEnds(env, w, pid, ttl, kind, data, tx');
  }

  lemma NewTaskEnds(env: Env, w: World, pid: string, ttl: int, kind: ActionKind, data: CreateData, tx': Tx)
    requires Target in data.tags && ttl >= 1
    requires data.id in tx'.db.tasks && data.id in tx'.db.promises
    requires Handle(env, Begin(w), TaskCreate(pid, ttl, kind, data)) == Kernel.Done(tx', TaskView(env, tx', tx'.db.tasks[data.id]))
    requires var mode, n, open := CreateAcquire(pid, ttl), w.queue.nextJob, w.now < data.timeoutAt;
             var end := Finish(Committed(tx'), |tx'.after|);
             && tx'.db.promises == w.db.promises[data.id := Promise(Creation(data.id, data.timeoutAt, data.param, data.tags, w.now, w.now), [], [])]
             && tx'.db.tasks == w.db.tasks[data.id := StartedTask(data, mode, open, n)]
             && (open ==>
                   && end.held == w.held[data.id := Claim(n, w.queue.nextToken, Execute(data.id))]
                   && end.queue.leases == w.queue.leases[n := Lease(w.queue.nextToken, w.now + ttl)]
                   && n in end.queue.jobs
                   && end.queue.jobs[n] == Job(Deliveries(data.tags[Target]), Execute(data.id), StartedDue(data.tags, mode, w.now)))
    ensures var req := TaskCreate(pid, ttl, kind, data);
            CreatesTask(env, w, Asked(env, w, req), Answer(env, w, req), pid, ttl, data)
  {
    hide Finish, Committed, Preload, Asked, Answer, Handle;
    CommitIs(env, w, TaskCreate(pid, ttl, kind, data));
  }

  /** The claim of task `id` is held by a lease that has not ended, or its job waits. */
  predicate CanClaim(w: World, id: Id) {
    HasLease(w, id) || (id in w.db.tasks && w.db.tasks[id].job.Some? && w.queue.Claimable(w.db.tasks[id].job.value))
  }

  /** What a task create that acquires an existing task leaves and replies. */
  ghost predicate TakesTask(env: Env, w: World, w': World, reply: Reply, id: Id, pid: string, ttl: int)
    requires id in w.db.tasks && id in w.db.promises
  {
    var t, r := Taken(w.db.tasks[id], pid, ttl), w.db.promises[id].record;
    && w'.db == w.db.(tasks := w.db.tasks[id := t]) && w'.queue.jobs == w.queue.jobs
    && HeldUntil(w', id, w.now + ttl)
    && reply == Ok(200, ViewBody(TaskRecord(id, TaskState.Acquired, t.version, 0, Some(ttl), Some(pid)), r, Preload(env, w.db, r)))
  }

  /** A held claim of a claimed job is the claim of the task's own job. */
  lemma HeldJob(env: Env, w: World, id: Id)
    requires WorldInv(env, w) && id in w.held && w.held[id].job in w.queue.leases
    ensures id in w.db.tasks && w.db.tasks[id].job == Some(w.held[id].job)
  {
    hide Keyed, Agree, PromisesOk, CallbacksOk, ResumesOk, TimersOk, SchedulesOk, IndexOk, SentOk,
      AllJobs, InflightOk, AckingOk, TaskJobOk;
    NothingStaged(Begin(w));
  }

  /** A task create of a task that exists acquires it exactly when it is pending, its
      deadline is ahead and its claim is held or can be taken; it shows a fulfilled one
      as it is; and it is refused otherwise. */
  lemma ExistingTaskAnswer(env: Env, w: World, pid: string, ttl: int, kind: ActionKind, data: CreateData)
    requires WorldInv(env, w) && data.id in w.db.tasks && ValidTaskCreate(env, pid, ttl, kind, data)
    ensures var req := TaskCreate(pid, ttl, kind, data);
            var id, w', reply := data.id, Asked(env, w, req), Answer(env, w, req);
            if w.db.tasks[id].state.Fulfilled? || !DeadlineAhead(w, id) then
              && id in w'.db.tasks && id in w'.db.promises && w'.db.tasks[id].state.Fulfilled?
              && reply == Ok(200, ViewBody(w'.db.tasks[id].Record(), w'.db.promises[id].record, []))
            else if w.db.tasks[id].state.Pending? && CanClaim(w, id) then
              id in w.db.promises && TakesTask(env, w, w', reply, id, pid, ttl)
            else reply == Err(409)
  {
    var tx, id := Begin(w), data.id;
    hide WorldInv, Answer, Asked, TryTimeout, ValidTaskCreate, TakesTask, HasLease;
    OpenOrClosed(env, w, id);
    if w.db.tasks[id].state.Fulfilled? || !DeadlineAhead(w, id) {
      ClosedTaskShown(env, w, pid, ttl, kind, data);
    } else {
      OpenDeadline(env, w, id);
      if id in w.held && w.held[id].job in w.queue.leases {
        HeldJob(env, w, id);
      }
      LeasesAreOfJobs(env, w);
      OpenTaskTaken(env, w, pid, ttl, kind, data);
    }
  }

  lemma ClosedTaskShown(env: Env, w: World, pid: string, ttl: int, kind: ActionKind, data: CreateData)
    requires WorldInv(env, w) && data.id in w.db.tasks && data.id in w.db.promises && ValidTaskCreate(env, pid, ttl, kind, data)
    requires w.db.tasks[data.id].state.Fulfilled? || w.db.promises[data.id].Due(w.now)
    ensures var req := TaskCreate(pid, ttl, kind, data);
            var id, w', reply := data.id, Asked(env, w, req), Answer(env, w, req);
            && id in w'.db.tasks && id in w'.db.promises && w'.db.tasks[id].state.Fulfilled?
            && reply == Ok(200, ViewBody(w'.db.tasks[id].Record(), w'.db.promises[id].record, []))
  {
    var tx, req := Begin(w), TaskCreate(pid, ttl, kind, data);
    ValidationIs(env, data);
    hide TxInv, InflightOk, AckingOk, TryTimeout, Answer, Asked, ValidCreate, WellFormed, Calm, Evolves, Steady;
    ClosedIsFulfilled(env, tx, [data.id], data.id);
    TimeoutSound(env, tx, [data.id]);
    PromiseOfTask(env, TryTimeout(tx, [data.id]), data.id);
    hide Fresh;
    CommittedAnswer(env, w, req);
  }

  lemma TakeShape(env: Env, tx: Tx, pid: string, ttl: int, kind: ActionKind, data: CreateData)
    requires data.id in tx.db.tasks && data.id in tx.db.promises && ValidTaskCreate(env, pid, ttl, kind, data)
    requires TryTimeout(tx, [data.id]) == tx && tx.db.tasks[data.id].id == data.id && !tx.db.tasks[data.id].state.Fulfilled?
    ensures var out, t, tx1 := HandleTaskCreate(env, tx, pid, ttl, kind, data), tx.db.tasks[data.id], ClaimForCreate(tx, tx.db.tasks[data.id], ttl);
            if t.state.Pending? && (Holds(tx, t.id) || (t.job.Some? && tx.queue.Claimable(t.job.value))) then
              out == AcquireAndView(env, tx1, t, pid, ttl)
            else out == Kernel.Done(if t.state.Pending? then tx1 else tx, Err(409))
  {
    ValidationIs(env, data);
    hide TryTimeout, AcquireAndView, ClaimForCreate, TaskView, ValidCreate, WellFormed;
  }

  /** The handler's part of a task create of an open task. */
  lemma TakeIs(env: Env, w: World, pid: string, ttl: int, kind: ActionKind, data: CreateData)
    requires data.id in w.db.tasks && data.id in w.db.promises && ValidTaskCreate(env, pid, ttl, kind, data)
    requires TryTimeout(Begin(w), [data.id]) == Begin(w) && w.db.tasks[data.id].id == data.id
    requires !w.db.tasks[data.id].state.Fulfilled? && w.queue.leases.Keys <= w.queue.jobs.Keys
    requires data.id in w.held && w.held[data.id].job in w.queue.leases ==> w.db.tasks[data.id].job == Some(w.held[data.id].job)
    ensures var out, id := HandleTaskCreate(env, Begin(w), pid, ttl, kind, data), data.id;
            && out.mode.Commit? && out.tx.after == [] && out.tx.staged == map[] && out.tx.queue.jobs == w.queue.jobs
            && if w.db.tasks[id].state.Pending? && CanClaim(w, id) then
                 var t, r := Taken(w.db.tasks[id], pid, ttl), w.db.promises[id].record;
                 && out.tx.db == w.db.(tasks := w.db.tasks[id := t])
                 && id in out.tx.held && out.tx.held[id].job in out.tx.queue.leases
                 && out.tx.queue.leases[out.tx.held[id].job] == Lease(out.tx.held[id].token, w.now + ttl)
                 && out.reply == Ok(200, ViewBody(t.Record(), r, Preload(env, out.tx.db, r)))
               else out.reply == Err(409)
  {
    var t := w.db.tasks[data.id];
    TakeShape(env, Begin(w), pid, ttl, kind, data);
    ClaimIs(Begin(w), t, ttl);
    hide TryTimeout, Preload, ValidTaskCreate, HandleTaskCreate, ClaimForCreate, AcquireAndView, CanRenew;
    AcquireIs(env, ClaimForCreate(Begin(w), t, ttl), t, pid, ttl);
  }

  /** The claim of a task create: a held one whose lease goes on, or a new one. */
  lemma ClaimIs(tx: Tx, t: Task, ttl: int)
    requires ttl >= 1 && tx.queue.leases.Keys <= tx.queue.jobs.Keys
    requires t.id in tx.held && tx.held[t.id].job in tx.queue.leases ==> t.job == Some(tx.held[t.id].job)
    ensures var tx1 := ClaimForCreate(tx, t, ttl);
            && tx1 == tx.(held := tx1.held, queue := tx.queue.(leases := tx1.queue.leases, nextToken := tx1.queue.nextToken))
            && (CanRenew(tx1, t.id) <==>
                  LiveClaim(tx.held, tx.queue.leases, tx.now, t.id) || (t.job.Some? && tx.queue.Claimable(t.job.value)))
            && (CanRenew(tx1, t.id) ==> Holds(tx, t.id) || (t.job.Some? && tx.queue.Claimable(t.job.value)))
  {
  }

  /** What an acquire by a claim that can be renewed leaves. */
  lemma AcquireIs(env: Env, tx: Tx, t: Task, pid: string, ttl: int)
    requires t.id in tx.db.promises && ttl >= 1
    ensures var out, r := AcquireAndView(env, tx, t, pid, ttl), tx.db.promises[t.id].record;
            && out.mode.Commit? && out.tx.after == tx.after && out.tx.staged == tx.staged && out.tx.queue.jobs == tx.queue.jobs
            && if CanRenew(tx, t.id) then
                 && out.tx.db == tx.db.(tasks := tx.db.tasks[t.id := Taken(t, pid, ttl)])
                 && t.id in out.tx.held && out.tx.held[t.id].job in out.tx.queue.leases
                 && out.tx.queue.leases[out.tx.held[t.id].job] == Lease(out.tx.held[t.id].token, tx.now + ttl)
                 && out.reply == Ok(200, ViewBody(Taken(t, pid, ttl).Record(), r, Preload(env, out.tx.db, r)))
               else out.reply == Err(409)
  {
    hide Preload;
  }

  lemma OpenTaskTaken(env: Env, w: World, pid: string, ttl: int, kind: ActionKind, data: CreateData)
    requires data.id in w.db.tasks && data.id in w.db.promises && ValidTaskCreate(env, pid, ttl, kind, data)
    requires w.db.tasks[data.id].id == data.id && !w.db.tasks[data.id].state.Fulfilled? && !w.db.promises[data.id].Due(w.now)
    requires w.queue.leases.Keys <= w.queue.jobs.Keys
    requires data.id in w.held && w.held[data.id].job in w.queue.leases ==> w.db.tasks[data.id].job == Some(w.held[data.id].job)
    ensures var req := TaskCreate(pid, ttl, kind, data);
            if w.db.tasks[data.id].state.Pending? && CanClaim(w, data.id) then
              TakesTask(env, w, Asked(env, w, req), Answer(env, w, req), data.id, pid, ttl)
            else Answer(env, w, req) == Err(409)
  {
    var tx, req := Begin(w), TaskCreate(pid, ttl, kind, data);
    hide TryTimeout, Preload, Answer, Asked, ValidTaskCreate, HandleTaskCreate, CanClaim;
    NothingDue(tx, [data.id]);
    TakeIs(env, w, pid, ttl, kind, data);
    PlainCommit(env, w, req);
    var db' := HandleTaskCreate(env, tx, pid, ttl, kind, data).tx.db;
    if w.db.tasks[data.id].state.Pending? && CanClaim(w, data.id) {
      PreloadOfRecords(env, w.db, db', w.db.promises[data.id].record);
    }
    assert w.queue.jobs + map[] == w.queue.jobs;
  }

  /** The version that a task create acquires its task at. */
  function CreatedVersion(w: World, id: Id): int {
    if id in w.db.tasks then w.db.tasks[id].version + 1 else 1
  }

  /** Whether a task create acquires its task, before the deadline `until`. */
  predicate AcquiresBefore(w: World, create: CreateData, until: int) {
    if create.id in w.db.promises then
      && create.id in w.db.tasks && w.db.tasks[create.id].state.Pending? && CanClaim(w, create.id)
      && until == w.db.promises[create.id].record.timeoutAt
    else until == create.timeoutAt
  }

  lemma ExistingIsHeld(env: Env, w: World, pid: string, ttl: int, kind: ActionKind, create: CreateData, until: int)
    requires WorldInv(env, w) && ValidTaskCreate(env, pid, ttl, kind, create) && create.id in w.db.promises
    requires AcquiresBefore(w, create, until) && w.now < until
    ensures var w', id := Asked(env, w, TaskCreate(pid, ttl, kind, create)), create.id;
            && id in w'.db.tasks && w'.db.tasks[id].IsAcquiredAt(CreatedVersion(w, id)) && HeldUntil(w', id, w.now + ttl)
            && id in w'.db.promises && w'.db.promises[id].record.timeoutAt == until
  {
    hide WorldInv, Answer, Asked, ValidTaskCreate, CanClaim, HeldUntil;
    ExistingTaskAnswer(env, w, pid, ttl, kind, create);
  }

  lemma NewIsHeld(env: Env, w: World, pid: string, ttl: int, kind: ActionKind, create: CreateData)
    requires WorldInv(env, w) && ValidTaskCreate(env, pid, ttl, kind, create) && create.id !in w.db.promises
    requires w.now < create.timeoutAt
    ensures var w', id := Asked(env, w, TaskCreate(pid, ttl, kind, create)), create.id;
            && id in w'.db.tasks && w'.db.tasks[id].IsAcquiredAt(CreatedVersion(w, id)) && HeldUntil(w', id, w.now + ttl)
            && id in w'.db.promises && w'.db.promises[id].record.timeoutAt == create.timeoutAt
  {
    WorldAgrees(env, w, create.id);
    hide WorldInv, Answer, Asked, HeldUntil, HasJob, WellFormed;
    NewTaskAnswer(env, w, pid, ttl, kind, create);
  }

  lemma AskedNow(env: Env, w: World, req: Request)
    ensures Asked(env, w, req).now == w.now
  {
    hide Handle, Resolve;
  }

  /** Until the lease of a task create that acquired its task ends, while only the clock
      moves, the task is held at its version, so a fulfil at it is accepted. */
  lemma CreatedCanFulfil(env: Env, w: World, pid: string, ttl: int, kind: ActionKind, create: CreateData, until: int, n: int, data: SettleData)
    requires env.Ok() && WorldInv(env, w) && ValidTaskCreate(env, pid, ttl, kind, create) && AcquiresBefore(w, create, until)
    requires w.now <= n < w.now + ttl && n < until && data.id == create.id
    ensures var version, later := CreatedVersion(w, create.id), Next(env, Asked(env, w, TaskCreate(pid, ttl, kind, create)), Tick(n));
            && Holding(later, create.id, version) && create.id in later.db.promises
            && SettlesTo(later, Asked(env, later, TaskFulfill(create.id, version, KindSettle, data)),
                         Answer(env, later, TaskFulfill(create.id, version, KindSettle, data)), data)
  {
    var req, id, version := TaskCreate(pid, ttl, kind, create), create.id, CreatedVersion(w, create.id);
    var w' := Asked(env, w, req);
    hide WorldInv, Moves, Answer, Asked, SettlesTo, ValidTaskCreate, CanClaim, HeldUntil, HasLease, CreatedVersion;
    if id in w.db.promises {
      ExistingIsHeld(env, w, pid, ttl, kind, create, until);
    } else {
      NewIsHeld(env, w, pid, ttl, kind, create);
    }
    AskedKeeps(env, w, req);
    AskedNow(env, w, req);
    LeaseLasts(env, w', id, version, w.now + ttl, n);
    StepInv(env, w', Tick(n));
    FulfilAnswer(env, Next(env, w', Tick(n)), id, version, KindSettle, data);
  }
}
