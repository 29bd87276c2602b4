/** What holds in every run of the store. */
module Theorems {
  import opened Records
  import opened Reference
  import opened Queues
  import opened Transaction
  import opened Kernel
  import opened Invariant
  import opened Steps
  import opened Operations
  import opened Handlers
  import opened Worlds
  import opened Commits
  import opened Runs

  // --------------------------------------------------------------------- one job

  /** The jobs of a task that exist, waiting or claimed. */
  function LiveJobs(w: World, id: Id): set<JobId> {
    set j | j in w.queue.jobs && w.queue.jobs[j].payload == Execute(id)
  }

  lemma LiveJobsOf(tasks: Tasks, w: World, n: JobId, id: Id)
    requires JobsOk(tasks, w.queue.jobs, n) && KeyedBy(tasks)
    ensures id !in tasks ==> LiveJobs(w, id) == {}
    ensures id in tasks ==> LiveJobs(w, id) == if IsLive(tasks[id], w.queue.jobs) then {tasks[id].job.value} else {}
    ensures id in tasks && NeedsJob(tasks[id]) ==> IsLive(tasks[id], w.queue.jobs)
    ensures id in tasks && tasks[id].state.Suspended? ==> !IsLive(tasks[id], w.queue.jobs)
  {
    if id in tasks {
      assert TaskJobOk(tasks[id], w.queue.jobs, n);
    }
  }

  lemma WorldJobs(env: Env, w: World, id: Id)
    requires WorldInv(env, w)
    ensures id !in w.db.tasks ==> LiveJobs(w, id) == {}
    ensures id in w.db.tasks ==>
              LiveJobs(w, id) == if IsLive(w.db.tasks[id], w.queue.jobs) then {w.db.tasks[id].job.value} else {}
    ensures id in w.db.tasks && NeedsJob(w.db.tasks[id]) ==> IsLive(w.db.tasks[id], w.queue.jobs)
    ensures id in w.db.tasks && w.db.tasks[id].state.Suspended? ==> !IsLive(w.db.tasks[id], w.queue.jobs)
  {
    hide Keyed, Agree, PromisesOk, CallbacksOk, ResumesOk, JobsOk, TimersOk, SchedulesOk, IndexOk, SentOk, HeldOk,
      AllJobs, InflightOk, AckingOk;
    NothingStaged(Begin(w));
    KeyedById(w.db.promises, w.db.tasks);
    LiveJobsOf(w.db.tasks, w, w.queue.nextJob, id);
  }

  /** In every state of every run a task has at most one live execute job, the one
      it names; a pending or acquired task has exactly one and a suspended task
      none. Halting and continuing in any order cannot break this. */
  lemma OneJobPerTask(env: Env, worlds: seq<World>, steps: seq<Step>, i: nat, id: Id)
    requires env.Ok() && IsRun(env, worlds, steps) && i < |worlds|
    ensures var w := worlds[i];
            if id !in w.db.tasks then LiveJobs(w, id) == {}
            else
              && LiveJobs(w, id) <= (if w.db.tasks[id].job.Some? then {w.db.tasks[id].job.value} else {})
              && (NeedsJob(w.db.tasks[id]) ==> w.db.tasks[id].job.Some? && LiveJobs(w, id) == {w.db.tasks[id].job.value})
              && (w.db.tasks[id].state.Suspended? ==> LiveJobs(w, id) == {})
  {
    hide IsRun, WorldInv, Moves, LiveJobs;
    RunInv(env, worlds, steps, i);
    WorldJobs(env, worlds[i], id);
  }

  // -------------------------------------------------------------- no lost wake-up

  /** `a` is pending and will tell `id` when it settles. */
  predicate Awaits(w: World, id: Id, a: Id) {
    a in w.db.promises && w.db.promises[a].IsPending() && id in w.db.promises[a].callbacks
  }

  predicate IsSuspended(w: World, id: Id) {
    id in w.db.tasks && w.db.tasks[id].state.Suspended?
  }

  /** Whether the task's own deadline is ahead. */
  predicate DeadlineAhead(w: World, id: Id) {
    id in w.db.promises && w.now < w.db.promises[id].record.timeoutAt
  }

  /** A suspend that was committed with status 200. */
  ghost predicate SuspendAccepted(env: Env, w: World, id: Id, version: int, actions: seq<SuspendAction>, fault: Fault) {
    && Served(env, w, TaskSuspend(id, version, actions), fault).committed
    && Handle(env, Begin(w), TaskSuspend(id, version, actions)).reply == Ok(200, NoBody)
  }

  lemma CommittedDb(tx0: Tx, out: Outcome, fault: Fault)
    ensures Resolve(tx0, out, fault).tx.db == if Resolve(tx0, out, fault).committed then out.tx.db else tx0.db
    ensures Resolve(tx0, out, fault).committed ==> !out.mode.Discard?
    ensures Resolve(tx0, out, fault).tx.sent == if Resolve(tx0, out, fault).committed then out.tx.sent else tx0.sent
  {
    match out.mode
    case Discard =>
    case Commit => FinishDb(Committed(out.tx), StepsBefore(fault, out.tx));
    case CommitAck(id) =>
      if id in out.tx.held {
        FinishDb(CommittedAck(out.tx, id), StepsBefore(fault, out.tx));
      }
  }

  /** When a suspend is accepted, and what it writes. */
  lemma SuspendShape(env: Env, tx: Tx, id: Id, version: int, actions: seq<SuspendAction>)
    requires HandleTaskSuspend(env, tx, id, version, actions).reply == Ok(200, NoBody)
    ensures ValidActions(id, actions)
    ensures var tx1 := TryTimeout(tx, [id] + AwaitedIds(actions));
            && id in tx1.db.tasks && tx1.db.tasks[id].IsAcquiredAt(version)
            && (forall a :: a in AwaitedIds(actions) ==> Awaitable(tx1, a) && tx1.db.promises[a].IsPending())
            && HandleTaskSuspend(env, tx, id, version, actions).tx ==
                 SuspendTask(AddCallbacks(tx1, AwaitedIds(actions), id), tx1.db.tasks[id])
  {
    hide TryTimeout, AwaitedIds, AddCallbacks, SuspendTask, ValidActions, Preload, AfterHolds;
  }

  /** An accepted suspend leaves every promise it names pending and listing it. */
  lemma SuspendRegisters(env: Env, w: World, id: Id, version: int, actions: seq<SuspendAction>, fault: Fault)
    requires WorldInv(env, w) && SuspendAccepted(env, w, id, version, actions, fault)
    ensures var w' := Next(env, w, Serve(TaskSuspend(id, version, actions), fault));
            && IsSuspended(w', id) && id in w.db.tasks && w.db.tasks[id].IsAcquiredAt(version)
            && (forall k :: 0 <= k < |actions| ==> Awaits(w', id, actions[k].awaited))
  {
    hide TxInv, Evolves, Quiet, Calm, AftersOk, OriginOf, ValidActions, AwaitedIds, AddCallbacks, InflightOk,
      AckingOk, Resolve,
      TryTimeout, HandleTaskSuspend;
    var tx := Begin(w);
    var awaited := AwaitedIds(actions);
    var tx1 := TryTimeout(tx, [id] + awaited);
    SuspendShape(env, tx, id, version, actions);
    TimeoutSound(env, tx, [id] + awaited);
    CommittedDb(tx, HandleTaskSuspend(env, tx, id, version, actions), fault);
    AwaitedFacts(id, actions);
    PromiseOfTask(env, tx1, id);
    AddCallbacksKeeps(env, tx1, awaited, id);
    AcquiredStays(tx, tx1, id);
    forall k | 0 <= k < |actions| ensures actions[k].awaited in awaited {
      AwaitedAt(actions, k);
    }
  }

  lemma AwaitedAt(actions: seq<SuspendAction>, k: nat)
    requires k < |actions|
    ensures actions[k].awaited in AwaitedIds(actions)
  {
    assert AwaitedIds(actions)[k] == actions[k].awaited;
  }

  /** While a task stays suspended and its deadline is ahead, a promise it awaits
      stays pending and keeps its callback. */
  lemma AwaitsStays(w: World, w': World, id: Id, a: Id)
    requires Moves(w, w') && IsSuspended(w, id) && IsSuspended(w', id) && Awaits(w, id, a)
    requires DeadlineAhead(w', id) && id in w.db.promises
    ensures Awaits(w', id, a)
  {
    hide JobsFresh, Tells, TasksEvolve;
    assert PromiseEvolves(w.db.promises[a], w'.db.promises[a], w.now);
    assert PromiseEvolves(w.db.promises[id], w'.db.promises[id], w.now);
  }

  /** The same step, from the deadline of the state it starts in. */
  lemma DeadlineEarlier(w: World, w': World, id: Id)
    requires Moves(w, w') && DeadlineAhead(w', id) && id in w.db.promises
    ensures DeadlineAhead(w, id)
  {
    hide JobsFresh, Tells, TasksEvolve, Sleeps;
    assert PromiseEvolves(w.db.promises[id], w'.db.promises[id], w.now);
  }

  lemma SuspendedHasPromise(env: Env, w: World, id: Id)
    requires WorldInv(env, w) && IsSuspended(w, id)
    ensures id in w.db.promises
  {
    hide TxInv, InflightOk, AckingOk;
    PromiseOfTask(env, Begin(w), id);
  }

  /** No lost wake-up: from an accepted suspend on, as long as the task stays
      suspended and its own deadline is ahead, every promise it suspended on is
      still pending and still lists it as a callback. */
  lemma {:induction false} NoLostWakeup(env: Env, worlds: seq<World>, steps: seq<Step>, i: nat, k: nat,
                                        id: Id, version: int, actions: seq<SuspendAction>, fault: Fault, a: nat)
    requires env.Ok() && IsRun(env, worlds, steps) && i < k < |worlds| && a < |actions|
    requires steps[i] == Serve(TaskSuspend(id, version, actions), fault)
    requires SuspendAccepted(env, worlds[i], id, version, actions, fault)
    requires forall j :: i < j <= k ==> IsSuspended(worlds[j], id)
    requires DeadlineAhead(worlds[k], id)
    ensures Awaits(worlds[k], id, actions[a].awaited)
    decreases k
  {
    hide WorldInv, Moves, Next, SuspendAccepted, Awaits, DeadlineAhead, IsSuspended, Enabled;
    RunInv(env, worlds, steps, k - 1);
    if k == i + 1 {
      SuspendRegisters(env, worlds[i], id, version, actions, fault);
    } else {
      SuspendedHasPromise(env, worlds[k - 1], id);
      DeadlineEarlier(worlds[k - 1], worlds[k], id);
      NoLostWakeup(env, worlds, steps, i, k - 1, id, version, actions, fault, a);
      AwaitsStays(worlds[k - 1], worlds[k], id, actions[a].awaited);
    }
  }

  lemma SettledWakes(w: World, w': World, id: Id, a: Id)
    requires Moves(w, w') && IsSuspended(w, id) && Awaits(w, id, a) && DeadlineAhead(w, id)
    requires a in w'.db.promises && !w'.db.promises[a].IsPending()
    ensures !IsSuspended(w', id)
  {
    hide JobsFresh, Tells, TasksEvolve, PromisesEvolve;
  }

  lemma FreshJob(w: World, w': World, id: Id, j: JobId)
    requires Moves(w, w') && LiveJobs(w, id) == {} && j in LiveJobs(w', id)
    ensures w.queue.nextJob <= j
  {
    hide DbMoves;
    assert j < w.queue.nextJob ==> j in LiveJobs(w, id);
  }

  lemma RunSteps(env: Env, worlds: seq<World>, steps: seq<Step>, i: nat)
    requires IsRun(env, worlds, steps) && i < |steps|
    ensures i + 1 < |worlds|
  {
  }

  lemma TaskStays(w: World, w': World, id: Id)
    requires Moves(w, w') && id in w.db.tasks
    ensures id in w'.db.tasks && TaskEvolves(w.db.tasks[id], w'.db.tasks[id])
  {
    hide JobsFresh, Tells, PromisesEvolve, Sleeps;
  }

  lemma PromiseStays(w: World, w': World, id: Id)
    requires Moves(w, w') && id in w.db.promises
    ensures id in w'.db.promises && PromiseEvolves(w.db.promises[id], w'.db.promises[id], w.now)
  {
    hide JobsFresh, Tells, TasksEvolve, Sleeps;
  }

  // ------------------------------------------------------------------ crash safety

  /** The steps that commit: a request, a delivery, a timer firing. */
  predicate IsWork(step: Step) {
    step.Serve? || step.DeliverClaim? || step.FireTimer?
  }

  function WithFault(step: Step, fault: Fault): Step
    requires IsWork(step)
  {
    match step
    case Serve(req, _) => Serve(req, fault)
    case DeliverClaim(claim, _) => DeliverClaim(claim, fault)
    case FireTimer(claim, _) => FireTimer(claim, fault)
  }

  /** What the handler of such a step decided. */
  ghost function Decided(env: Env, w: World, step: Step): Outcome
    requires IsWork(step)
  {
    match step
    case Serve(req, _) => Handle(env, Begin(w), req)
    case DeliverClaim(claim, _) => Deliver(Begin(w), claim)
    case FireTimer(claim, _) => Fire(env, Begin(w), claim.payload)
  }

  lemma WorkRecords(env: Env, w: World, step: Step, fault: Fault)
    requires IsWork(step)
    ensures var w', r := Next(env, w, WithFault(step, fault)), Resolve(Begin(w), Decided(env, w, step), fault);
            w'.db == r.tx.db && w'.sent == r.tx.sent && (fault.BeforeCommit? ==> w'.queue.jobs == w.queue.jobs)
  {
    hide Handle, Deliver, Fire, Finish;
  }

  /** A process that stops after a commit and any part of the work that follows it,
      and restarts, finds the records of a step that ran to its end, the invariant,
      and no claim: after a request, a delivery or a timer firing. None of that work
      is needed for safety. */
  lemma CrashAfterCommit(env: Env, w: World, step: Step, n: nat)
    requires env.Ok() && WorldInv(env, w) && Enabled(w, step) && IsWork(step)
    ensures var crashed := Next(env, Next(env, w, WithFault(step, AfterCommit(n))), Restart);
            && WorldInv(env, crashed)
            && crashed.db == Next(env, w, WithFault(step, NoFault)).db
            && crashed.sent == Next(env, w, WithFault(step, NoFault)).sent
            && crashed.held == map[] && crashed.queue.leases == map[] && crashed.inflight == {} && crashed.acking == {}
  {
    hide WorldInv, Moves, Resolve, Decided, WithFault;
    var out := Decided(env, w, step);
    assert Enabled(w, WithFault(step, AfterCommit(n))) by { FaultsAreEnabled(w, step, AfterCommit(n)); }
    hide Enabled;
    StepInv(env, w, WithFault(step, AfterCommit(n)));
    var w1 := Next(env, w, WithFault(step, AfterCommit(n)));
    RestartInv(env, w1);
    WorkRecords(env, w, step, AfterCommit(n));
    WorkRecords(env, w, step, NoFault);
    CommittedDb(Begin(w), out, AfterCommit(n));
    CommittedDb(Begin(w), out, NoFault);
    SameCommit(Begin(w), out, AfterCommit(n), NoFault);
    hide Next, Begin;
  }

  lemma FaultsAreEnabled(w: World, step: Step, fault: Fault)
    requires Enabled(w, step) && IsWork(step)
    ensures Enabled(w, WithFault(step, fault))
  {
  }

  lemma RestartInv(env: Env, w: World)
    requires env.Ok() && WorldInv(env, w)
    ensures var w' := Next(env, w, Restart);
            && WorldInv(env, w') && w'.db == w.db && w'.sent == w.sent && w'.queue.jobs == w.queue.jobs
            && w'.held == map[] && w'.queue.leases == map[] && w'.inflight == {} && w'.acking == {}
  {
    hide WorldInv, Moves;
    StepInv(env, w, Restart);
  }

  lemma SameCommit(tx0: Tx, out: Outcome, fault: Fault, fault': Fault)
    requires !fault.BeforeCommit? && !fault'.BeforeCommit?
    ensures Resolve(tx0, out, fault).committed == Resolve(tx0, out, fault').committed
  {
  }

  /** A process that stops before the commit leaves the records and the jobs as they
      were. */
  lemma CrashBeforeCommit(env: Env, w: World, step: Step)
    requires env.Ok() && WorldInv(env, w) && Enabled(w, step) && IsWork(step)
    ensures var crashed := Next(env, Next(env, w, WithFault(step, BeforeCommit)), Restart);
            && WorldInv(env, crashed)
            && crashed.db == w.db && crashed.sent == w.sent && crashed.queue.jobs == w.queue.jobs
            && crashed.held == map[] && crashed.queue.leases == map[]
  {
    hide WorldInv, Moves, Decided, WithFault;
    assert Enabled(w, WithFault(step, BeforeCommit)) by { FaultsAreEnabled(w, step, BeforeCommit); }
    hide Enabled;
    StepInv(env, w, WithFault(step, BeforeCommit));
    RestartInv(env, Next(env, w, WithFault(step, BeforeCommit)));
    WorkRecords(env, w, step, BeforeCommit);
    NothingCommitted(Begin(w), Decided(env, w, step));
    hide Next;
  }

  lemma NothingCommitted(tx0: Tx, out: Outcome)
    ensures Resolve(tx0, out, BeforeCommit).tx.db == tx0.db && Resolve(tx0, out, BeforeCommit).tx.sent == tx0.sent
  {
  }

  // -------------------------------------------------------------------- settlement

  /** A settled promise never changes again and has no registrations; its times
      are in order; it was settled at its deadline exactly when it has the timeout
      state of one, with an empty value. */
  lemma {:induction false} SettlementIsFinal(env: Env, worlds: seq<World>, steps: seq<Step>, i: nat, k: nat, id: Id)
    requires env.Ok() && IsRun(env, worlds, steps) && i <= k < |worlds|
    requires id in worlds[i].db.promises && !worlds[i].db.promises[id].IsPending()
    ensures id in worlds[k].db.promises && worlds[k].db.promises[id] == worlds[i].db.promises[id]
    ensures var p := worlds[k].db.promises[id];
            && p.callbacks == [] && p.listeners == [] && p.record.settledAt.Some?
            && p.record.createdAt <= p.record.settledAt.value <= p.record.timeoutAt
            && p.record.settledAt.value <= worlds[k].now
            && (p.record.settledAt.value == p.record.timeoutAt ==>
                  && p.record.value == EMPTY
                  && p.record.state == if ResolvesAtDeadline(p.record.tags) then PromiseState.Resolved else PromiseState.RejectedTimedout)
            && (p.record.settledAt.value < p.record.timeoutAt ==> !p.record.state.RejectedTimedout?)
    decreases k
  {
    hide WorldInv, Moves, Next, Enabled;
    RunInv(env, worlds, steps, k);
    if i < k {
      SettlementIsFinal(env, worlds, steps, i, k - 1, id);
      RunInv(env, worlds, steps, k - 1);
      PromiseStays(worlds[k - 1], worlds[k], id);
    }
    WorldPromise(env, worlds[k], id);
  }

  lemma WorldPromise(env: Env, w: World, id: Id)
    requires WorldInv(env, w) && id in w.db.promises
    ensures PromiseOk(w.db.promises[id], w.now) && w.db.promises[id].record.id == id
  {
    hide TxInv, InflightOk, AckingOk, PromiseOk, OriginOf;
    PromiseFactsOf(env, Begin(w), id);
  }

  /** The step that settles a promise settles it by its deadline exactly when the
      deadline has passed, and then at the deadline; otherwise at the clock, in a
      state a client can ask for. */
  lemma SettledByWhom(env: Env, worlds: seq<World>, steps: seq<Step>, i: nat, id: Id)
    requires env.Ok() && IsRun(env, worlds, steps) && i < |steps|
    requires id in worlds[i].db.promises && worlds[i].db.promises[id].IsPending()
    requires id in worlds[i + 1].db.promises && !worlds[i + 1].db.promises[id].IsPending()
    ensures var r, r' := worlds[i].db.promises[id].record, worlds[i + 1].db.promises[id].record;
            && SameIdentity(r, r')
            && (r'.settledAt == Some(r.timeoutAt) <==> worlds[i].now >= r.timeoutAt)
            && (worlds[i].now >= r.timeoutAt ==>
                  && r' == Expiry(r) && r'.value == r.value
                  && (r'.state.Resolved? <==> Timer in r.tags && r.tags[Timer] == "true")
                  && (!r'.state.Resolved? ==> r'.state.RejectedTimedout?))
            && (worlds[i].now < r.timeoutAt ==> r'.settledAt == Some(worlds[i].now) && !r'.state.RejectedTimedout?)
  {
    hide WorldInv, Moves, IsRun;
    RunSteps(env, worlds, steps, i);
    RunInv(env, worlds, steps, i);
    PromiseStays(worlds[i], worlds[i + 1], id);
  }

  // --------------------------------------------------------- agreement, no panic

  /** A task exists exactly for a targeted promise, is fulfilled exactly when its
      promise is settled, and never leaves fulfilled. */
  lemma TaskAndPromiseAgree(env: Env, worlds: seq<World>, steps: seq<Step>, i: nat, id: Id)
    requires env.Ok() && IsRun(env, worlds, steps) && i < |worlds|
    ensures id in worlds[i].db.tasks <==> id in worlds[i].db.promises && Target in worlds[i].db.promises[id].record.tags
    ensures id in worlds[i].db.tasks ==>
              (worlds[i].db.tasks[id].state.Fulfilled? <==> !worlds[i].db.promises[id].IsPending())
    ensures id in worlds[i].db.tasks && worlds[i].db.tasks[id].state.Fulfilled? && i < |steps| ==>
              id in worlds[i + 1].db.tasks && worlds[i + 1].db.tasks[id] == worlds[i].db.tasks[id]
  {
    hide WorldInv, Moves, Next, Enabled;
    RunInv(env, worlds, steps, i);
    WorldAgrees(env, worlds[i], id);
    if i < |steps| && id in worlds[i].db.tasks {
      TaskStays(worlds[i], worlds[i + 1], id);
    }
  }

  lemma WorldAgrees(env: Env, w: World, id: Id)
    requires WorldInv(env, w)
    ensures id in w.db.tasks <==> id in w.db.promises && Target in w.db.promises[id].record.tags
    ensures id in w.db.tasks ==> (w.db.tasks[id].state.Fulfilled? <==> !w.db.promises[id].IsPending())
  {
    hide Keyed, PromisesOk, CallbacksOk, ResumesOk, JobsOk, TimersOk, SchedulesOk, IndexOk, SentOk, HeldOk,
      AllJobs, InflightOk, AckingOk;
  }

  lemma ViewNoPanic(env: Env, tx: Tx, t: Task)
    requires t.id in tx.db.promises
    ensures !TaskView(env, tx, t).Panic?
  {
  }

  /** The `expect`s on a task's promise and on a targeted promise's task hold. */
  lemma TaskCreateNoPanic(env: Env, tx: Tx, pid: string, ttl: int, kind: ActionKind, data: CreateData)
    requires Fresh(env, tx)
    ensures !HandleTaskCreate(env, tx, pid, ttl, kind, data).reply.Panic?
  {
    hide TxInv, Evolves, Quiet, Calm, AftersOk, CreatePromise, ValidCreate, ClaimForCreate, TaskView, CreatedRecord,
      Acquire;
    var tx1 := TryTimeout(tx, [data.id]);
    TimeoutSound(env, tx, [data.id]);
    if data.id in tx1.db.tasks {
      var t := tx1.db.tasks[data.id];
      PromiseOfTask(env, tx1, data.id);
      ViewNoPanic(env, tx1, t);
      if t.state.Pending? {
        ClaimForCreateKeeps(env, tx1, data.id, ttl);
        var tx2 := ClaimForCreate(tx1, t, ttl);
        AcquireKeeps(env, tx2, data.id, pid, ttl);
        ViewNoPanic(env, Acquire(tx2, t, pid, ttl), AcquiredBy(t, pid, ttl));
      }
    } else if data.id !in tx1.db.promises && Target in data.tags {
      CreateKeeps(env, tx1, data, None, CreateAcquire(pid, ttl));
      var tx2 := CreatePromise(tx1, data, None, CreateAcquire(pid, ttl));
      ViewNoPanic(env, tx2, tx2.db.tasks[data.id]);
    }
  }

  lemma TaskAcquireNoPanic(env: Env, tx: Tx, id: Id, version: int, pid: string, ttl: int)
    requires Fresh(env, tx)
    ensures !HandleTaskAcquire(env, tx, id, version, pid, ttl).reply.Panic?
  {
    hide TxInv, Evolves, Quiet, Calm, AftersOk, TaskView, Acquire;
    var tx1 := TryTimeout(tx, [id]);
    TimeoutSound(env, tx, [id]);
    if id in tx1.db.tasks && tx1.db.tasks[id].state.Pending? {
      PromiseOfTask(env, tx1, id);
      AcquireKeeps(env, tx1, id, pid, ttl);
      ViewNoPanic(env, Acquire(tx1, tx1.db.tasks[id], pid, ttl), AcquiredBy(tx1.db.tasks[id], pid, ttl));
    }
  }

  lemma TaskSuspendNoPanic(env: Env, tx: Tx, id: Id, version: int, actions: seq<SuspendAction>)
    requires Fresh(env, tx)
    ensures !HandleTaskSuspend(env, tx, id, version, actions).reply.Panic?
  {
    hide TxInv, Evolves, Quiet, Calm, AftersOk, ValidActions, AwaitedIds, AddCallbacks, SuspendTask, AfterHolds,
      Preload;
    var tx1 := TryTimeout(tx, [id] + AwaitedIds(actions));
    TimeoutSound(env, tx, [id] + AwaitedIds(actions));
    if id in tx1.db.tasks {
      PromiseOfTask(env, tx1, id);
    }
  }

  lemma TaskFenceNoPanic(env: Env, tx: Tx, id: Id, version: int, actionId: Option<Id>, body: FenceBody)
    requires Fresh(env, tx)
    ensures !HandleTaskFence(env, tx, id, version, actionId, body).reply.Panic?
  {
    hide TxInv, Evolves, Quiet, Calm, AftersOk, OriginOf, CreatePromise, ValidCreate, SettleIfPending, CreatedRecord,
      Preload;
    if actionId.Some? {
      var aid := actionId.value;
      var tx1 := TryTimeout(tx, [id, aid]);
      TimeoutSound(env, tx, [id, aid]);
      if id in tx1.db.tasks {
        PromiseOfTask(env, tx1, id);
        match body
        case FenceCreate(timeoutAt, param, tags) =>
          if aid !in tx1.db.promises {
            CreateKeeps(env, tx1, CreateData(aid, timeoutAt, param, tags), None, CreateDispatch);
          }
        case FenceSettle(state, value) =>
          assert aid in [id, aid];
          SettleIfPendingKeeps(env, tx1, SettleData(aid, state, value));
          assert Calm(tx1, SettleIfPending(tx1, SettleData(aid, state, value)));
          CalmPromises(tx1, SettleIfPending(tx1, SettleData(aid, state, value)), id);
        case _ =>
      }
    }
  }

  lemma CalmPromises(tx: Tx, tx': Tx, id: Id)
    requires Calm(tx, tx')
    ensures id in tx.db.promises <==> id in tx'.db.promises
  {
  }

  /** No handler panics where the invariant holds. */
  lemma NoPanicIn(env: Env, tx: Tx, req: Request)
    requires Fresh(env, tx)
    ensures !Handle(env, tx, req).reply.Panic?
  {
    hide TxInv, HandlePromiseCreate, HandlePromiseGet, HandlePromiseSettle, HandleRegisterCallback,
      HandleRegisterListener, HandleTaskCreate, HandleTaskAcquire, HandleTaskRelease, HandleTaskFulfill,
      HandleTaskSuspend, HandleTaskFence, HandleTaskGet, HandleTaskHalt, HandleTaskContinue, HandleScheduleCreate,
      HandleScheduleGet, HandleScheduleDelete, SearchReply, Beats;
    match req
    case TaskCreate(pid, ttl, kind, data) => TaskCreateNoPanic(env, tx, pid, ttl, kind, data);
    case TaskAcquire(id, version, pid, ttl) => TaskAcquireNoPanic(env, tx, id, version, pid, ttl);
    case TaskSuspend(id, version, actions) => TaskSuspendNoPanic(env, tx, id, version, actions);
    case TaskFence(id, version, actionId, body) => TaskFenceNoPanic(env, tx, id, version, actionId, body);
    case _ => OthersNoPanic(env, tx, req);
  }

  /** No request panics, in any reachable state. */
  lemma NoPanic(env: Env, worlds: seq<World>, steps: seq<Step>, i: nat, req: Request, fault: Fault)
    requires env.Ok() && IsRun(env, worlds, steps) && i < |worlds|
    ensures !ReplyTo(env, worlds[i], req, fault).Panic?
  {
    hide IsRun, Moves, TxInv, InflightOk, AckingOk, Handle, Finish, CommittedAck;
    RunInv(env, worlds, steps, i);
    NoPanicIn(env, Begin(worlds[i]), req);
  }

  lemma OthersNoPanic(env: Env, tx: Tx, req: Request)
    requires !req.TaskCreate? && !req.TaskAcquire? && !req.TaskSuspend? && !req.TaskFence?
    ensures !Handle(env, tx, req).reply.Panic?
  {
    hide TryTimeout, CreatePromise, SettleIfPending, ContinueTask, Preload, MatchingPromises, MatchingTasks,
      MatchingSchedules, Page, Beats, ValidCreate;
  }

  // --------------------------------------------------------------------- unblocks

  /** The step that settles a promise puts exactly one unblock on the queue of every
      address that listens to it: a new job with the final record. */
  lemma SettlementEnqueuesUnblock(env: Env, worlds: seq<World>, steps: seq<Step>, i: nat, id: Id, address: Address)
    returns (j: JobId)
    requires env.Ok() && IsRun(env, worlds, steps) && i < |steps|
    requires id in worlds[i].db.promises && worlds[i].db.promises[id].IsPending()
    requires address in worlds[i].db.promises[id].listeners
    requires id in worlds[i + 1].db.promises && !worlds[i + 1].db.promises[id].IsPending()
    ensures worlds[i].queue.nextJob <= j
    ensures IsOnly(worlds[i + 1], j, Job(Deliveries(address), Unblock(worlds[i + 1].db.promises[id].record), 0))
  {
    hide WorldInv, Moves, Next, Enabled;
    RunInv(env, worlds, steps, i);
    RunInv(env, worlds, steps, i + 1);
    WorldSent(env, worlds[i]);
    WorldSent(env, worlds[i + 1]);
    TellsNow(worlds[i], worlds[i + 1], id, address);
    WorldPromise(env, worlds[i], id) by { hide PromiseOk; }
    var m := Message(address, worlds[i + 1].db.promises[id].record);
    j :| j in worlds[i + 1].sent && worlds[i + 1].sent[j] == m;
    assert j !in worlds[i].sent by { NotSentBefore(worlds[i], worlds[i + 1], id, j); }
    assert worlds[i].queue.nextJob <= j && HasJob(worlds[i + 1], j, UnblockJob(m)) by { QueuedNow(worlds[i], worlds[i + 1], j); }
  }

  predicate HasJob(w: World, j: JobId, job: Job) {
    j in w.queue.jobs && w.queue.jobs[j] == job
  }

  /** `j` is the one job with the value `job`. */
  ghost predicate IsOnly(w: World, j: JobId, job: Job) {
    HasJob(w, j, job) && forall k :: HasJob(w, k, job) ==> k == j
  }

  lemma QueuedNow(w: World, w': World, j: JobId)
    requires Moves(w, w') && j in w'.sent && j !in w.sent
    ensures w.queue.nextJob <= j && HasJob(w', j, UnblockJob(w'.sent[j]))
  {
    hide DbMoves, JobsFresh;
  }

  lemma TellsNow(w: World, w': World, id: Id, address: Address)
    requires Moves(w, w') && id in w.db.promises && w.db.promises[id].IsPending() && address in w.db.promises[id].listeners
    requires id in w'.db.promises && !w'.db.promises[id].IsPending()
    ensures WasSent(w'.sent, Message(address, w'.db.promises[id].record))
    ensures SameIdentity(w.db.promises[id].record, w'.db.promises[id].record)
  {
    hide JobsFresh, TasksEvolve, Sleeps, Queued, WasSent;
    assert PromiseEvolves(w.db.promises[id], w'.db.promises[id], w.now);
  }

  /** Nothing was sent of a promise while it is pending. */
  lemma NotSentBefore(w: World, w': World, id: Id, j: JobId)
    requires Moves(w, w') && id in w.db.promises && w.db.promises[id].IsPending() && w.db.promises[id].record.id == id
    requires forall k :: k in w.sent ==>
               w.sent[k].promise.id in w.db.promises && w.db.promises[w.sent[k].promise.id].record == w.sent[k].promise
               && !w.sent[k].promise.state.Pending?
    requires j in w'.sent && w'.sent[j].promise.id == id
    ensures j !in w.sent
  {
    hide JobsFresh, TasksEvolve, Sleeps, Queued, Tells, PromisesEvolve;
  }

  lemma {:induction false} SentStaysOver(env: Env, worlds: seq<World>, steps: seq<Step>, i: nat, k: nat, j: JobId)
    requires env.Ok() && IsRun(env, worlds, steps) && i <= k < |worlds| && j in worlds[i].sent
    ensures j in worlds[k].sent && worlds[k].sent[j] == worlds[i].sent[j]
    decreases k
  {
    hide WorldInv, Moves, Next, Enabled;
    if i < k {
      SentStaysOver(env, worlds, steps, i, k - 1, j);
      RunInv(env, worlds, steps, k - 1);
      SentStaysOn(worlds[k - 1], worlds[k], j);
    }
  }

  lemma SentStaysOn(w: World, w': World, j: JobId)
    requires Moves(w, w') && j in w.sent
    ensures j in w'.sent && w'.sent[j] == w.sent[j]
  {
    hide JobsFresh, TasksEvolve, Sleeps, Queued, Tells, PromisesEvolve;
  }

  /** The step in which a promise settles. */
  lemma {:induction false} SettlingStep(env: Env, worlds: seq<World>, steps: seq<Step>, i: nat, k: nat, id: Id) returns (s: nat)
    requires env.Ok() && IsRun(env, worlds, steps) && i <= k < |worlds|
    requires id in worlds[i].db.promises && worlds[i].db.promises[id].IsPending()
    requires id in worlds[k].db.promises && !worlds[k].db.promises[id].IsPending()
    ensures i <= s < k && id in worlds[s].db.promises && worlds[s].db.promises[id].IsPending()
    ensures id in worlds[s + 1].db.promises && worlds[s + 1].db.promises[id] == worlds[k].db.promises[id]
    decreases k
  {
    hide WorldInv, Moves, Next, Enabled;
    assert i < k;
    RunInv(env, worlds, steps, k - 1);
    PromiseIsThere(env, worlds, steps, i, k - 1, id);
    if worlds[k - 1].db.promises[id].IsPending() {
      s := k - 1;
    } else {
      PromiseStays(worlds[k - 1], worlds[k], id);
      s := SettlingStep(env, worlds, steps, i, k - 1, id);
    }
  }

  lemma {:induction false} PromiseIsThere(env: Env, worlds: seq<World>, steps: seq<Step>, i: nat, k: nat, id: Id)
    requires env.Ok() && IsRun(env, worlds, steps) && i <= k < |worlds| && id in worlds[i].db.promises
    ensures id in worlds[k].db.promises
    decreases k
  {
    hide WorldInv, Moves, Next, Enabled;
    if i < k {
      PromiseIsThere(env, worlds, steps, i, k - 1, id);
      RunInv(env, worlds, steps, k - 1);
      PromiseStays(worlds[k - 1], worlds[k], id);
    }
  }

  /** `unblock` is an unblock job of promise `id` for `address`. */
  predicate IsUnblockFor(unblock: Job, id: Id, address: Address) {
    unblock.lane == Deliveries(address) && unblock.payload.Unblock? && unblock.payload.promise.id == id
  }

  /** An unblock job of a promise in any state of the run was sent under its id. */
  lemma UnblockWasSent(env: Env, worlds: seq<World>, steps: seq<Step>, m: nat, k: nat, id: Id, address: Address, j: JobId)
    requires env.Ok() && IsRun(env, worlds, steps) && m < |worlds| && k < |worlds|
    requires id in worlds[k].db.promises && !worlds[k].db.promises[id].IsPending()
    requires j in worlds[m].queue.jobs && IsUnblockFor(worlds[m].queue.jobs[j], id, address)
    ensures var last := if m <= k then k else m;
            j in worlds[last].sent && worlds[last].sent[j] == Message(address, worlds[k].db.promises[id].record)
  {
    hide IsRun, WorldInv, Moves, PromiseOk;
    var last := if m <= k then k else m;
    RunInv(env, worlds, steps, m);
    WorldSent(env, worlds[m]);
    SentStaysOver(env, worlds, steps, m, last, j);
    if m <= k {
      SettlementIsFinal(env, worlds, steps, m, k, id);
    } else {
      SettlementIsFinal(env, worlds, steps, k, m, id);
    }
  }

  /** Every address that listens to a promise before it settles gets exactly one
      unblock job over the whole run: the settling step enqueues it under a new id,
      with the final record, and no state of the run has another. */
  lemma OneUnblockPerListener(env: Env, worlds: seq<World>, steps: seq<Step>, i: nat, k: nat, id: Id, address: Address)
    returns (s: nat, j: JobId)
    requires env.Ok() && IsRun(env, worlds, steps) && i <= k < |worlds|
    requires id in worlds[i].db.promises && worlds[i].db.promises[id].IsPending()
    requires address in worlds[i].db.promises[id].listeners
    requires id in worlds[k].db.promises && !worlds[k].db.promises[id].IsPending()
    ensures i <= s < k && worlds[s].queue.nextJob <= j
    ensures id in worlds[s].db.promises && worlds[s].db.promises[id].IsPending()
    ensures HasJob(worlds[s + 1], j, Job(Deliveries(address), Unblock(worlds[k].db.promises[id].record), 0))
    ensures forall m, j' :: 0 <= m < |worlds| && j' in worlds[m].queue.jobs && IsUnblockFor(worlds[m].queue.jobs[j'], id, address) ==>
              j' == j
  {
    hide IsRun, WorldInv, Moves, PromiseOk, HasJob;
    s := SettlingStep(env, worlds, steps, i, k, id);
    ListenerIsTold(env, worlds, steps, i, s, id, address);
    RunLengths(env, worlds, steps);
    j := SettlementEnqueuesUnblock(env, worlds, steps, s, id, address);
    var unblock := Job(Deliveries(address), Unblock(worlds[k].db.promises[id].record), 0);
    RunInv(env, worlds, steps, k);
    WorldPromise(env, worlds[k], id);
    assert j in worlds[s + 1].queue.jobs && IsUnblockFor(worlds[s + 1].queue.jobs[j], id, address) by { JobIs(worlds[s + 1], j, unblock); }
    forall m, j' | 0 <= m < |worlds| && j' in worlds[m].queue.jobs && IsUnblockFor(worlds[m].queue.jobs[j'], id, address)
      ensures j' == j
    {
      SameUnblock(env, worlds, steps, s + 1, j, m, j', k, id, address);
    }
  }

  lemma JobIs(w: World, j: JobId, job: Job)
    requires HasJob(w, j, job)
    ensures j in w.queue.jobs && w.queue.jobs[j] == job
  {
  }

  lemma SameUnblock(env: Env, worlds: seq<World>, steps: seq<Step>, m: nat, j: JobId, m': nat, j': JobId, k: nat, id: Id, address: Address)
    requires env.Ok() && IsRun(env, worlds, steps) && m < |worlds| && m' < |worlds| && k < |worlds|
    requires id in worlds[k].db.promises && !worlds[k].db.promises[id].IsPending()
    requires j in worlds[m].queue.jobs && IsUnblockFor(worlds[m].queue.jobs[j], id, address)
    requires j' in worlds[m'].queue.jobs && IsUnblockFor(worlds[m'].queue.jobs[j'], id, address)
    ensures j' == j
  {
    hide IsRun, WorldInv, Moves, IsUnblockFor;
    UnblockWasSent(env, worlds, steps, m, k, id, address, j);
    UnblockWasSent(env, worlds, steps, m', k, id, address, j');
    var last := |worlds| - 1;
    SentStaysOver(env, worlds, steps, if m <= k then k else m, last, j);
    SentStaysOver(env, worlds, steps, if m' <= k then k else m', last, j');
    RunInv(env, worlds, steps, last);
    WorldSent(env, worlds[last]);
  }

  lemma RunLengths(env: Env, worlds: seq<World>, steps: seq<Step>)
    requires IsRun(env, worlds, steps)
    ensures |worlds| == |steps| + 1
  {
  }

  lemma WorldSent(env: Env, w: World)
    requires WorldInv(env, w)
    ensures forall j :: j in w.sent ==>
              w.sent[j].promise.id in w.db.promises && w.db.promises[w.sent[j].promise.id].record == w.sent[j].promise
              && !w.sent[j].promise.state.Pending?
    ensures forall j, k :: j in w.sent && k in w.sent && w.sent[j] == w.sent[k] ==> j == k
    ensures forall j :: j in w.queue.jobs && w.queue.jobs[j].payload.Unblock? ==>
              j in w.sent && w.queue.jobs[j].payload.promise == w.sent[j].promise
              && w.queue.jobs[j].lane == Deliveries(w.sent[j].address)
  {
    hide Keyed, Agree, PromisesOk, CallbacksOk, ResumesOk, JobsOk, TimersOk, SchedulesOk, IndexOk, HeldOk,
      AllJobs, InflightOk, AckingOk;
    NothingStaged(Begin(w));
  }

  lemma SentStays(w: World, w': World, id: Id, address: Address)
    requires Moves(w, w') && id in w.db.promises
    requires if w.db.promises[id].IsPending() then address in w.db.promises[id].listeners
             else WasSent(w.sent, Message(address, w.db.promises[id].record))
    ensures id in w'.db.promises
    ensures if w'.db.promises[id].IsPending() then address in w'.db.promises[id].listeners
            else WasSent(w'.sent, Message(address, w'.db.promises[id].record))
  {
    hide JobsFresh, TasksEvolve, Sleeps;
    assert PromiseEvolves(w.db.promises[id], w'.db.promises[id], w.now);
    if w.db.promises[id].IsPending() && w'.db.promises[id].IsPending() {
      assert address in w'.db.promises[id].listeners;
    } else if !w.db.promises[id].IsPending() {
      var m := Message(address, w.db.promises[id].record);
      var j :| j in w.sent && w.sent[j] == m;
      assert j in w'.sent && w'.sent[j] == m;
    }
  }

  lemma {:induction false} ListenerIsTold(env: Env, worlds: seq<World>, steps: seq<Step>, i: nat, k: nat, id: Id, address: Address)
    requires env.Ok() && IsRun(env, worlds, steps) && i <= k < |worlds|
    requires id in worlds[i].db.promises && worlds[i].db.promises[id].IsPending()
    requires address in worlds[i].db.promises[id].listeners
    ensures id in worlds[k].db.promises
    ensures if worlds[k].db.promises[id].IsPending() then address in worlds[k].db.promises[id].listeners
            else WasSent(worlds[k].sent, Message(address, worlds[k].db.promises[id].record))
    decreases k
  {
    hide WorldInv, Moves, Next, Enabled, WasSent;
    if i < k {
      ListenerIsTold(env, worlds, steps, i, k - 1, id, address);
      RunInv(env, worlds, steps, k - 1);
      SentStays(worlds[k - 1], worlds[k], id, address);
    }
  }

  /** In every state, every pending external promise has an outstanding timer job
      at its deadline. */
  lemma DeadlinesAreScheduled(env: Env, worlds: seq<World>, steps: seq<Step>, i: nat, id: Id)
    requires env.Ok() && IsRun(env, worlds, steps) && i < |worlds|
    requires id in worlds[i].db.promises && worlds[i].db.promises[id].IsPending()
    requires CanBeAwaited(worlds[i].db.promises[id].record.tags)
    ensures exists j :: j in worlds[i].queue.jobs && worlds[i].queue.jobs[j].payload == PromiseTimeout(id)
              && worlds[i].queue.jobs[j].due == Max(worlds[i].db.promises[id].record.timeoutAt, 0)
              && j !in DoneJobs(worlds[i].acking)
  {
    hide WorldInv, Moves, IsRun;
    RunInv(env, worlds, steps, i);
    WorldTimers(env, worlds[i], id);
  }

  lemma WorldTimers(env: Env, w: World, id: Id)
    requires WorldInv(env, w)
    requires id in w.db.promises && w.db.promises[id].IsPending() && w.db.promises[id].record.IsExternal()
    ensures exists j :: j in w.queue.jobs && w.queue.jobs[j].payload == PromiseTimeout(id)
              && w.queue.jobs[j].due == Max(w.db.promises[id].record.timeoutAt, 0) && j !in DoneJobs(w.acking)
  {
    hide Keyed, Agree, PromisesOk, CallbacksOk, ResumesOk, JobsOk, SchedulesOk, IndexOk, SentOk, HeldOk,
      AllJobs, InflightOk, AckingOk;
    NothingStaged(Begin(w));
    assert HasTimer(w.queue.jobs, DoneJobs(w.acking), PromiseTimeout(id));
  }

  /** Every resume names a settled promise of the task's origin other than its own;
      suspended and fulfilled tasks have none; every callback of a promise names a
      distinct task of its origin other than its own. */
  lemma RegistrationsAreSound(env: Env, worlds: seq<World>, steps: seq<Step>, i: nat, id: Id)
    requires env.Ok() && IsRun(env, worlds, steps) && i < |worlds|
    ensures var db := worlds[i].db;
            && (id in db.tasks ==>
                  && (forall r :: r in db.tasks[id].resumes ==>
                        r in db.promises && !db.promises[r].IsPending() && r != id && OriginOf(r) == OriginOf(id))
                  && (db.tasks[id].state.Suspended? || db.tasks[id].state.Fulfilled? ==> db.tasks[id].resumes == {}))
            && (id in db.promises ==>
                  && Distinct(db.promises[id].callbacks)
                  && (forall c :: c in db.promises[id].callbacks ==>
                        c in db.tasks && c in db.promises && c != id && OriginOf(c) == OriginOf(id)))
  {
    hide WorldInv, Moves, IsRun, OriginOf;
    RunInv(env, worlds, steps, i);
    WorldRegistrations(env, worlds[i], id);
  }

  lemma WorldRegistrations(env: Env, w: World, id: Id)
    requires WorldInv(env, w)
    ensures id in w.db.tasks ==> forall r :: r in w.db.tasks[id].resumes ==> CanResume(w.db.promises, id, r)
    ensures id in w.db.tasks && (w.db.tasks[id].state.Suspended? || w.db.tasks[id].state.Fulfilled?) ==> w.db.tasks[id].resumes == {}
    ensures id in w.db.promises ==>
              && Distinct(w.db.promises[id].callbacks)
              && (forall c :: c in w.db.promises[id].callbacks ==>
                    c in w.db.tasks && c in w.db.promises && c != id && OriginOf(c) == OriginOf(id))
  {
    hide Keyed, Agree, PromisesOk, JobsOk, TimersOk, SchedulesOk, IndexOk, SentOk, HeldOk,
      AllJobs, InflightOk, AckingOk, OriginOf, CanResume, Distinct;
    if id in w.db.promises {
      PromiseFacts(w.db.promises, w.now, id);
    }
  }
}
