/** Fencing by version, over whole runs: a holder that lost its task is refused
    for ever. */
module Fencing {
  import opened Records
  import opened Queues
  import opened Transaction
  import opened Kernel
  import opened Invariant
  import opened Steps
  import opened Operations
  import opened Handlers
  import opened Worlds
  import opened Commits
  import opened Runs
  import opened Theorems

  predicate HeldAt(w: World, id: Id, version: int) {
    id in w.db.tasks && w.db.tasks[id].IsAcquiredAt(version)
  }

  /** Versions never decrease. */
  lemma {:induction false} VersionsNeverDecrease(env: Env, worlds: seq<World>, steps: seq<Step>, i: nat, k: nat, id: Id)
    requires env.Ok() && IsRun(env, worlds, steps) && i <= k < |worlds| && id in worlds[i].db.tasks
    ensures id in worlds[k].db.tasks && worlds[i].db.tasks[id].version <= worlds[k].db.tasks[id].version
    decreases k
  {
    hide WorldInv, Moves, Next, Enabled;
    if i < k {
      VersionsNeverDecrease(env, worlds, steps, i, k - 1, id);
      RunInv(env, worlds, steps, k - 1);
      TaskStays(worlds[k - 1], worlds[k], id);
    }
  }

  /** A task held at a version was held at it, by the same process, since it
      reached that version. */
  lemma {:induction false} HeldSince(env: Env, worlds: seq<World>, steps: seq<Step>, j: nat, k: nat, id: Id, version: int)
    requires env.Ok() && IsRun(env, worlds, steps) && j <= k < |worlds|
    requires id in worlds[j].db.tasks && version <= worlds[j].db.tasks[id].version
    requires HeldAt(worlds[k], id, version)
    ensures HeldAt(worlds[j], id, version) && worlds[j].db.tasks[id].pid == worlds[k].db.tasks[id].pid
    decreases k - j
  {
    hide WorldInv, Moves, Next, Enabled;
    VersionsNeverDecrease(env, worlds, steps, j, k, id);
    if j < k {
      VersionsNeverDecrease(env, worlds, steps, j, j + 1, id);
      HeldSince(env, worlds, steps, j + 1, k, id, version);
      RunInv(env, worlds, steps, j);
      TaskStays(worlds[j], worlds[j + 1], id);
    }
  }

  /** The time a task is held at one version is one interval with one holder. */
  lemma HeldIsOneInterval(env: Env, worlds: seq<World>, steps: seq<Step>, i: nat, j: nat, k: nat, id: Id, version: int)
    requires env.Ok() && IsRun(env, worlds, steps) && i <= j <= k < |worlds|
    requires HeldAt(worlds[i], id, version) && HeldAt(worlds[k], id, version)
    ensures HeldAt(worlds[j], id, version)
    ensures worlds[i].db.tasks[id].pid == worlds[j].db.tasks[id].pid == worlds[k].db.tasks[id].pid
  {
    hide IsRun;
    VersionsNeverDecrease(env, worlds, steps, i, j, id);
    HeldSince(env, worlds, steps, j, k, id, version);
    HeldSince(env, worlds, steps, i, j, id, version);
  }

  /** A version that is over is over for ever. */
  lemma NeverHeldAgain(env: Env, worlds: seq<World>, steps: seq<Step>, i: nat, k: nat, id: Id, version: int)
    requires env.Ok() && IsRun(env, worlds, steps) && i <= k < |worlds|
    requires id in worlds[i].db.tasks && version <= worlds[i].db.tasks[id].version && !HeldAt(worlds[i], id, version)
    ensures !HeldAt(worlds[k], id, version)
  {
    hide IsRun;
    if HeldAt(worlds[k], id, version) {
      HeldSince(env, worlds, steps, i, k, id, version);
    }
  }

  // ---------------------------------------------------------------- at most one

  /** The requests of a holder that end its hold. */
  predicate EndsHold(req: Request, id: Id, version: int) {
    match req
    case TaskFulfill(i, v, _, _) => i == id && v == version
    case TaskSuspend(i, v, _) => i == id && v == version
    case TaskRelease(i, v) => i == id && v == version
    case _ => false
  }

  /** Such a request was committed with status 200. */
  ghost predicate Accepted(env: Env, w: World, step: Step, id: Id, version: int) {
    && step.Serve? && EndsHold(step.req, id, version)
    && Served(env, w, step.req, step.fault).committed
    && Handle(env, Begin(w), step.req).reply.Ok? && Handle(env, Begin(w), step.req).reply.status == 200
  }

  lemma FulfillShape(tx: Tx, id: Id, version: int, kind: ActionKind, data: SettleData)
    requires HandleTaskFulfill(tx, id, version, kind, data).reply.Ok?
    ensures var tx1 := TryTimeout(tx, [id]);
            && id in tx1.db.tasks && tx1.db.tasks[id].IsAcquiredAt(version)
            && HandleTaskFulfill(tx, id, version, kind, data).mode == CommitAck(id)
  {
    hide TryTimeout, SettleIfPending, AfterHolds;
  }

  lemma FulfillEndsHold(env: Env, tx: Tx, id: Id, version: int, kind: ActionKind, data: SettleData)
    requires Fresh(env, tx) && HandleTaskFulfill(tx, id, version, kind, data).reply.Ok?
    ensures var out := HandleTaskFulfill(tx, id, version, kind, data);
            && id in tx.db.tasks && tx.db.tasks[id].IsAcquiredAt(version)
            && id in out.tx.db.tasks && !out.tx.db.tasks[id].state.Acquired?
  {
    hide TxInv, Evolves, Quiet, AftersOk, TryTimeout, Calm, HandleTaskFulfill, SuspendTask;
    FulfillShape(tx, id, version, kind, data);
    TimeoutSound(env, tx, [id]);
    AcquiredStays(tx, TryTimeout(tx, [id]), id);
    TaskFulfillOk(env, tx, id, version, kind, data);
  }

  lemma ReleaseEndsHold(env: Env, tx: Tx, id: Id, version: int)
    requires Fresh(env, tx) && HandleTaskRelease(tx, id, version).reply.Ok?
    ensures var out := HandleTaskRelease(tx, id, version);
            && id in tx.db.tasks && tx.db.tasks[id].IsAcquiredAt(version)
            && id in out.tx.db.tasks && !out.tx.db.tasks[id].state.Acquired?
  {
    hide TxInv, Evolves, Quiet, Calm, TryTimeout;
    TimeoutSound(env, tx, [id]);
    AcquiredStays(tx, TryTimeout(tx, [id]), id);
    PromiseOfTask(env, TryTimeout(tx, [id]), id);
  }

  /** An accepted request found its task held at its version and ended the hold. */
  lemma AcceptedEndsHold(env: Env, w: World, step: Step, id: Id, version: int)
    requires env.Ok() && WorldInv(env, w) && Accepted(env, w, step, id, version)
    ensures HeldAt(w, id, version) && !HeldAt(Next(env, w, step), id, version)
    ensures id in Next(env, w, step).db.tasks
  {
    hide TxInv, InflightOk, AckingOk, Resolve, HandleTaskFulfill, HandleTaskRelease, HandleTaskSuspend;
    CommittedDb(Begin(w), Handle(env, Begin(w), step.req), step.fault);
    match step.req
    case TaskFulfill(_, _, kind, data) => FulfillEndsHold(env, Begin(w), id, version, kind, data);
    case TaskSuspend(_, _, actions) =>
      SuspendIsBodyless(env, Begin(w), id, version, actions);
      SuspendRegisters(env, w, id, version, actions, step.fault);
    case TaskRelease(_, _) => ReleaseEndsHold(env, Begin(w), id, version);
  }

  lemma SuspendIsBodyless(env: Env, tx: Tx, id: Id, version: int, actions: seq<SuspendAction>)
    requires HandleTaskSuspend(env, tx, id, version, actions).reply.Ok?
    requires HandleTaskSuspend(env, tx, id, version, actions).reply.status == 200
    ensures HandleTaskSuspend(env, tx, id, version, actions).reply == Ok(200, NoBody)
  {
    hide TryTimeout, AwaitedIds, AddCallbacks, SuspendTask, ValidActions, Preload, AfterHolds;
  }

  /** At most one fulfil, suspend or release is accepted for a task and version: no
      step but the one that was. */
  lemma OneAcceptancePerVersion(env: Env, worlds: seq<World>, steps: seq<Step>, i: nat, id: Id, version: int)
    requires env.Ok() && IsRun(env, worlds, steps) && i < |steps|
    requires Accepted(env, worlds[i], steps[i], id, version)
    ensures forall k :: 0 <= k < |steps| && Accepted(env, worlds[k], steps[k], id, version) ==> k == i
  {
    hide Accepted, Next, Enabled;
    forall k | 0 <= k < |steps| && Accepted(env, worlds[k], steps[k], id, version) ensures k == i {
      if i < k {
        SecondIsRefused(env, worlds, steps, i, k, id, version);
      } else if k < i {
        SecondIsRefused(env, worlds, steps, k, i, id, version);
      }
    }
  }

  lemma SecondIsRefused(env: Env, worlds: seq<World>, steps: seq<Step>, i: nat, k: nat, id: Id, version: int)
    requires env.Ok() && IsRun(env, worlds, steps) && i < k < |steps|
    requires Accepted(env, worlds[i], steps[i], id, version)
    ensures !Accepted(env, worlds[k], steps[k], id, version)
  {
    hide WorldInv, Moves, Next, Enabled, Accepted;
    RunInv(env, worlds, steps, i);
    RunInv(env, worlds, steps, k);
    AcceptedEndsHold(env, worlds[i], steps[i], id, version);
    VersionsNeverDecrease(env, worlds, steps, i, i + 1, id);
    NeverHeldAgain(env, worlds, steps, i + 1, k, id, version);
    if Accepted(env, worlds[k], steps[k], id, version) {
      AcceptedEndsHold(env, worlds[k], steps[k], id, version);
    }
  }

  // ----------------------------------------------------------------- redelivery

  /** The requests a holder makes at a version, other than a new acquire. */
  predicate AtVersion(req: Request, id: Id, version: int) {
    EndsHold(req, id, version) || (req.TaskFence? && req.id == id && req.version == version)
  }

  /** Without the hold such a request is refused. */
  lemma RefusedUnlessHeld(env: Env, w: World, req: Request, id: Id, version: int)
    requires WorldInv(env, w) && AtVersion(req, id, version) && !HeldAt(w, id, version)
    ensures Handle(env, Begin(w), req).reply.Err?
  {
    hide TxInv, InflightOk, AckingOk, Evolves, Quiet, Calm;
    var tx := Begin(w);
    match req {
      case TaskFulfill(_, _, _, _) => NotHeldAfter(env, tx, [id], id, version);
      case TaskRelease(_, _) => NotHeldAfter(env, tx, [id], id, version);
      case TaskSuspend(_, _, actions) =>
        hide ValidActions, AwaitedIds, AddCallbacks, SuspendTask, AfterHolds, Preload;
        NotHeldAfter(env, tx, [id] + AwaitedIds(actions), id, version);
      case TaskFence(_, _, actionId, _) =>
        hide OriginOf, CreatePromise, ValidCreate, SettleIfPending, Preload, FenceReply;
        if actionId.Some? {
          NotHeldAfter(env, tx, [id, actionId.value], id, version);
        }
    }
  }

  lemma NotHeldAfter(env: Env, tx: Tx, ids: seq<Id>, id: Id, version: int)
    requires Fresh(env, tx) && !(id in tx.db.tasks && tx.db.tasks[id].IsAcquiredAt(version))
    ensures var tx1 := TryTimeout(tx, ids); !(id in tx1.db.tasks && tx1.db.tasks[id].IsAcquiredAt(version))
  {
    hide TxInv, Evolves, Quiet, Calm;
    TimeoutSound(env, tx, ids);
    var tx1 := TryTimeout(tx, ids);
    if id in tx1.db.tasks && tx1.db.tasks[id].IsAcquiredAt(version) {
      AcquiredStays(tx, tx1, id);
    }
  }

  lemma BeatIsIgnored(w: World, pid: string, id: Id, version: int)
    requires !HeldAt(w, id, version)
    ensures Beat(Begin(w), pid, id, version) == Begin(w)
  {
  }

  /** A delivery ends the hold of the task it delivers. */
  lemma DeliveryEndsHold(env: Env, w: World, claim: Claim, fault: Fault, id: Id, version: int)
    requires env.Ok() && WorldInv(env, w) && claim in w.inflight && claim.payload == Execute(id)
    requires !fault.BeforeCommit?
    ensures !HeldAt(Next(env, w, DeliverClaim(claim, fault)), id, version)
  {
    hide TxInv, InflightOk, AckingOk, Evolves, Quiet, Calm, Finish, TryTimeout;
    var tx := Begin(w);
    TimeoutSound(env, tx, [id]);
    var tx1 := TryTimeout(tx, [id]);
    if id in tx1.db.tasks {
      PromiseOfTask(env, tx1, id);
    }
    var out := Deliver(tx, claim);
    assert out.mode.Commit?;
    CommittedDb(tx, out, fault);
    hide Resolve;
  }

  /** After a redelivery, every request at the version that was held then, or an
      older one, is refused for ever, except a new acquire; a heartbeat at it renews
      nothing. */
  lemma RedeliveryFences(env: Env, worlds: seq<World>, steps: seq<Step>, i: nat, k: nat,
                         claim: Claim, fault: Fault, req: Request, pid: string, id: Id, version: int)
    requires env.Ok() && IsRun(env, worlds, steps) && i < |steps| && i < k < |worlds|
    requires steps[i] == DeliverClaim(claim, fault) && claim.payload == Execute(id) && !fault.BeforeCommit?
    requires id in worlds[i].db.tasks && version <= worlds[i].db.tasks[id].version
    requires AtVersion(req, id, version)
    ensures Handle(env, Begin(worlds[k]), req).reply.Err?
    ensures Beat(Begin(worlds[k]), pid, id, version) == Begin(worlds[k])
  {
    hide WorldInv, Moves, Next, AtVersion, Handle, Beat;
    RunInv(env, worlds, steps, i);
    RunInv(env, worlds, steps, k);
    DeliveryEndsHold(env, worlds[i], claim, fault, id, version);
    VersionsNeverDecrease(env, worlds, steps, i, i + 1, id);
    NeverHeldAgain(env, worlds, steps, i + 1, k, id, version);
    RefusedUnlessHeld(env, worlds[k], req, id, version);
    BeatIsIgnored(worlds[k], pid, id, version);
  }
}
