/** What requests leave alone: every schedule but the one they create or delete,
    and the branch index but for entries of null-free branches and ids. */
module Frames {
  import opened Records
  import opened Queues
  import opened Transaction
  import opened Text
  import opened Kernel
  import opened Invariant
  import opened Steps
  import opened Operations

  type Schedules = map<Id, ScheduleRecord>

  predicate NullFree(s: string) {
    '\0' !in s
  }

  /** The key of an entry whose branch and id have no null. */
  ghost predicate CleanKey(k: string) {
    exists branch, id :: NullFree(branch) && NullFree(id) && k == BranchKey(branch, id)
  }

  ghost predicate IndexLeaves(index: set<string>, index': set<string>) {
    forall k :: k in index' ==> k in index || CleanKey(k)
  }

  ghost predicate Leaves(db: Db, db': Db) {
    db'.schedules == db.schedules && IndexLeaves(db.index, db'.index)
  }

  lemma CreateLeaves(tx: Tx, data: CreateData, createdAt: Option<int>, mode: CreateMode)
    ensures var db := CreatePromise(tx, data, createdAt, mode).db;
            && db.promises == tx.db.promises[data.id := Promise(CreatedRecord(tx.now, data, createdAt), [], [])]
            && db.schedules == tx.db.schedules
            && db.index == (if Branch in data.tags then tx.db.index + {BranchKey(data.tags[Branch], data.id)} else tx.db.index)
  {
    hide CleanKey, CreateTask, CreateTimer, CreatedTask, CreatedJob, StagedGrows, BranchKey;
    var r := CreatedRecord(tx.now, data, createdAt);
    assert r.id == data.id && r.tags == data.tags;
    hide CleanKey, CreatedRecord;
    PlacedIs(tx, r);
    PlacedShape(tx, r);
    hide CleanKey, Placed;
    CreateTaskShape(Placed(tx, r), r, mode);
    CreateTimerShape(CreateTask(Placed(tx, r), r, mode), r);
  }

  /** A branch tag is an ancestor of the id, so it has a null only if the id does. */
  lemma ValidBranch(env: Env, data: CreateData)
    requires ValidCreate(env, data)
    ensures NullFree(data.id) && (Branch in data.tags ==> NullFree(data.tags[Branch]))
  {
    hide CleanKey, ValidDelay, OriginOf;
    if Branch in data.tags && data.tags[Branch] != data.id {
      var b := data.tags[Branch];
      assert b == data.id[..|b|];
    }
  }

  lemma ValidCreateLeaves(env: Env, tx: Tx, data: CreateData, mode: CreateMode)
    requires ValidCreate(env, data)
    ensures Leaves(tx.db, CreatePromise(tx, data, None, mode).db)
  {
    ValidBranch(env, data);
    hide CleanKey, ValidCreate, CreatePromise, BranchKey;
    CreateLeaves(tx, data, None, mode);
  }

  lemma {:induction false} FanoutLeaves(tx: Tx, callbacks: seq<Id>, awaited: Id)
    ensures Leaves(tx.db, Fanout(tx, callbacks, awaited).db)
    decreases |callbacks|
  {
    if callbacks != [] {
      FanoutLeaves(FanoutOne(tx, callbacks[0], awaited), callbacks[1..], awaited);
    }
  }

  lemma SettlementLeaves(tx: Tx, p: Promise)
    ensures Leaves(tx.db, SettleChain(tx, p).db)
  {
    var a := SettleRecord(tx, p.record);
    hide CleanKey, SettleRecord, Calm;
    assert Leaves(tx.db, a.db) by { SettleRecordLeaves(tx, p.record); }
    FanoutLeaves(a, p.callbacks, p.record.id);
    SendUnblocksCalm(Fanout(a, p.callbacks, p.record.id), p.listeners, p.record);
  }

  lemma SettleRecordLeaves(tx: Tx, r: PromiseRecord)
    ensures Leaves(tx.db, SettleRecord(tx, r).db)
  {
  }

  lemma {:induction false} TimeoutsLeave(tx: Tx, ids: seq<Id>)
    ensures Leaves(tx.db, TryTimeout(tx, ids).db)
    decreases |ids|
  {
    hide CleanKey, SettleChain;
    if ids != [] {
      if ids[0] in tx.db.promises {
        var p := tx.db.promises[ids[0]];
        SettlementLeaves(tx, p.(record := p.record.Expired()));
      }
      TimeoutsLeave(TimeoutOne(tx, ids[0]), ids[1..]);
    }
  }

  lemma SettleLeaves(tx: Tx, data: SettleData)
    ensures Leaves(tx.db, SettleIfPending(tx, data).db)
  {
    hide CleanKey, SettleChain;
    if data.id in tx.db.promises {
      var p := tx.db.promises[data.id];
      SettlementLeaves(tx, p.(record := p.record.SettledBy(data.state, data.value, tx.now)));
    }
  }

  lemma {:induction false} CallbacksLeave(tx: Tx, awaited: seq<Id>, awaiter: Id)
    requires forall a :: a in awaited ==> a in tx.db.promises
    ensures Leaves(tx.db, AddCallbacks(tx, awaited, awaiter).db)
    decreases |awaited|
  {
    if awaited != [] {
      CallbacksLeave(AddCallback(tx, awaited[0], awaiter), awaited[1..], awaiter);
    }
  }

  lemma {:induction false} BeatsLeaveDb(tx: Tx, pid: string, beats: seq<(Id, int)>)
    ensures Beats(tx, pid, beats).db == tx.db
    decreases |beats|
  {
    if beats != [] {
      BeatsLeaveDb(Beat(tx, pid, beats[0].0, beats[0].1), pid, beats[1..]);
    }
  }

  lemma PromiseCreateLeaves(env: Env, tx: Tx, data: CreateData)
    ensures Leaves(tx.db, HandlePromiseCreate(env, tx, data).tx.db)
  {
    hide CleanKey, TryTimeout, CreatePromise, ValidCreate;
    TimeoutsLeave(tx, [data.id]);
    if ValidCreate(env, data) {
      ValidCreateLeaves(env, TryTimeout(tx, [data.id]), data, CreateDispatch);
    }
  }

  lemma PromiseSettleLeaves(tx: Tx, data: SettleData)
    ensures Leaves(tx.db, HandlePromiseSettle(tx, data).tx.db)
  {
    hide CleanKey, TryTimeout, SettleIfPending;
    TimeoutsLeave(tx, [data.id]);
    SettleLeaves(TryTimeout(tx, [data.id]), data);
  }

  lemma ResumeLeaves(tx: Tx, awaited: Id, awaiter: Id)
    ensures Leaves(tx.db, ResumeAwaiter(tx, awaiter, awaited, false).db)
    ensures ResumeAwaiter(tx, awaiter, awaited, false).db.promises == tx.db.promises
  {
  }

  lemma RegisterLeaves(env: Env, tx: Tx, awaited: Id, awaiter: Id, address: Address)
    ensures Leaves(tx.db, HandleRegisterCallback(tx, awaited, awaiter).tx.db)
    ensures Leaves(tx.db, HandleRegisterListener(env, tx, awaited, address).tx.db)
  {
    hide CleanKey, TryTimeout, ValidCallback, ResumeAwaiter;
    TimeoutsLeave(tx, [awaited, awaiter]);
    TimeoutsLeave(tx, [awaited]);
    ResumeLeaves(TryTimeout(tx, [awaited, awaiter]), awaited, awaiter);
  }

  lemma ClaimsLeaveDb(tx: Tx, t: Task, ttl: int)
    ensures ClaimForCreate(tx, t, ttl).db == tx.db
  {
  }

  lemma HoldsLeavesDb(tx: Tx, id: Id)
    ensures AfterHolds(tx, id).db == tx.db
  {
  }

  lemma AcquireLeaves(env: Env, tx: Tx, t: Task, pid: string, ttl: int)
    ensures Leaves(tx.db, AcquireAndView(env, tx, t, pid, ttl).tx.db)
  {
    hide CleanKey, TaskView;
  }

  lemma TaskCreateLeaves(env: Env, tx: Tx, pid: string, ttl: int, kind: ActionKind, data: CreateData)
    ensures Leaves(tx.db, HandleTaskCreate(env, tx, pid, ttl, kind, data).tx.db)
  {
    hide CleanKey, TryTimeout, CreatePromise, ValidCreate, ClaimForCreate, TaskView, AcquireAndView;
    TimeoutsLeave(tx, [data.id]);
    var tx1 := TryTimeout(tx, [data.id]);
    if ValidCreate(env, data) {
      ValidCreateLeaves(env, tx1, data, CreateAcquire(pid, ttl));
    }
    if data.id in tx1.db.tasks {
      var t := tx1.db.tasks[data.id];
      ClaimsLeaveDb(tx1, t, ttl);
      AcquireLeaves(env, ClaimForCreate(tx1, t, ttl), t, pid, ttl);
    }
  }

  lemma TaskAcquireLeaves(env: Env, tx: Tx, id: Id, version: int, pid: string, ttl: int)
    ensures Leaves(tx.db, HandleTaskAcquire(env, tx, id, version, pid, ttl).tx.db)
  {
    hide CleanKey, TryTimeout, AcquireAndView;
    TimeoutsLeave(tx, [id]);
    var tx1 := TryTimeout(tx, [id]);
    if id in tx1.db.tasks {
      AcquireLeaves(env, tx1, tx1.db.tasks[id], pid, ttl);
    }
  }

  lemma OneTaskRequestsLeave(tx: Tx, id: Id, version: int)
    ensures Leaves(tx.db, HandleTaskRelease(tx, id, version).tx.db)
    ensures Leaves(tx.db, HandleTaskHalt(tx, id).tx.db)
    ensures Leaves(tx.db, HandleTaskGet(tx, id).tx.db)
  {
    hide CleanKey, TryTimeout;
    TimeoutsLeave(tx, [id]);
  }

  lemma TaskContinueLeaves(tx: Tx, id: Id)
    ensures Leaves(tx.db, HandleTaskContinue(tx, id).tx.db)
  {
    hide CleanKey, TryTimeout;
    TimeoutsLeave(tx, [id]);
  }

  lemma TaskFulfillLeaves(tx: Tx, id: Id, version: int, kind: ActionKind, data: SettleData)
    ensures Leaves(tx.db, HandleTaskFulfill(tx, id, version, kind, data).tx.db)
  {
    hide CleanKey, TryTimeout, SettleIfPending, AfterHolds;
    TimeoutsLeave(tx, [id]);
    SettleLeaves(TryTimeout(tx, [id]), data);
    HoldsLeavesDb(TryTimeout(tx, [id]), id);
  }

  lemma TaskSuspendLeaves(env: Env, tx: Tx, id: Id, version: int, actions: seq<SuspendAction>)
    ensures Leaves(tx.db, HandleTaskSuspend(env, tx, id, version, actions).tx.db)
  {
    hide CleanKey, TryTimeout, AfterHolds, AddCallbacks, ValidActions, AwaitedIds, Preload;
    var tx1 := TryTimeout(tx, [id] + AwaitedIds(actions));
    TimeoutsLeave(tx, [id] + AwaitedIds(actions));
    HoldsLeavesDb(tx1, id);
    if forall a :: a in AwaitedIds(actions) ==> a in tx1.db.promises {
      CallbacksLeave(tx1, AwaitedIds(actions), id);
    }
  }

  lemma TaskFenceLeaves(env: Env, tx: Tx, id: Id, version: int, actionId: Option<Id>, body: FenceBody)
    ensures Leaves(tx.db, HandleTaskFence(env, tx, id, version, actionId, body).tx.db)
  {
    hide CleanKey, TryTimeout, CreatePromise, ValidCreate, SettleIfPending, Preload, OriginOf;
    if actionId.Some? {
      var tx1 := TryTimeout(tx, [id, actionId.value]);
      TimeoutsLeave(tx, [id, actionId.value]);
      if body.FenceCreate? {
        var data := CreateData(actionId.value, body.timeoutAt, body.param, body.tags);
        if ValidCreate(env, data) {
          ValidCreateLeaves(env, tx1, data, CreateDispatch);
        }
      } else if body.FenceSettle? {
        SettleLeaves(tx1, SettleData(actionId.value, body.state, body.value));
      }
    }
  }

  lemma DeliveriesLeave(tx: Tx, claim: Claim)
    ensures Leaves(tx.db, Deliver(tx, claim).tx.db)
  {
    hide CleanKey, TryTimeout;
    if claim.payload.Execute? {
      TimeoutsLeave(tx, [claim.payload.task]);
    }
  }

  /** Only a create adds a schedule, only a delete drops one, and neither touches
      another. */
  ghost predicate SchedulesAfter(schedules: Schedules, schedules': Schedules, req: Request) {
    || schedules' == schedules
    || (req.ScheduleCreate? && req.id !in schedules && req.id in schedules'
        && schedules' == schedules[req.id := schedules'[req.id]]
        && schedules'[req.id].lastRunAt == None && schedules'[req.id].id == req.id && schedules'[req.id].promiseId == req.promiseId)
    || (req.ScheduleDelete? && schedules' == schedules - {req.id})
  }

  lemma SameLeaves(db: Db)
    ensures Leaves(db, db)
  {
    hide CleanKey;
  }

  lemma PromiseRequestLeaves(env: Env, tx: Tx, req: Request)
    requires req.PromiseCreate? || req.PromiseGet? || req.PromiseSettle? || req.RegisterCallback? || req.RegisterListener?
    ensures Leaves(tx.db, Handle(env, tx, req).tx.db)
  {
    hide Leaves, HandlePromiseCreate, HandlePromiseSettle, TryTimeout, HandleRegisterCallback, HandleRegisterListener;
    match req
    case PromiseCreate(data) => PromiseCreateLeaves(env, tx, data);
    case PromiseGet(id) => TimeoutsLeave(tx, [id]);
    case PromiseSettle(data) => PromiseSettleLeaves(tx, data);
    case RegisterCallback(awaited, awaiter) => RegisterLeaves(env, tx, awaited, awaiter, "");
    case RegisterListener(awaited, address) => RegisterLeaves(env, tx, awaited, "", address);
  }

  lemma TaskRequestLeaves(env: Env, tx: Tx, req: Request)
    requires req.TaskCreate? || req.TaskAcquire? || req.TaskRelease? || req.TaskHalt? || req.TaskContinue? || req.TaskGet?
             || req.TaskFulfill? || req.TaskSuspend? || req.TaskFence? || req.TaskHeartbeat?
    ensures Leaves(tx.db, Handle(env, tx, req).tx.db)
  {
    SameLeaves(tx.db);
    hide Leaves, HandleTaskCreate, HandleTaskAcquire, HandleTaskRelease, HandleTaskFulfill, HandleTaskSuspend,
      HandleTaskFence, HandleTaskGet, HandleTaskHalt, HandleTaskContinue, Beats;
    match req
    case TaskCreate(pid, ttl, kind, data) => TaskCreateLeaves(env, tx, pid, ttl, kind, data);
    case TaskAcquire(id, version, pid, ttl) => TaskAcquireLeaves(env, tx, id, version, pid, ttl);
    case TaskRelease(id, version) => OneTaskRequestsLeave(tx, id, version);
    case TaskHalt(id) => OneTaskRequestsLeave(tx, id, 0);
    case TaskContinue(id) => TaskContinueLeaves(tx, id);
    case TaskGet(id) => OneTaskRequestsLeave(tx, id, 0);
    case TaskFulfill(id, version, kind, data) => TaskFulfillLeaves(tx, id, version, kind, data);
    case TaskSuspend(id, version, actions) => TaskSuspendLeaves(env, tx, id, version, actions);
    case TaskFence(id, version, actionId, body) => TaskFenceLeaves(env, tx, id, version, actionId, body);
    case TaskHeartbeat(pid, beats) => BeatsLeaveDb(tx, pid, beats);
  }

  predicate IsOther(req: Request) {
    req.ScheduleCreate? || req.ScheduleGet? || req.ScheduleDelete? || req.PromiseSearch? || req.TaskSearch? || req.ScheduleSearch?
  }

  predicate SameTables(db: Db, db': Db) {
    db'.promises == db.promises && db'.tasks == db.tasks && db'.index == db.index
  }

  lemma ScheduleCreateAfter(env: Env, tx: Tx, id: Id, cron: string, promiseId: string, promiseTimeout: int,
                            promiseParam: Value, promiseTags: Tags)
    ensures var db := HandleScheduleCreate(env, tx, id, cron, promiseId, promiseTimeout, promiseParam, promiseTags).tx.db;
            SameTables(tx.db, db) &&
            (db.schedules == tx.db.schedules ||
             (id !in tx.db.schedules && id in db.schedules && db.schedules == tx.db.schedules[id := db.schedules[id]]
              && db.schedules[id].lastRunAt == None && db.schedules[id].id == id && db.schedules[id].promiseId == promiseId))
  {
  }

  lemma ScheduleDeleteAfter(tx: Tx, id: Id)
    ensures var db := HandleScheduleDelete(tx, id).tx.db;
            SameTables(tx.db, db) && (db.schedules == tx.db.schedules || db.schedules == tx.db.schedules - {id})
  {
  }

  /** Schedule requests and searches touch no promise, no task and no index entry. */
  lemma OtherRequests(env: Env, tx: Tx, req: Request)
    requires IsOther(req)
    ensures SameTables(tx.db, Handle(env, tx, req).tx.db)
    ensures SchedulesAfter(tx.db.schedules, Handle(env, tx, req).tx.db.schedules, req)
  {
    hide SearchReply, HandleScheduleCreate, HandleScheduleDelete;
    if req.ScheduleCreate? {
      ScheduleCreateAfter(env, tx, req.id, req.cron, req.promiseId, req.promiseTimeout, req.promiseParam, req.promiseTags);
    } else if req.ScheduleDelete? {
      ScheduleDeleteAfter(tx, req.id);
    }
  }

  lemma HandleLeaves(env: Env, tx: Tx, req: Request)
    ensures SchedulesAfter(tx.db.schedules, Handle(env, tx, req).tx.db.schedules, req)
    ensures IndexLeaves(tx.db.index, Handle(env, tx, req).tx.db.index)
  {
    hide CleanKey, Handle;
    if IsOther(req) {
      OtherRequests(env, tx, req);
    } else if req.PromiseCreate? || req.PromiseGet? || req.PromiseSettle? || req.RegisterCallback? || req.RegisterListener? {
      PromiseRequestLeaves(env, tx, req);
    } else {
      TaskRequestLeaves(env, tx, req);
    }
  }

  // ---------------------------------------------------------------- keyed records

  /** Every promise is stored under its own id. */
  ghost predicate KeyedPromises(promises: Promises) {
    forall id :: id in promises ==> promises[id].record.id == id
  }

  lemma {:induction false} FanoutKeepsPromises(tx: Tx, callbacks: seq<Id>, awaited: Id)
    ensures Fanout(tx, callbacks, awaited).db.promises == tx.db.promises
    decreases |callbacks|
  {
    if callbacks != [] {
      FanoutKeepsPromises(FanoutOne(tx, callbacks[0], awaited), callbacks[1..], awaited);
    }
  }

  lemma SettlePromises(tx: Tx, p: Promise)
    ensures SettleChain(tx, p).db.promises == tx.db.promises[p.record.id := Promise(p.record, [], [])]
  {
    var a := SettleRecord(tx, p.record);
    hide Calm;
    FanoutKeepsPromises(a, p.callbacks, p.record.id);
    SendUnblocksCalm(Fanout(a, p.callbacks, p.record.id), p.listeners, p.record);
  }

  lemma {:induction false} TimeoutsKeepKeyed(tx: Tx, ids: seq<Id>)
    requires KeyedPromises(tx.db.promises)
    ensures KeyedPromises(TryTimeout(tx, ids).db.promises)
    decreases |ids|
  {
    hide SettleChain;
    if ids != [] {
      if ids[0] in tx.db.promises {
        var p := tx.db.promises[ids[0]];
        SettlePromises(tx, p.(record := p.record.Expired()));
      }
      TimeoutsKeepKeyed(TimeoutOne(tx, ids[0]), ids[1..]);
    }
  }
}
