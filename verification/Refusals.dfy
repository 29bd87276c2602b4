/** A refused request changes no record except by applying the deadlines of the
    promises it names. */
module Refusals {
  import opened Records
  import opened Queues
  import opened Transaction
  import opened Operations
  import opened Frames
  import opened Kernel
  import opened Worlds
  import opened Theorems

  /** The promises whose deadlines a request applies, in its order. */
  function Named(req: Request): seq<Id> {
    match req
    case PromiseCreate(data) => [data.id]
    case PromiseGet(id) => [id]
    case PromiseSettle(data) => [data.id]
    case RegisterCallback(awaited, awaiter) => [awaited, awaiter]
    case RegisterListener(awaited, _) => [awaited]
    case TaskCreate(_, _, _, data) => [data.id]
    case TaskAcquire(id, _, _, _) => [id]
    case TaskRelease(id, _) => [id]
    case TaskFulfill(id, _, _, _) => [id]
    case TaskSuspend(id, _, actions) => [id] + AwaitedIds(actions)
    case TaskFence(id, _, actionId, _) => if actionId.Some? then [id, actionId.value] else []
    case TaskGet(id) => [id]
    case TaskHalt(id) => [id]
    case TaskContinue(id) => [id]
    case _ => []
  }

  /** The records are those of the store, or those with the deadlines of `ids`
      applied; so are the unblocks sent. */
  predicate OnlyDeadlines(tx: Tx, tx': Tx, ids: seq<Id>) {
    || (tx'.db == tx.db && tx'.sent == tx.sent)
    || (tx'.db == TryTimeout(tx, ids).db && tx'.sent == TryTimeout(tx, ids).sent)
  }

  lemma PromiseRefusals(env: Env, tx: Tx, req: Request)
    requires req.PromiseCreate? || req.PromiseGet? || req.PromiseSettle? || req.RegisterCallback? || req.RegisterListener?
    ensures var out := Handle(env, tx, req); out.reply.Err? ==> OnlyDeadlines(tx, out.tx, Named(req))
  {
    hide TryTimeout, ValidCreate, ValidCallback, CreatePromise, Settle, AddCallback, ResumeAwaiter;
    if req.PromiseCreate? {
      var tx1 := TryTimeout(tx, [req.create.id]);
      CreatedIsThere(tx1, req.create);
    } else if req.PromiseSettle? {
      var tx1 := TryTimeout(tx, [req.settle.id]);
      SettledIsThere(tx1, req.settle);
    } else if req.RegisterCallback? {
      var tx1 := TryTimeout(tx, [req.awaited, req.awaiter]);
      if req.awaited in tx1.db.promises {
        CallbackIsThere(tx1, req.awaited, req.awaiter);
      }
    }
  }

  lemma CreatedIsThere(tx: Tx, data: CreateData)
    ensures data.id in CreatePromise(tx, data, None, CreateDispatch).db.promises
  {
    hide BranchKey;
  }

  lemma SettledIsThere(tx: Tx, data: SettleData)
    ensures data.id in tx.db.promises && tx.db.promises[data.id].IsPending() ==>
              forall id :: id in tx.db.promises ==> id in Settle(tx, tx.db.promises[data.id], data.state, data.value).db.promises
  {
    if data.id in tx.db.promises {
      var p := tx.db.promises[data.id].(record := tx.db.promises[data.id].record.SettledBy(data.state, data.value, tx.now));
      ChainKeepsPromises(tx, p);
    }
  }

  lemma ChainKeepsPromises(tx: Tx, p: Promise)
    ensures forall id :: id in tx.db.promises ==> id in SettleChain(tx, p).db.promises
  {
    var a := SettleRecord(tx, p.record);
    FanoutKeepsPromises(a, p.callbacks, p.record.id);
    SendUnblocksCalm(Fanout(a, p.callbacks, p.record.id), p.listeners, p.record);
  }

  lemma CallbackIsThere(tx: Tx, awaited: Id, awaiter: Id)
    requires awaited in tx.db.promises
    ensures awaited in AddCallback(tx, awaited, awaiter).db.promises
    ensures awaited in ResumeAwaiter(tx, awaiter, awaited, false).db.promises
  {
  }

  /** The reply of an acquire that loses its claim changes no record. */
  lemma AcquireRefusal(env: Env, tx: Tx, t: Task, pid: string, ttl: int)
    ensures var out := AcquireAndView(env, tx, t, pid, ttl);
            out.reply.Err? ==> out.tx.db == tx.db && out.tx.sent == tx.sent
  {
    hide TaskView;
    ViewIsNoError(env, Acquire(tx, t, pid, ttl), AcquiredBy(t, pid, ttl));
  }

  lemma ViewIsNoError(env: Env, tx: Tx, t: Task)
    ensures !TaskView(env, tx, t).Err?
  {
  }

  lemma TaskCreateRefusals(env: Env, tx: Tx, pid: string, ttl: int, kind: ActionKind, data: CreateData)
    ensures var out := HandleTaskCreate(env, tx, pid, ttl, kind, data);
            !out.mode.CommitAck? && (out.reply.Err? ==> OnlyDeadlines(tx, out.tx, [data.id]))
  {
    hide TryTimeout, ValidCreate, CreatePromise, ClaimForCreate, AcquireAndView, TaskView;
    var tx1 := TryTimeout(tx, [data.id]);
    if data.id in tx1.db.tasks {
      var t := tx1.db.tasks[data.id];
      ClaimForCreateDb(tx1, t, ttl);
      AcquireRefusal(env, ClaimForCreate(tx1, t, ttl), t, pid, ttl);
      AcquireCommits(env, ClaimForCreate(tx1, t, ttl), t, pid, ttl);
      ViewIsNoError(env, tx1, t);
    }
    var tx2 := CreatePromise(tx1, data, None, CreateAcquire(pid, ttl));
    if data.id in tx2.db.tasks {
      ViewIsNoError(env, tx2, tx2.db.tasks[data.id]);
    }
  }

  lemma TaskRefusals(env: Env, tx: Tx, req: Request)
    requires req.TaskAcquire? || req.TaskRelease? || req.TaskFulfill? || req.TaskHalt? || req.TaskContinue? || req.TaskGet?
    ensures var out := Handle(env, tx, req); out.reply.Err? ==> OnlyDeadlines(tx, out.tx, Named(req))
  {
    hide TryTimeout, AcquireAndView, SettleIfPending, HaltTask, ContinueTask;
    if req.TaskAcquire? {
      var tx1 := TryTimeout(tx, [req.id]);
      if req.id in tx1.db.tasks {
        AcquireRefusal(env, tx1, tx1.db.tasks[req.id], req.pid, req.ttl);
        AcquireCommits(env, tx1, tx1.db.tasks[req.id], req.pid, req.ttl);
      }
    } else if req.TaskFulfill? {
      SettleIfPendingIsThere(TryTimeout(tx, [req.id]), req.settle);
    }
  }

  lemma SettleIfPendingIsThere(tx: Tx, data: SettleData)
    ensures forall id :: id in tx.db.promises ==> id in SettleIfPending(tx, data).db.promises
  {
    hide Settle;
    SettledIsThere(tx, data);
  }

  lemma AcquireCommits(env: Env, tx: Tx, t: Task, pid: string, ttl: int)
    ensures AcquireAndView(env, tx, t, pid, ttl).mode == Commit
  {
  }

  lemma ClaimForCreateDb(tx: Tx, t: Task, ttl: int)
    ensures ClaimForCreate(tx, t, ttl).db == tx.db && ClaimForCreate(tx, t, ttl).sent == tx.sent
  {
  }

  lemma SuspendRefusals(env: Env, tx: Tx, req: Request)
    requires req.TaskSuspend? || req.TaskFence?
    ensures var out := Handle(env, tx, req); out.reply.Err? ==> OnlyDeadlines(tx, out.tx, Named(req))
  {
    hide TryTimeout, ValidActions, AwaitedIds, AddCallbacks, SuspendTask, ValidCreate, CreatePromise,
      SettleIfPending, OriginOf,
      Preload, AfterHolds;
    if req.TaskSuspend? {
      var tx1 := TryTimeout(tx, [req.id] + AwaitedIds(req.actions));
      assert AfterHolds(tx1, req.id).db == tx1.db && AfterHolds(tx1, req.id).sent == tx1.sent by { HoldsDb(tx1, req.id); }
    }
  }

  lemma HoldsDb(tx: Tx, id: Id)
    ensures AfterHolds(tx, id).db == tx.db && AfterHolds(tx, id).sent == tx.sent
  {
  }

  lemma ScheduleRefusals(env: Env, tx: Tx, id: Id, cron: string, promiseId: string, promiseTimeout: int,
                         promiseParam: Value, promiseTags: Tags)
    ensures var out := HandleScheduleCreate(env, tx, id, cron, promiseId, promiseTimeout, promiseParam, promiseTags);
            !out.mode.CommitAck? && (out.reply.Err? ==> out.tx == tx)
  {
  }

  lemma OtherRefusals(env: Env, tx: Tx, req: Request)
    requires req.TaskHeartbeat? || IsOther(req)
    ensures var out := Handle(env, tx, req);
            !out.mode.CommitAck? && (out.reply.Err? ==> out.tx.db == tx.db && out.tx.sent == tx.sent)
  {
    hide SearchReply, Beats, HandleScheduleCreate;
    if req.ScheduleCreate? {
      ScheduleRefusals(env, tx, req.id, req.cron, req.promiseId, req.promiseTimeout, req.promiseParam, req.promiseTags);
    }
  }

  lemma HandleRefusals(env: Env, tx: Tx, req: Request)
    ensures var out := Handle(env, tx, req); out.reply.Err? ==> OnlyDeadlines(tx, out.tx, Named(req))
  {
    hide Handle, OnlyDeadlines, TryTimeout;
    if req.PromiseCreate? || req.PromiseGet? || req.PromiseSettle? || req.RegisterCallback? || req.RegisterListener? {
      PromiseRefusals(env, tx, req);
    } else if req.TaskSuspend? || req.TaskFence? {
      SuspendRefusals(env, tx, req);
    } else if req.TaskCreate? {
      TaskCreateIs(env, tx, req);
      TaskCreateRefusals(env, tx, req.pid, req.ttl, req.kind, req.create);
    } else if req.TaskAcquire? || req.TaskRelease? || req.TaskFulfill? || req.TaskHalt? || req.TaskContinue? || req.TaskGet? {
      TaskRefusals(env, tx, req);
    } else {
      OtherRefusals(env, tx, req);
      Unchanged(tx, Handle(env, tx, req).tx, Named(req));
    }
  }

  lemma TaskCreateIs(env: Env, tx: Tx, req: Request)
    requires req.TaskCreate?
    ensures Handle(env, tx, req) == HandleTaskCreate(env, tx, req.pid, req.ttl, req.kind, req.create)
  {
  }

  lemma Unchanged(tx: Tx, tx': Tx, ids: seq<Id>)
    ensures tx'.db == tx.db && tx'.sent == tx.sent ==> OnlyDeadlines(tx, tx', ids)
  {
  }

  /** A 4xx reply: the committed records and the unblocks are those before the
      request, or those with the deadlines of the promises it names applied; also
      for a fulfil or a suspend that loses its claim at the commit. */
  lemma RefusalChangesNothing(env: Env, w: World, req: Request, fault: Fault)
    requires ReplyTo(env, w, req, fault).Err? && ReplyTo(env, w, req, fault).status < 500
    ensures OnlyDeadlines(Begin(w), Served(env, w, req, fault).tx, Named(req))
    ensures var w' := Next(env, w, Serve(req, fault));
            (w'.db == w.db && w'.sent == w.sent)
            || (w'.db == TryTimeout(Begin(w), Named(req)).db && w'.sent == TryTimeout(Begin(w), Named(req)).sent)
  {
    hide Handle, TryTimeout, Finish, Committed, CommittedAck, Holds;
    var out := Handle(env, Begin(w), req);
    HandleRefusals(env, Begin(w), req);
    CommittedDb(Begin(w), out, fault);
  }
}
