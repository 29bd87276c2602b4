/** Every handler keeps the invariant, for any request: what it decides can be
    committed, with any part of the work it leaves for later, or abandoned. A handler
    that ends with the acknowledgement of a held claim, as a fulfil and a suspend do,
    promises what that commit needs instead. Deliveries and timer firings are handlers
    here as well. */
module Handlers {
  import opened Records
  import opened Queues
  import opened Transaction
  import opened Kernel
  import opened Invariant
  import opened Steps
  import opened Operations

  /** What a handler that commits, or ends without a commit, promises. */
  ghost predicate Sound(env: Env, tx: Tx, out: Outcome) {
    Keeps(env, tx, out.tx) && AftersOk(out.tx)
  }

  /** What a fulfil promises: its task is fulfilled and its claim held. */
  ghost predicate FulfilSound(env: Env, tx: Tx, out: Outcome) {
    && out.mode.CommitAck? && Sound(env, tx, out)
    && out.mode.task in out.tx.held && out.mode.task in out.tx.db.tasks
    && out.tx.db.tasks[out.mode.task].state.Fulfilled?
  }

  /** What a suspend promises: it registers callbacks and suspends a task that was
      acquired throughout and whose claim is held. */
  ghost predicate SuspendSound(env: Env, tx: Tx, mid: Tx, out: Outcome) {
    && out.mode.CommitAck?
    && Keeps(env, tx, mid) && Quiet(mid.after, mid.db.tasks)
    && out.mode.task in mid.held && out.mode.task in mid.db.tasks && out.mode.task in tx.db.tasks
    && tx.db.tasks[out.mode.task].state.Acquired? && mid.db.tasks[out.mode.task].state.Acquired?
    && tx.db.tasks[out.mode.task].version == mid.db.tasks[out.mode.task].version
    && out.tx == SuspendTask(mid, mid.db.tasks[out.mode.task])
  }

  ghost predicate HandledOk(env: Env, tx: Tx, out: Outcome) {
    if out.mode.CommitAck? then FulfilSound(env, tx, out) || exists mid :: SuspendSound(env, tx, mid, out)
    else Sound(env, tx, out)
  }

  /** A transaction as a request begins it. */
  ghost predicate Fresh(env: Env, tx: Tx) {
    TxInv(env, tx) && tx.staged == map[] && tx.after == []
  }

  lemma SteadyIsSound(env: Env, tx: Tx, tx': Tx, reply: Reply, mode: Mode)
    requires Keeps(env, tx, tx') && Quiet(tx'.after, tx'.db.tasks)
    ensures Sound(env, tx, Outcome(tx', reply, mode))
  {
    hide TxInv, Evolves, Quiet, AftersOk;
    QuietIsOk(tx');
  }

  lemma TimeoutSound(env: Env, tx: Tx, ids: seq<Id>)
    requires Fresh(env, tx)
    ensures var tx1 := TryTimeout(tx, ids);
            && Keeps(env, tx, tx1) && Steady(env, tx1) && Calm(tx, tx1)
            && (forall id :: id in ids && id in tx1.db.promises ==> !tx1.db.promises[id].Due(tx1.now))
  {
    hide TxInv, Evolves, Calm;
    TryTimeoutKeeps(env, tx, ids);
    EvolvesParts(tx, TryTimeout(tx, ids));
  }

  // --------------------------------------------------------- promise operations

  lemma PromiseCreateOk(env: Env, tx: Tx, data: CreateData)
    requires Fresh(env, tx)
    ensures HandledOk(env, tx, HandlePromiseCreate(env, tx, data))
  {
    hide TxInv, Evolves, Quiet, Calm, AftersOk, CreatePromise, ValidCreate, CreatedRecord;
    var out := HandlePromiseCreate(env, tx, data);
    KeepsReflexive(env, tx);
    if ValidCreate(env, data) {
      var tx1 := TryTimeout(tx, [data.id]);
      TimeoutSound(env, tx, [data.id]);
      if data.id !in tx1.db.promises {
        CreateKeeps(env, tx1, data, None, CreateDispatch);
        KeepsTransitive(env, tx, tx1, CreatePromise(tx1, data, None, CreateDispatch));
      }
    } else {
      NoAfter(tx);
    }
    SteadyIsSound(env, tx, out.tx, out.reply, out.mode);
  }

  lemma NoAfter(tx: Tx)
    requires tx.after == []
    ensures Quiet(tx.after, tx.db.tasks)
  {
  }

  lemma PromiseGetOk(env: Env, tx: Tx, id: Id)
    requires Fresh(env, tx)
    ensures HandledOk(env, tx, HandlePromiseGet(tx, id))
  {
    hide TxInv, Evolves, Quiet, Calm, AftersOk;
    var out := HandlePromiseGet(tx, id);
    TimeoutSound(env, tx, [id]);
    SteadyIsSound(env, tx, out.tx, out.reply, out.mode);
  }

  lemma SettleIfPendingKeeps(env: Env, tx: Tx, data: SettleData)
    requires Steady(env, tx) && (data.id in tx.db.promises ==> !tx.db.promises[data.id].Due(tx.now))
    ensures var tx' := SettleIfPending(tx, data);
            && Keeps(env, tx, tx') && Steady(env, tx') && Calm(tx, tx')
            && (data.id in tx.db.promises ==> data.id in tx'.db.promises && !tx'.db.promises[data.id].IsPending())
  {
    hide TxInv, Evolves, Quiet, Settle;
    KeepsReflexive(env, tx);
    CalmReflexive(tx);
    if data.id in tx.db.promises && tx.db.promises[data.id].IsPending() {
      SettleKeeps(env, tx, data.id, data.state, data.value);
      assert data.id in SettleIfPending(tx, data).db.promises;
    }
  }

  lemma PromiseSettleOk(env: Env, tx: Tx, data: SettleData)
    requires Fresh(env, tx)
    ensures HandledOk(env, tx, HandlePromiseSettle(tx, data))
  {
    hide TxInv, Evolves, Quiet, Calm, AftersOk, SettleIfPending;
    var out := HandlePromiseSettle(tx, data);
    var tx1 := TryTimeout(tx, [data.id]);
    TimeoutSound(env, tx, [data.id]);
    assert data.id in [data.id];
    SettleIfPendingKeeps(env, tx1, data);
    KeepsTransitive(env, tx, tx1, out.tx);
    SteadyIsSound(env, tx, out.tx, out.reply, out.mode);
  }

  lemma CanResumeOf(env: Env, tx: Tx, awaited: Id, awaiter: Id)
    requires awaited in tx.db.promises && !tx.db.promises[awaited].IsPending()
    requires awaited != awaiter && OriginOf(awaited) == OriginOf(awaiter)
    ensures CanResume(tx.db.promises, awaiter, awaited)
  {
  }

  lemma RegisterCallbackOk(env: Env, tx: Tx, awaited: Id, awaiter: Id)
    requires Fresh(env, tx)
    ensures HandledOk(env, tx, HandleRegisterCallback(tx, awaited, awaiter))
  {
    hide TxInv, Evolves, Quiet, Calm, AftersOk, OriginOf, CanResume, AddCallback, ResumeAwaiter;
    var out := HandleRegisterCallback(tx, awaited, awaiter);
    KeepsReflexive(env, tx);
    if !ValidCallback(awaited, awaiter) {
      NoAfter(tx);
    } else {
      var tx1 := TryTimeout(tx, [awaited, awaiter]);
      TimeoutSound(env, tx, [awaited, awaiter]);
      if out.tx != tx1 {
        PromiseFactsOf(env, tx1, awaiter) by { hide PromiseOk; }
        if tx1.db.promises[awaited].IsPending() {
          AddCallbackKeeps(env, tx1, awaited, awaiter);
          KeepsTransitive(env, tx, tx1, out.tx);
        } else {
          CanResumeOf(env, tx1, awaited, awaiter);
          ResumeKeeps(env, tx1, awaiter, awaited, false);
          KeepsTransitive(env, tx, tx1, out.tx);
          EvolvesParts(tx1, out.tx);
          QuietStays(tx1.after, tx1.db.tasks, out.tx.db.tasks);
        }
      }
    }
    SteadyIsSound(env, tx, out.tx, out.reply, out.mode);
  }

  lemma RegisterListenerOk(env: Env, tx: Tx, awaited: Id, address: Address)
    requires Fresh(env, tx)
    ensures HandledOk(env, tx, HandleRegisterListener(env, tx, awaited, address))
  {
    hide TxInv, Evolves, Quiet, Calm, AftersOk, AddListener;
    var out := HandleRegisterListener(env, tx, awaited, address);
    KeepsReflexive(env, tx);
    if !env.isUrl(address) {
      NoAfter(tx);
    } else {
      var tx1 := TryTimeout(tx, [awaited]);
      TimeoutSound(env, tx, [awaited]);
      if awaited in tx1.db.promises && tx1.db.promises[awaited].record.IsExternal() {
        AddListenerKeeps(env, tx1, awaited, address);
        KeepsTransitive(env, tx, tx1, out.tx);
      }
    }
    SteadyIsSound(env, tx, out.tx, out.reply, out.mode);
  }

  // ------------------------------------------------------------ task operations

  lemma AcquireAndViewKeeps(env: Env, tx: Tx, id: Id, pid: string, ttl: int)
    requires Steady(env, tx) && id in tx.db.tasks && tx.db.tasks[id].state.Pending?
    ensures var out := AcquireAndView(env, tx, tx.db.tasks[id], pid, ttl);
            Keeps(env, tx, out.tx) && Steady(env, out.tx) && out.mode.Commit?
  {
    hide TxInv, Evolves, Quiet, Acquire, TaskView;
    AcquireKeeps(env, tx, id, pid, ttl);
  }

  lemma TaskCreateOk(env: Env, tx: Tx, pid: string, ttl: int, kind: ActionKind, data: CreateData)
    requires Fresh(env, tx)
    ensures HandledOk(env, tx, HandleTaskCreate(env, tx, pid, ttl, kind, data))
  {
    hide TxInv, Evolves, Quiet, Calm, AftersOk, CreatePromise, ValidCreate, AcquireAndView, ClaimForCreate, TaskView,
      CreatedRecord;
    var out := HandleTaskCreate(env, tx, pid, ttl, kind, data);
    KeepsReflexive(env, tx);
    var tx1 := TryTimeout(tx, [data.id]);
    TimeoutSound(env, tx, [data.id]);
    if out == Refuse(tx, 400) {
      NoAfter(tx);
      SteadyIsSound(env, tx, out.tx, out.reply, out.mode);
    } else if data.id in tx1.db.tasks {
      var t := tx1.db.tasks[data.id];
      if t.state.Pending? {
        var tx2 := ClaimForCreate(tx1, t, ttl);
        ClaimForCreateKeeps(env, tx1, data.id, ttl);
        KeepsTransitive(env, tx, tx1, tx2);
        AcquireAndViewKeeps(env, tx2, data.id, pid, ttl);
        var acquired := AcquireAndView(env, tx2, t, pid, ttl);
        KeepsTransitive(env, tx, tx2, acquired.tx);
        assert out == acquired || out == Done(tx2, Err(409));
        SteadyIsSound(env, tx, out.tx, out.reply, out.mode);
      } else {
        assert out.tx == tx1 && out.mode == Commit;
        SteadyIsSound(env, tx, out.tx, out.reply, out.mode);
      }
    } else if data.id in tx1.db.promises {
      SteadyIsSound(env, tx, out.tx, out.reply, out.mode);
    } else {
      CreateKeeps(env, tx1, data, None, CreateAcquire(pid, ttl));
      KeepsTransitive(env, tx, tx1, out.tx);
    }
  }

  lemma TaskAcquireOk(env: Env, tx: Tx, id: Id, version: int, pid: string, ttl: int)
    requires Fresh(env, tx)
    ensures HandledOk(env, tx, HandleTaskAcquire(env, tx, id, version, pid, ttl))
  {
    hide TxInv, Evolves, Quiet, Calm, AftersOk, AcquireAndView;
    var out := HandleTaskAcquire(env, tx, id, version, pid, ttl);
    var tx1 := TryTimeout(tx, [id]);
    TimeoutSound(env, tx, [id]);
    if id in tx1.db.tasks && tx1.db.tasks[id].state.Pending? && tx1.db.tasks[id].version == version {
      AcquireAndViewKeeps(env, tx1, id, pid, ttl);
      KeepsTransitive(env, tx, tx1, out.tx);
    }
    SteadyIsSound(env, tx, out.tx, out.reply, out.mode);
  }

  /** An action added to a quiet transaction. */
  lemma ThenSound(env: Env, tx: Tx, tx': Tx, a: After, reply: Reply, mode: Mode)
    requires Keeps(env, tx, tx') && Quiet(tx'.after, tx'.db.tasks)
    requires AfterOk(tx'.db.tasks, AllJobs(tx'), tx'.queue.nextJob, a) && SparesStaged(tx'.staged, a)
    ensures Sound(env, tx, Outcome(Then(tx', a), reply, mode))
  {
    hide DbInv, HeldOk, AllJobs, PromisesEvolve, TasksEvolve, NoSuspends, Wakes, Tells, SentGrows, StagedGrows,
      AfterOk, Quiet;
    AllJobsOf(tx', Then(tx', a));
    ThenAfters(tx', a);
  }

  lemma ThenAfters(tx: Tx, a: After)
    requires Quiet(tx.after, tx.db.tasks) && AfterOk(tx.db.tasks, AllJobs(tx), tx.queue.nextJob, a)
    requires SparesStaged(tx.staged, a)
    ensures AftersOk(Then(tx, a))
  {
    hide AllJobs;
    AllJobsOf(tx, Then(tx, a));
  }

  lemma TaskReleaseOk(env: Env, tx: Tx, id: Id, version: int)
    requires Fresh(env, tx)
    ensures HandledOk(env, tx, HandleTaskRelease(tx, id, version))
  {
    hide TxInv, Evolves, Quiet, Calm, AftersOk;
    var out := HandleTaskRelease(tx, id, version);
    var tx1 := TryTimeout(tx, [id]);
    TimeoutSound(env, tx, [id]);
    if id in tx1.db.tasks && tx1.db.tasks[id].IsAcquiredAt(version) {
      ReleaseKeeps(env, tx1, id);
      var tx2 := PutTask(tx1, tx1.db.tasks[id].Transition(TaskState.Pending));
      KeepsTransitive(env, tx, tx1, tx2);
      ThenSound(env, tx, tx2, NackHeld(id), out.reply, out.mode);
    } else {
      SteadyIsSound(env, tx, out.tx, out.reply, out.mode);
    }
  }

  lemma TaskFulfillOk(env: Env, tx: Tx, id: Id, version: int, kind: ActionKind, data: SettleData)
    requires Fresh(env, tx)
    ensures HandledOk(env, tx, HandleTaskFulfill(tx, id, version, kind, data))
    ensures HandleTaskFulfill(tx, id, version, kind, data).mode.CommitAck? ==>
              FulfilSound(env, tx, HandleTaskFulfill(tx, id, version, kind, data))
  {
    hide TxInv, Evolves, Quiet, AftersOk, SettleIfPending, AfterHolds, TasksCalm;
    var out := HandleTaskFulfill(tx, id, version, kind, data);
    KeepsReflexive(env, tx);
    var tx1 := TryTimeout(tx, [id]);
    TimeoutSound(env, tx, [id]);
    if out.mode.Discard? {
      NoAfter(tx);
      SteadyIsSound(env, tx, out.tx, out.reply, out.mode);
    } else if out.mode.CommitAck? {
      assert id in [id];
      SettleIfPendingKeeps(env, tx1, data);
      KeepsTransitive(env, tx, tx1, out.tx);
      SteadyIsSound(env, tx, out.tx, out.reply, out.mode);
      EvolvesParts(tx1, out.tx);
      assert id in out.tx.db.tasks by { hide PromisesEvolve, NoSuspends, SentGrows, StagedGrows; }
      TaskFactsOf(env, out.tx, id) by { hide TaskJobOk, CanResume; }
    } else {
      AfterHoldsKeeps(env, tx1, id);
      KeepsTransitive(env, tx, tx1, AfterHolds(tx1, id));
      SteadyIsSound(env, tx, out.tx, out.reply, out.mode);
    }
  }

  /** The registrations of a suspend. */
  lemma {:induction false} AddCallbacksKeeps(env: Env, tx: Tx, awaited: seq<Id>, awaiter: Id)
    requires Steady(env, tx)
    requires forall a :: a in awaited ==>
               && a in tx.db.promises && tx.db.promises[a].IsPending() && tx.db.promises[a].record.IsExternal()
               && awaiter != a && OriginOf(awaiter) == OriginOf(a)
    requires awaiter in tx.db.tasks && awaiter in tx.db.promises
    ensures var tx' := AddCallbacks(tx, awaited, awaiter);
            && Keeps(env, tx, tx') && Steady(env, tx')
            && tx' == tx.(db := tx.db.(promises := tx'.db.promises)) && tx'.db.promises.Keys == tx.db.promises.Keys
            && (forall id :: id in tx.db.promises ==> tx'.db.promises[id].record == tx.db.promises[id].record)
            && (forall a :: a in awaited ==> awaiter in tx'.db.promises[a].callbacks)
    decreases |awaited|
  {
    hide TxInv, Evolves, Quiet, OriginOf, AddCallback;
    KeepsReflexive(env, tx);
    if awaited != [] {
      var a := awaited[0];
      assert a in awaited;
      var mid := AddCallback(tx, a, awaiter);
      AddCallbackKeeps(env, tx, a, awaiter);
      AddCallbacksKeeps(env, mid, awaited[1..], awaiter);
      var tx' := AddCallbacks(mid, awaited[1..], awaiter);
      KeepsTransitive(env, tx, mid, tx');
      EvolvesParts(mid, tx');
      assert PromiseEvolves(mid.db.promises[a], tx'.db.promises[a], mid.now);
    }
  }

  lemma ClearResumesKeeps(env: Env, tx: Tx, id: Id)
    requires Steady(env, tx) && id in tx.db.tasks && tx.db.tasks[id].state.Acquired?
    ensures var tx' := PutTask(tx, tx.db.tasks[id].(resumes := {})); Keeps(env, tx, tx') && Steady(env, tx')
  {
    hide TxInv, Evolves, Quiet, CanResume, AllJobs;
    TaskFactsOf(env, tx, id);
    var tx' := PutTask(tx, tx.db.tasks[id].(resumes := {}));
    PutTaskKeeps(env, tx, tx.db.tasks[id].(resumes := {}));
    EvolvesParts(tx, tx');
    QuietStays(tx.after, tx.db.tasks, tx'.db.tasks);
  }

  /** The promises a suspend registers with. */
  lemma AwaitedFacts(id: Id, actions: seq<SuspendAction>)
    requires ValidActions(id, actions)
    ensures forall a :: a in AwaitedIds(actions) ==> a != id && OriginOf(a) == OriginOf(id)
    ensures Distinct(AwaitedIds(actions)) && AwaitedIds(actions) != []
  {
    hide OriginOf;
  }

  lemma AcquiredStays(tx: Tx, tx': Tx, id: Id)
    requires Evolves(tx, tx') && Calm(tx, tx') && id in tx'.db.tasks && tx'.db.tasks[id].state.Acquired?
    ensures id in tx.db.tasks && tx.db.tasks[id].state.Acquired? && tx.db.tasks[id].version == tx'.db.tasks[id].version
    ensures tx.db.tasks[id].pid == tx'.db.tasks[id].pid
  {
    hide PromisesEvolve, NoSuspends, Wakes, Tells, SentGrows, StagedGrows;
    assert TaskCalm(tx.db.tasks[id], tx'.db.tasks[id]);
  }

  lemma TaskSuspendOk(env: Env, tx: Tx, id: Id, version: int, actions: seq<SuspendAction>)
    requires Fresh(env, tx)
    ensures HandledOk(env, tx, HandleTaskSuspend(env, tx, id, version, actions))
  {
    hide TxInv, Evolves, Quiet, Calm, AftersOk, OriginOf, AfterHolds, ValidActions, AwaitedIds, AddCallbacks,
      SuspendTask;
    var out := HandleTaskSuspend(env, tx, id, version, actions);
    KeepsReflexive(env, tx);
    var awaited := AwaitedIds(actions);
    var tx1 := TryTimeout(tx, [id] + awaited);
    TimeoutSound(env, tx, [id] + awaited);
    if out.mode.Discard? {
      NoAfter(tx);
      SteadyIsSound(env, tx, out.tx, out.reply, out.mode);
    } else if out.mode.CommitAck? {
      AwaitedFacts(id, actions);
      PromiseOfTask(env, tx1, id);
      assert forall a :: a in awaited ==> Awaitable(tx1, a) && tx1.db.promises[a].IsPending();
      var mid := AddCallbacks(tx1, awaited, id);
      AddCallbacksKeeps(env, tx1, awaited, id);
      KeepsTransitive(env, tx, tx1, mid);
      AcquiredStays(tx, tx1, id);
      assert SuspendSound(env, tx, mid, out);
    } else if out.reply == Err(404) || id !in tx1.db.tasks || !tx1.db.tasks[id].IsAcquiredAt(version) {
      SteadyIsSound(env, tx, out.tx, out.reply, out.mode);
    } else {
      AfterHoldsKeeps(env, tx1, id);
      KeepsTransitive(env, tx, tx1, AfterHolds(tx1, id));
      ClearResumesKeeps(env, tx1, id);
      KeepsTransitive(env, tx, tx1, PutTask(tx1, tx1.db.tasks[id].(resumes := {})));
      SteadyIsSound(env, tx, out.tx, out.reply, out.mode);
    }
  }

  lemma PromiseOfTask(env: Env, tx: Tx, id: Id)
    requires TxInv(env, tx) && id in tx.db.tasks
    ensures id in tx.db.promises && tx.db.tasks[id].id == id
  {
    hide TxInv, TaskJobOk, CanResume;
    TaskFactsOf(env, tx, id);
  }

  lemma TaskFenceOk(env: Env, tx: Tx, id: Id, version: int, actionId: Option<Id>, body: FenceBody)
    requires Fresh(env, tx)
    ensures HandledOk(env, tx, HandleTaskFence(env, tx, id, version, actionId, body))
  {
    hide TxInv, Evolves, Quiet, Calm, AftersOk, OriginOf, CreatePromise, ValidCreate, SettleIfPending, CreatedRecord;
    var out := HandleTaskFence(env, tx, id, version, actionId, body);
    KeepsReflexive(env, tx);
    if actionId.None? || actionId.value == id || OriginOf(actionId.value) != OriginOf(id) {
      NoAfter(tx);
    } else {
      var aid := actionId.value;
      var tx1 := TryTimeout(tx, [id, aid]);
      TimeoutSound(env, tx, [id, aid]);
      if id in tx1.db.tasks && tx1.db.tasks[id].IsAcquiredAt(version) {
        match body
        case FenceCreate(timeoutAt, param, tags) =>
          var data := CreateData(aid, timeoutAt, param, tags);
          if ValidCreate(env, data) && aid !in tx1.db.promises {
            CreateKeeps(env, tx1, data, None, CreateDispatch);
            KeepsTransitive(env, tx, tx1, CreatePromise(tx1, data, None, CreateDispatch));
          }
        case FenceSettle(state, value) =>
          assert aid in [id, aid];
          SettleIfPendingKeeps(env, tx1, SettleData(aid, state, value));
          KeepsTransitive(env, tx, tx1, SettleIfPending(tx1, SettleData(aid, state, value)));
        case _ =>
      }
    }
    SteadyIsSound(env, tx, out.tx, out.reply, out.mode);
  }

  lemma TaskHeartbeatOk(env: Env, tx: Tx, pid: string, beats: seq<(Id, int)>)
    requires Fresh(env, tx)
    ensures HandledOk(env, tx, Done(Beats(tx, pid, beats), Ok(200, NoBody)))
  {
    hide TxInv, Evolves, Quiet, AftersOk, Beats;
    NoAfter(tx);
    BeatsKeep(env, tx, pid, beats);
    SteadyIsSound(env, tx, Beats(tx, pid, beats), Ok(200, NoBody), Commit);
  }

  lemma TaskGetOk(env: Env, tx: Tx, id: Id)
    requires Fresh(env, tx)
    ensures HandledOk(env, tx, HandleTaskGet(tx, id))
  {
    hide TxInv, Evolves, Quiet, Calm, AftersOk;
    var out := HandleTaskGet(tx, id);
    TimeoutSound(env, tx, [id]);
    SteadyIsSound(env, tx, out.tx, out.reply, out.mode);
  }

  lemma TaskHaltOk(env: Env, tx: Tx, id: Id)
    requires Fresh(env, tx)
    ensures HandledOk(env, tx, HandleTaskHalt(tx, id))
  {
    hide TxInv, Evolves, Quiet, Calm, AftersOk;
    var out := HandleTaskHalt(tx, id);
    var tx1 := TryTimeout(tx, [id]);
    TimeoutSound(env, tx, [id]);
    if id in tx1.db.tasks && !tx1.db.tasks[id].state.Fulfilled? && !tx1.db.tasks[id].state.Halted? {
      PromiseOfTask(env, tx1, id);
      HaltKeeps(env, tx1, id);
      var tx2 := PutTask(tx1, tx1.db.tasks[id].Transition(TaskState.Halted));
      KeepsTransitive(env, tx, tx1, tx2);
      ThenSound(env, tx, tx2, Release(id), out.reply, out.mode);
    } else {
      SteadyIsSound(env, tx, out.tx, out.reply, out.mode);
    }
  }

  /** The job of a task that was halted before the request is not one the request
      enqueued. */
  lemma HaltedJobIsOld(env: Env, tx: Tx, tx': Tx, id: Id)
    requires Fresh(env, tx) && Calm(tx, tx') && id in tx'.db.tasks && tx'.db.tasks[id].state.Halted?
    ensures tx'.db.tasks[id].job.Some? ==> tx'.db.tasks[id].job.value !in tx'.staged
  {
    hide Keyed, Agree, PromisesOk, CallbacksOk, ResumesOk, TimersOk, SchedulesOk, IndexOk, SentOk, HeldOk, AllJobs;
    assert TaskCalm(tx.db.tasks[id], tx'.db.tasks[id]);
    assert TaskJobOk(tx.db.tasks[id], AllJobs(tx), tx.queue.nextJob);
  }

  lemma TaskContinueOk(env: Env, tx: Tx, id: Id)
    requires Fresh(env, tx)
    ensures HandledOk(env, tx, HandleTaskContinue(tx, id))
  {
    hide TxInv, Evolves, Quiet, Calm, AftersOk, ContinueTask;
    var out := HandleTaskContinue(tx, id);
    var tx1 := TryTimeout(tx, [id]);
    TimeoutSound(env, tx, [id]);
    if id in tx1.db.tasks && tx1.db.tasks[id].state.Halted? {
      HaltedJobIsOld(env, tx, tx1, id);
      ContinueKeeps(env, tx1, id);
      KeepsTransitive(env, tx, tx1, out.tx);
    }
    SteadyIsSound(env, tx, out.tx, out.reply, out.mode);
  }

  // -------------------------------------------------------- schedule operations

  lemma ScheduleCreateOk(env: Env, tx: Tx, id: Id, cron: string, promiseId: string,
                         promiseTimeout: int, promiseParam: Value, promiseTags: Tags)
    requires Fresh(env, tx) && env.Ok()
    ensures HandledOk(env, tx, HandleScheduleCreate(env, tx, id, cron, promiseId, promiseTimeout, promiseParam, promiseTags))
  {
    hide TxInv, Evolves, Quiet, AftersOk;
    var out := HandleScheduleCreate(env, tx, id, cron, promiseId, promiseTimeout, promiseParam, promiseTags);
    KeepsReflexive(env, tx);
    NoAfter(tx);
    if out.mode.Commit? {
      var next := env.nextAfter(cron, tx.now).value;
      var s := ScheduleRecord(id, cron, promiseId, promiseTimeout, promiseParam, promiseTags, tx.now, next, None);
      NewScheduleKeeps(env, tx, s);
    }
    SteadyIsSound(env, tx, out.tx, out.reply, out.mode);
  }

  lemma ScheduleDeleteOk(env: Env, tx: Tx, id: Id)
    requires Fresh(env, tx)
    ensures HandledOk(env, tx, HandleScheduleDelete(tx, id))
  {
    hide TxInv, Evolves, Quiet, AftersOk, DeleteSchedule;
    var out := HandleScheduleDelete(tx, id);
    KeepsReflexive(env, tx);
    NoAfter(tx);
    DeleteScheduleKeeps(env, tx, id);
    SteadyIsSound(env, tx, out.tx, out.reply, out.mode);
  }

  lemma ReadOnlyOk(env: Env, tx: Tx, reply: Reply)
    requires Fresh(env, tx)
    ensures HandledOk(env, tx, Outcome(tx, reply, Discard))
  {
    hide TxInv, Evolves, Quiet, AftersOk;
    KeepsReflexive(env, tx);
    NoAfter(tx);
    SteadyIsSound(env, tx, tx, reply, Discard);
  }

  /** Every request keeps the invariant. */
  lemma HandleOk(env: Env, tx: Tx, req: Request)
    requires Fresh(env, tx) && env.Ok()
    ensures HandledOk(env, tx, Handle(env, tx, req))
  {
    hide Fresh, HandledOk, HandlePromiseCreate, HandlePromiseGet, HandlePromiseSettle, HandleRegisterCallback,
      HandleRegisterListener, HandleTaskCreate, HandleTaskAcquire, HandleTaskRelease, HandleTaskFulfill,
      HandleTaskSuspend, HandleTaskFence, HandleTaskGet, HandleTaskHalt, HandleTaskContinue, HandleScheduleCreate,
      HandleScheduleGet, HandleScheduleDelete, SearchReply, Beats;
    match req
    case PromiseCreate(data) => PromiseCreateOk(env, tx, data);
    case PromiseGet(id) => PromiseGetOk(env, tx, id);
    case PromiseSettle(data) => PromiseSettleOk(env, tx, data);
    case RegisterCallback(awaited, awaiter) => RegisterCallbackOk(env, tx, awaited, awaiter);
    case RegisterListener(awaited, address) => RegisterListenerOk(env, tx, awaited, address);
    case TaskCreate(pid, ttl, kind, data) => TaskCreateOk(env, tx, pid, ttl, kind, data);
    case TaskAcquire(id, version, pid, ttl) => TaskAcquireOk(env, tx, id, version, pid, ttl);
    case TaskRelease(id, version) => TaskReleaseOk(env, tx, id, version);
    case TaskFulfill(id, version, kind, data) => TaskFulfillOk(env, tx, id, version, kind, data);
    case TaskSuspend(id, version, actions) => TaskSuspendOk(env, tx, id, version, actions);
    case TaskFence(id, version, actionId, body) => TaskFenceOk(env, tx, id, version, actionId, body);
    case TaskHeartbeat(pid, beats) => TaskHeartbeatOk(env, tx, pid, beats);
    case TaskGet(id) => TaskGetOk(env, tx, id);
    case TaskHalt(id) => TaskHaltOk(env, tx, id);
    case TaskContinue(id) => TaskContinueOk(env, tx, id);
    case ScheduleCreate(id, cron, promiseId, timeout, param, tags) =>
      ScheduleCreateOk(env, tx, id, cron, promiseId, timeout, param, tags);
    case ScheduleGet(id) => ScheduleGetIs(tx, id); ReadOnlyOk(env, tx, HandleScheduleGet(tx, id).reply);
    case ScheduleDelete(id) => ScheduleDeleteOk(env, tx, id);
    case PromiseSearch(_, _, _, _) => ReadOnlyOk(env, tx, SearchReply(tx.db, req));
    case TaskSearch(_, _, _) => ReadOnlyOk(env, tx, SearchReply(tx.db, req));
    case ScheduleSearch(_, _, _) => ReadOnlyOk(env, tx, SearchReply(tx.db, req));
  }

  lemma ScheduleGetIs(tx: Tx, id: Id)
    ensures HandleScheduleGet(tx, id) == Outcome(tx, HandleScheduleGet(tx, id).reply, Discard)
  {
  }

  // ------------------------------------------------------- deliveries and timers

  /** A delivery of a claim of a delivery job. */
  lemma DeliverOk(env: Env, tx: Tx, claim: Claim)
    requires Fresh(env, tx) && ClaimFor(claim, AllJobs(tx), tx.queue.nextJob, claim.payload)
    requires claim.payload.Execute? || claim.payload.Unblock?
    ensures Sound(env, tx, Deliver(tx, claim))
    ensures Deliver(tx, claim).mode.Commit?
  {
    hide TxInv, Evolves, Quiet, Calm, AftersOk, AllJobs;
    var out := Deliver(tx, claim);
    KeepsReflexive(env, tx);
    NoAfter(tx);
    match claim.payload
    case Unblock(r) => ThenSound(env, tx, tx, AckClaim(claim), out.reply, out.mode);
    case Execute(id) =>
      var tx1 := TryTimeout(tx, [id]);
      TimeoutSound(env, tx, [id]);
      ClaimStays(tx, tx1, claim, claim.payload);
      if id in tx1.db.tasks && tx1.db.tasks[id].state.Acquired? {
        ReleaseKeeps(env, tx1, id);
        var tx2 := PutTask(tx1, tx1.db.tasks[id].Transition(TaskState.Pending));
        KeepsTransitive(env, tx, tx1, tx2);
        AllJobsOf(tx1, tx2);
        ThenSound(env, tx, tx2, Hold(id, claim), out.reply, out.mode);
      } else if id in tx1.db.tasks && tx1.db.tasks[id].state.Pending? {
        ThenSound(env, tx, tx1, Hold(id, claim), out.reply, out.mode);
      } else {
        ThenSound(env, tx, tx1, AckClaim(claim), out.reply, out.mode);
      }
  }

  /** A claim names the same job throughout: job ids are fresh. */
  lemma ClaimStays(tx: Tx, tx': Tx, claim: Claim, payload: Payload)
    requires tx.staged == map[] && Evolves(tx, tx') && ClaimFor(claim, AllJobs(tx), tx.queue.nextJob, payload)
    ensures ClaimFor(claim, AllJobs(tx'), tx'.queue.nextJob, payload)
  {
    hide PromisesEvolve, TasksEvolve, NoSuspends, Wakes, Tells, SentGrows;
  }

  /** A timer that is not early. */
  ghost predicate TimerDue(db: Db, timer: Payload, now: int) {
    match timer
    case PromiseTimeout(id) => id in db.promises && db.promises[id].record.timeoutAt <= now
    case ScheduleFire(_, at) => at <= now
    case _ => false
  }

  /** A timer that has nothing more to do: its promise is settled, or its schedule
      needs no firing for which this job would be the only timer. */
  lemma FireOk(env: Env, tx: Tx, timer: Payload)
    requires Fresh(env, tx) && env.Ok() && TimerDue(tx.db, timer, tx.now)
    ensures Sound(env, tx, Fire(env, tx, timer)) && !Fire(env, tx, timer).mode.CommitAck?
  {
    hide TxInv, Evolves, Quiet, AftersOk, ExpirePromise, FireSchedule, FiredPromiseId, CreatedRecord;
    var out := Fire(env, tx, timer);
    KeepsReflexive(env, tx);
    NoAfter(tx);
    match timer {
      case PromiseTimeout(id) =>
        if tx.db.promises[id].IsPending() {
          ExpireKeeps(env, tx, id) by { hide Calm; }
        }
      case ScheduleFire(id, at) =>
        if id in tx.db.schedules && tx.db.schedules[id].nextRunAt == at {
          FireScheduleKeeps(env, tx, id);
        }
    }
    SteadyIsSound(env, tx, out.tx, out.reply, out.mode);
  }
}
