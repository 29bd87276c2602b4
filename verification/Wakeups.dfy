/** A suspended task wakes when an awaited promise first settles: whatever step
    settles it leaves the task pending, with one new job. */
module Wakeups {
  import opened Records
  import opened Queues
  import opened Transaction
  import opened Kernel
  import opened Invariant
  import opened Steps
  import opened Operations
  import opened Handlers
  import opened Worlds
  import opened Commits
  import opened Runs
  import opened Theorems
  import opened Frames

  /** A task that waits, or waits to run, and whose own deadline is ahead. */
  predicate Ready(db: Db, now: int, c: Id) {
    && c in db.tasks && (db.tasks[c].state.Suspended? || db.tasks[c].state.Pending?)
    && c in db.promises && db.promises[c].IsPending() && now < db.promises[c].record.timeoutAt
  }

  ghost predicate KeepsReady(db: Db, db': Db, now: int, acted: set<Id>) {
    forall c :: Ready(db, now, c) && c !in acted ==> Ready(db', now, c)
  }

  ghost predicate SettlesOnly(promises: Promises, promises': Promises, settled: set<Id>) {
    forall p :: p in promises && promises[p].IsPending() && p !in settled ==> p in promises' && promises'[p].IsPending()
  }

  /** A transition touches no ready task, or one subject only, and then it settles no
      other promise. */
  ghost predicate Rouses(db: Db, db': Db, now: int) {
    || KeepsReady(db, db', now, {})
    || exists x :: OneSubject(db, db', now, x)
  }

  ghost predicate OneSubject(db: Db, db': Db, now: int, x: Id) {
    KeepsReady(db, db', now, {x}) && SettlesOnly(db.promises, db'.promises, {x})
  }

  lemma KeepsReadyTransitive(a: Db, b: Db, c: Db, now: int, acted: set<Id>)
    requires KeepsReady(a, b, now, acted) && KeepsReady(b, c, now, acted)
    ensures KeepsReady(a, c, now, acted)
  {
    hide Ready;
  }

  lemma SettlesOnlyTransitive(a: Promises, b: Promises, c: Promises, settled: set<Id>)
    requires SettlesOnly(a, b, settled) && SettlesOnly(b, c, settled)
    ensures SettlesOnly(a, c, settled)
  {
  }

  lemma MoreActed(db: Db, db': Db, now: int, acted: set<Id>, more: set<Id>)
    requires KeepsReady(db, db', now, acted) && acted <= more
    ensures KeepsReady(db, db', now, more)
  {
    hide Ready;
  }

  // ------------------------------------------------------------------ settlement

  /** One task, of the same state or resumed. */
  predicate OneResumed(tasks: Tasks, tasks': Tasks, c: Id) {
    tasks' == tasks ||
    (c in tasks && c in tasks' && tasks' == tasks[c := tasks'[c]]
     && (tasks'[c].state == tasks[c].state || (tasks[c].state.Suspended? && tasks'[c].state.Pending?)))
  }

  lemma ResumeShape(tx: Tx, c: Id, awaited: Id, fanout: bool)
    requires KeyedBy(tx.db.tasks)
    ensures var tx' := ResumeAwaiter(tx, c, awaited, fanout);
            tx'.now == tx.now && tx'.db.promises == tx.db.promises && OneResumed(tx.db.tasks, tx'.db.tasks, c)
  {
    if c in tx.db.tasks {
      assert tx.db.tasks[c].id == c;
    }
  }

  lemma ResumedIsReady(db: Db, db': Db, now: int, c: Id)
    requires db'.promises == db.promises && OneResumed(db.tasks, db'.tasks, c)
    ensures KeepsReady(db, db', now, {})
  {
  }

  lemma ResumeReady(tx: Tx, c: Id, awaited: Id, fanout: bool)
    requires KeyedBy(tx.db.tasks)
    ensures KeepsReady(tx.db, ResumeAwaiter(tx, c, awaited, fanout).db, tx.now, {})
    ensures ResumeAwaiter(tx, c, awaited, fanout).now == tx.now
  {
    hide ResumeAwaiter, KeyedBy, OneResumed, KeepsReady;
    ResumeShape(tx, c, awaited, fanout);
    ResumedIsReady(tx.db, ResumeAwaiter(tx, c, awaited, fanout).db, tx.now, c);
  }

  lemma FanoutOneReady(tx: Tx, c: Id, awaited: Id)
    requires KeyedBy(tx.db.tasks)
    ensures KeepsReady(tx.db, FanoutOne(tx, c, awaited).db, tx.now, {}) && FanoutOne(tx, c, awaited).now == tx.now
  {
    hide ResumeAwaiter, KeyedBy, KeepsReady;
    ResumeReady(tx, c, awaited, true);
    SameReady(tx.db, tx.now);
  }

  lemma {:induction false} FanoutReady(tx: Tx, callbacks: seq<Id>, awaited: Id)
    requires KeyedBy(tx.db.tasks)
    ensures KeepsReady(tx.db, Fanout(tx, callbacks, awaited).db, tx.now, {})
    decreases |callbacks|
  {
    hide FanoutOne, KeyedBy, KeepsReady, Calm;
    if callbacks != [] {
      var tx1 := FanoutOne(tx, callbacks[0], awaited);
      FanoutOneReady(tx, callbacks[0], awaited);
      FanoutOneCalm(tx, callbacks[0], awaited);
      FanoutReady(tx1, callbacks[1..], awaited);
      KeepsReadyTransitive(tx.db, tx1.db, Fanout(tx1, callbacks[1..], awaited).db, tx.now, {});
    } else {
      assert KeepsReady(tx.db, tx.db, tx.now, {}) by { SameReady(tx.db, tx.now); }
    }
  }

  lemma SameReady(db: Db, now: int)
    ensures KeepsReady(db, db, now, {})
  {
  }

  lemma SettleRecordReady(tx: Tx, r: PromiseRecord)
    requires KeyedBy(tx.db.tasks)
    ensures KeepsReady(tx.db, SettleRecord(tx, r).db, tx.now, {r.id}) && SettleRecord(tx, r).now == tx.now
  {
  }

  lemma SettleChainReady(tx: Tx, p: Promise)
    requires KeyedBy(tx.db.tasks) && p.record.id in tx.db.promises
    ensures KeepsReady(tx.db, SettleChain(tx, p).db, tx.now, {p.record.id})
    ensures SettlesOnly(tx.db.promises, SettleChain(tx, p).db.promises, {p.record.id})
  {
    SettlePromises(tx, p);
    var a := SettleRecord(tx, p.record);
    SettleRecordReady(tx, p.record);
    assert KeyedBy(a.db.tasks) by { SettleRecordCalm(tx, p.record); }
    hide SettleRecord, KeyedBy, Calm, KeepsReady;
    var b := Fanout(a, p.callbacks, p.record.id);
    FanoutReady(a, p.callbacks, p.record.id);
    SendUnblocksCalm(b, p.listeners, p.record);
    MoreActed(a.db, b.db, tx.now, {}, {p.record.id});
    KeepsReadyTransitive(tx.db, a.db, b.db, tx.now, {p.record.id});
  }

  lemma TimeoutOneReady(tx: Tx, id: Id)
    requires KeyedBy(tx.db.tasks) && KeyedPromises(tx.db.promises)
    ensures KeepsReady(tx.db, TimeoutOne(tx, id).db, tx.now, {})
    ensures SettlesOnly(tx.db.promises, TimeoutOne(tx, id).db.promises, {id})
  {
    hide SettleChain, KeyedBy;
    if id in tx.db.promises && tx.db.promises[id].Due(tx.now) {
      var p := tx.db.promises[id];
      SettleChainReady(tx, p.(record := p.record.Expired()));
    }
  }

  ghost predicate Tidy(tx: Tx) {
    KeyedBy(tx.db.tasks) && KeyedPromises(tx.db.promises)
  }

  lemma SteadyIsTidy(env: Env, tx: Tx)
    requires TxInv(env, tx)
    ensures Tidy(tx)
  {
    hide TxInv;
    KeyedTasks(env, tx);
  }

  /** Deadlines never touch a ready task but to resume it, and settle only what they
      name. */
  lemma {:induction false} TimeoutsReady(env: Env, tx: Tx, ids: seq<Id>, named: set<Id>)
    requires Steady(env, tx) && forall id :: id in ids ==> id in named
    ensures KeepsReady(tx.db, TryTimeout(tx, ids).db, tx.now, {})
    ensures SettlesOnly(tx.db.promises, TryTimeout(tx, ids).db.promises, named)
    decreases |ids|
  {
    hide Steady, TimeoutOne, KeepsReady, Tidy, KeyedBy, KeyedPromises, Calm, Evolves;
    if ids != [] {
      var tx1 := TimeoutOne(tx, ids[0]);
      TimeoutOneKeeps(env, tx, ids[0]);
      assert Tidy(tx) by { assert TxInv(env, tx) by { SteadyInv(env, tx); } SteadyIsTidy(env, tx); }
      assert tx1.now == tx.now by { EvolvesParts(tx, tx1); }
      assert KeyedBy(tx.db.tasks) && KeyedPromises(tx.db.promises) by { TidyParts(tx); }
      TimeoutOneReady(tx, ids[0]);
      TimeoutsReady(env, tx1, ids[1..], named);
      assert ids[0] in named;
      KeepsReadyTransitive(tx.db, tx1.db, TryTimeout(tx1, ids[1..]).db, tx.now, {});
      SettlesOnlyTransitive(tx.db.promises, tx1.db.promises, TryTimeout(tx1, ids[1..]).db.promises, named);
    } else {
      SameReady(tx.db, tx.now);
    }
  }

  lemma SteadyInv(env: Env, tx: Tx)
    requires Steady(env, tx)
    ensures TxInv(env, tx)
  {
    hide TxInv;
  }

  lemma TidyParts(tx: Tx)
    requires Tidy(tx)
    ensures KeyedBy(tx.db.tasks) && KeyedPromises(tx.db.promises)
  {
  }

  // -------------------------------------------------------------------- handlers

  /** The deadlines a request applies, before it acts on `x`. */
  lemma AppliedThen(env: Env, tx: Tx, ids: seq<Id>, named: set<Id>)
    requires Fresh(env, tx) && forall id :: id in ids ==> id in named
    ensures var tx1 := TryTimeout(tx, ids);
            && KeepsReady(tx.db, tx1.db, tx.now, {}) && SettlesOnly(tx.db.promises, tx1.db.promises, named)
            && tx1.now == tx.now && Tidy(tx1) && Steady(env, tx1)
  {
    hide TxInv, Evolves, Calm, KeepsReady, SettlesOnly, TryTimeout, Tidy;
    NoAfter(tx);
    assert Steady(env, tx) by { FreshIsSteady(env, tx); }
    hide Steady, Quiet;
    TimeoutsReady(env, tx, ids, named);
    TimeoutSound(env, tx, ids);
    EvolvesParts(tx, TryTimeout(tx, ids));
    SteadyInv(env, TryTimeout(tx, ids));
    SteadyIsTidy(env, TryTimeout(tx, ids));
  }

  lemma FreshIsSteady(env: Env, tx: Tx)
    requires Fresh(env, tx)
    ensures Steady(env, tx)
  {
    hide TxInv;
  }

  /** `db'` is `db` up to task and promise `x`. */
  predicate OnlyAt(db: Db, db': Db, x: Id) {
    && (forall c | c in db.tasks && c != x :: c in db'.tasks && db'.tasks[c] == db.tasks[c])
    && (forall c | c in db.promises && c != x :: c in db'.promises && db'.promises[c].record == db.promises[c].record)
  }

  lemma OnlyAtKeeps(db: Db, db': Db, now: int, x: Id)
    requires OnlyAt(db, db', x)
    ensures KeepsReady(db, db', now, {x}) && SettlesOnly(db.promises, db'.promises, {x})
  {
  }

  /** The deadlines of one promise, and then a change of its task and promise. */
  lemma ActsOnOne(env: Env, tx: Tx, ids: seq<Id>, x: Id, db': Db)
    requires Fresh(env, tx) && forall id :: id in ids ==> id == x
    requires OnlyAt(TryTimeout(tx, ids).db, db', x)
    ensures Rouses(tx.db, db', tx.now)
  {
    hide Fresh, KeepsReady, SettlesOnly, TryTimeout, Tidy, OnlyAt, Steady;
    var tx1 := TryTimeout(tx, ids);
    AppliedThen(env, tx, ids, {x});
    OnlyAtKeeps(tx1.db, db', tx.now, x);
    MoreActed(tx.db, tx1.db, tx.now, {}, {x});
    KeepsReadyTransitive(tx.db, tx1.db, db', tx.now, {x});
    SettlesOnlyTransitive(tx.db.promises, tx1.db.promises, db'.promises, {x});
    assert OneSubject(tx.db, db', tx.now, x);
  }

  lemma CreateOnlyAt(tx: Tx, data: CreateData, createdAt: Option<int>, mode: CreateMode)
    ensures OnlyAt(tx.db, CreatePromise(tx, data, createdAt, mode).db, data.id)
  {
    CreateLeaves(tx, data, createdAt, mode);
    CreateTasks(tx, data, createdAt, mode);
    hide CreatePromise, BranchKey, CreatedRecord;
  }

  lemma CreateTasks(tx: Tx, data: CreateData, createdAt: Option<int>, mode: CreateMode)
    ensures forall c :: c in tx.db.tasks && c != data.id ==>
              c in CreatePromise(tx, data, createdAt, mode).db.tasks
              && CreatePromise(tx, data, createdAt, mode).db.tasks[c] == tx.db.tasks[c]
  {
    hide CreateTask, CreateTimer, CreatedTask, CreatedJob, StagedGrows, BranchKey;
    var r := CreatedRecord(tx.now, data, createdAt);
    assert r.id == data.id;
    hide CreatedRecord;
    PlacedIs(tx, r);
    PlacedShape(tx, r);
    hide Placed;
    CreateTaskShape(Placed(tx, r), r, mode);
    CreateTimerShape(CreateTask(Placed(tx, r), r, mode), r);
  }

  lemma PromiseCreateRouses(env: Env, tx: Tx, data: CreateData)
    requires Fresh(env, tx)
    ensures Rouses(tx.db, HandlePromiseCreate(env, tx, data).tx.db, tx.now)
  {
    hide Fresh, TryTimeout, CreatePromise, ValidCreate, Rouses, OnlyAt;
    var tx1 := TryTimeout(tx, [data.id]);
    CreateOnlyAt(tx1, data, None, CreateDispatch);
    SameOnlyAt(tx1.db, data.id);
    SameRouses(tx.db, tx.now);
    if ValidCreate(env, data) {
      ActsOnOne(env, tx, [data.id], data.id, HandlePromiseCreate(env, tx, data).tx.db);
    }
  }

  lemma SameOnlyAt(db: Db, x: Id)
    ensures OnlyAt(db, db, x)
  {
  }

  lemma SameRouses(db: Db, now: int)
    ensures Rouses(db, db, now)
  {
    SameReady(db, now);
  }

  lemma PromiseGetRouses(env: Env, tx: Tx, ids: seq<Id>)
    requires Fresh(env, tx)
    ensures Rouses(tx.db, TryTimeout(tx, ids).db, tx.now)
  {
    hide Fresh, TryTimeout, KeepsReady, SettlesOnly, Tidy, Steady;
    AppliedThen(env, tx, ids, set id | id in ids);
  }

  /** Settling the promise a request names, after its deadlines. */
  lemma SettleReady(tx: Tx, data: SettleData)
    requires Tidy(tx)
    ensures KeepsReady(tx.db, SettleIfPending(tx, data).db, tx.now, {data.id})
    ensures SettlesOnly(tx.db.promises, SettleIfPending(tx, data).db.promises, {data.id})
  {
    hide SettleChain, KeyedBy;
    if data.id in tx.db.promises {
      var p := tx.db.promises[data.id];
      SettleChainReady(tx, p.(record := p.record.SettledBy(data.state, data.value, tx.now)));
    }
  }

  lemma PromiseSettleRouses(env: Env, tx: Tx, ids: seq<Id>, data: SettleData)
    requires Fresh(env, tx) && forall id :: id in ids ==> id == data.id
    ensures Rouses(tx.db, SettleIfPending(TryTimeout(tx, ids), data).db, tx.now)
  {
    hide Fresh, TryTimeout, KeepsReady, SettlesOnly, Tidy, Steady, SettleIfPending;
    var tx1 := TryTimeout(tx, ids);
    var x := data.id;
    AppliedThen(env, tx, ids, {x});
    SettleReady(tx1, data);
    var db' := SettleIfPending(tx1, data).db;
    MoreActed(tx.db, tx1.db, tx.now, {}, {x});
    KeepsReadyTransitive(tx.db, tx1.db, db', tx.now, {x});
    SettlesOnlyTransitive(tx.db.promises, tx1.db.promises, db'.promises, {x});
    assert OneSubject(tx.db, db', tx.now, x);
  }

  /** A change that only adds registrations or resumes a task. */
  lemma ThenReady(env: Env, tx: Tx, ids: seq<Id>, db': Db)
    requires Fresh(env, tx) && KeepsReady(TryTimeout(tx, ids).db, db', tx.now, {})
    ensures Rouses(tx.db, db', tx.now)
  {
    hide Fresh, TryTimeout, KeepsReady, SettlesOnly, Tidy, Steady;
    AppliedThen(env, tx, ids, set id | id in ids);
    KeepsReadyTransitive(tx.db, TryTimeout(tx, ids).db, db', tx.now, {});
  }

  /** The same records and tasks, whatever the registrations. */
  predicate SameRecords(db: Db, db': Db) {
    db'.tasks == db.tasks
    && forall c | c in db.promises :: c in db'.promises && db'.promises[c].record == db.promises[c].record
  }

  lemma SameRecordsReady(db: Db, db': Db, now: int)
    requires SameRecords(db, db')
    ensures KeepsReady(db, db', now, {})
  {
  }

  lemma CallbackSame(tx: Tx, awaited: Id, awaiter: Id)
    requires KeyedPromises(tx.db.promises) && awaited in tx.db.promises
    ensures SameRecords(tx.db, AddCallback(tx, awaited, awaiter).db)
    ensures KeyedPromises(AddCallback(tx, awaited, awaiter).db.promises)
  {
  }

  lemma ListenerSame(tx: Tx, awaited: Id, address: Address)
    requires KeyedPromises(tx.db.promises) && awaited in tx.db.promises
    ensures SameRecords(tx.db, AddListener(tx, awaited, address).db)
  {
  }

  lemma {:induction false} CallbacksSame(tx: Tx, awaited: seq<Id>, awaiter: Id)
    requires KeyedPromises(tx.db.promises) && forall a :: a in awaited ==> a in tx.db.promises
    ensures SameRecords(tx.db, AddCallbacks(tx, awaited, awaiter).db)
    decreases |awaited|
  {
    hide KeyedPromises, AddCallback;
    if awaited != [] {
      CallbackSame(tx, awaited[0], awaiter);
      CallbacksSame(AddCallback(tx, awaited[0], awaiter), awaited[1..], awaiter);
    }
  }

  lemma RegisterCallbackRouses(env: Env, tx: Tx, awaited: Id, awaiter: Id)
    requires Fresh(env, tx)
    ensures Rouses(tx.db, HandleRegisterCallback(tx, awaited, awaiter).tx.db, tx.now)
  {
    hide Fresh, TryTimeout, ValidCallback, Rouses, KeepsReady, SettlesOnly, Steady, AddCallback, ResumeAwaiter,
      SameRecords,
      KeyedBy, KeyedPromises;
    var ids := [awaited, awaiter];
    var tx1 := TryTimeout(tx, ids);
    var db' := HandleRegisterCallback(tx, awaited, awaiter).tx.db;
    AppliedThen(env, tx, ids, {awaited, awaiter});
    SameRouses(tx.db, tx.now);
    if ValidCallback(awaited, awaiter) {
      SameReady(tx1.db, tx.now);
      ResumeReady(tx1, awaiter, awaited, false);
      if awaited in tx1.db.promises {
        CallbackSame(tx1, awaited, awaiter);
        SameRecordsReady(tx1.db, AddCallback(tx1, awaited, awaiter).db, tx.now);
      }
      ThenReady(env, tx, ids, db');
    }
  }

  lemma RegisterListenerRouses(env: Env, tx: Tx, awaited: Id, address: Address)
    requires Fresh(env, tx)
    ensures Rouses(tx.db, HandleRegisterListener(env, tx, awaited, address).tx.db, tx.now)
  {
    hide Fresh, TryTimeout, Rouses, KeepsReady, SettlesOnly, Steady, AddListener, SameRecords, KeyedBy, KeyedPromises;
    var tx1 := TryTimeout(tx, [awaited]);
    AppliedThen(env, tx, [awaited], {awaited});
    SameRouses(tx.db, tx.now);
    if env.isUrl(address) {
      SameReady(tx1.db, tx.now);
      if awaited in tx1.db.promises {
        ListenerSame(tx1, awaited, address);
        SameRecordsReady(tx1.db, AddListener(tx1, awaited, address).db, tx.now);
      }
      ThenReady(env, tx, [awaited], HandleRegisterListener(env, tx, awaited, address).tx.db);
    }
  }

  // ---------------------------------------------------------------- task handlers

  lemma AcquireOnlyAt(env: Env, tx: Tx, id: Id, pid: string, ttl: int)
    requires Tidy(tx) && id in tx.db.tasks
    ensures OnlyAt(tx.db, AcquireAndView(env, tx, tx.db.tasks[id], pid, ttl).tx.db, id)
  {
    hide TaskView;
  }

  lemma TaskAcquireRouses(env: Env, tx: Tx, id: Id, version: int, pid: string, ttl: int)
    requires Fresh(env, tx)
    ensures Rouses(tx.db, HandleTaskAcquire(env, tx, id, version, pid, ttl).tx.db, tx.now)
  {
    hide Fresh, TryTimeout, AcquireAndView, Rouses, OnlyAt, KeepsReady, SettlesOnly, Tidy, Steady;
    var tx1 := TryTimeout(tx, [id]);
    AppliedThen(env, tx, [id], {id});
    SameOnlyAt(tx1.db, id);
    if id in tx1.db.tasks {
      AcquireOnlyAt(env, tx1, id, pid, ttl);
    }
    ActsOnOne(env, tx, [id], id, HandleTaskAcquire(env, tx, id, version, pid, ttl).tx.db);
  }

  lemma ClaimSameDb(tx: Tx, t: Task, ttl: int)
    ensures ClaimForCreate(tx, t, ttl).db == tx.db
  {
  }

  lemma TaskCreateRouses(env: Env, tx: Tx, pid: string, ttl: int, kind: ActionKind, data: CreateData)
    requires Fresh(env, tx)
    ensures Rouses(tx.db, HandleTaskCreate(env, tx, pid, ttl, kind, data).tx.db, tx.now)
  {
    hide Fresh, TryTimeout, AcquireAndView, Rouses, OnlyAt, KeepsReady, SettlesOnly, KeyedBy, KeyedPromises, Steady,
      CreatePromise,
      ClaimForCreate, TaskView, ValidCreate;
    var id := data.id;
    var tx1 := TryTimeout(tx, [id]);
    SameRouses(tx.db, tx.now);
    AppliedThen(env, tx, [id], {id});
    SameOnlyAt(tx1.db, id);
    CreateOnlyAt(tx1, data, None, CreateAcquire(pid, ttl));
    if id in tx1.db.tasks {
      ClaimSameDb(tx1, tx1.db.tasks[id], ttl);
      AcquireOnlyAt(env, ClaimForCreate(tx1, tx1.db.tasks[id], ttl), id, pid, ttl);
    }
    if !(OnlyAt(tx1.db, HandleTaskCreate(env, tx, pid, ttl, kind, data).tx.db, id)) {
      assert HandleTaskCreate(env, tx, pid, ttl, kind, data).tx == tx;
    } else {
      ActsOnOne(env, tx, [id], id, HandleTaskCreate(env, tx, pid, ttl, kind, data).tx.db);
    }
  }

  lemma TaskReleaseRouses(env: Env, tx: Tx, id: Id, version: int)
    requires Fresh(env, tx)
    ensures Rouses(tx.db, HandleTaskRelease(tx, id, version).tx.db, tx.now)
  {
    hide Fresh, TryTimeout, Rouses, KeepsReady, SettlesOnly, Steady, KeyedPromises;
    AppliedThen(env, tx, [id], {id});
    ActsOnOne(env, tx, [id], id, HandleTaskRelease(tx, id, version).tx.db);
  }

  lemma TaskHaltRouses(env: Env, tx: Tx, id: Id)
    requires Fresh(env, tx)
    ensures Rouses(tx.db, HandleTaskHalt(tx, id).tx.db, tx.now)
  {
    hide Fresh, TryTimeout, Rouses, KeepsReady, SettlesOnly, Steady, KeyedPromises;
    AppliedThen(env, tx, [id], {id});
    ActsOnOne(env, tx, [id], id, HandleTaskHalt(tx, id).tx.db);
  }

  lemma ContinueOnlyAt(tx: Tx, id: Id)
    requires Tidy(tx) && id in tx.db.tasks
    ensures OnlyAt(tx.db, ContinueTask(tx, tx.db.tasks[id]).db, id)
  {
  }

  lemma TaskContinueRouses(env: Env, tx: Tx, id: Id)
    requires Fresh(env, tx)
    ensures Rouses(tx.db, HandleTaskContinue(tx, id).tx.db, tx.now)
  {
    hide Fresh, TryTimeout, Rouses, KeepsReady, SettlesOnly, Steady, Tidy, OnlyAt, ContinueTask;
    var tx1 := TryTimeout(tx, [id]);
    AppliedThen(env, tx, [id], {id});
    SameOnlyAt(tx1.db, id);
    if id in tx1.db.tasks {
      ContinueOnlyAt(tx1, id);
    }
    ActsOnOne(env, tx, [id], id, HandleTaskContinue(tx, id).tx.db);
  }

  lemma TaskFulfillRouses(env: Env, tx: Tx, id: Id, version: int, kind: ActionKind, data: SettleData)
    requires Fresh(env, tx)
    ensures Rouses(tx.db, HandleTaskFulfill(tx, id, version, kind, data).tx.db, tx.now)
  {
    hide Fresh, TryTimeout, Rouses, SettleIfPending, AfterHolds;
    SameRouses(tx.db, tx.now);
    PromiseGetRouses(env, tx, [id]);
    HoldsLeavesDb(TryTimeout(tx, [id]), id);
    if data.id == id {
      PromiseSettleRouses(env, tx, [id], data);
    }
  }

  /** A task that is not ready can be acted on freely. */
  lemma NotReadySubject(db: Db, db': Db, now: int, id: Id)
    requires KeepsReady(db, db', now, {id}) && id in db.tasks && db.tasks[id].state.Acquired?
    ensures KeepsReady(db, db', now, {})
  {
  }

  lemma SuspendOnlyAt(tx: Tx, awaited: seq<Id>, id: Id, t: Task)
    requires Tidy(tx) && t.id == id && forall a :: a in awaited ==> a in tx.db.promises
    ensures OnlyAt(tx.db, SuspendTask(AddCallbacks(tx, awaited, id), t).db, id)
    ensures OnlyAt(tx.db, PutTask(tx, t.(resumes := {})).db, id)
  {
    hide AddCallbacks, KeyedBy;
    CallbacksSame(tx, awaited, id);
  }

  lemma TaskSuspendRouses(env: Env, tx: Tx, id: Id, version: int, actions: seq<SuspendAction>)
    requires Fresh(env, tx)
    ensures Rouses(tx.db, HandleTaskSuspend(env, tx, id, version, actions).tx.db, tx.now)
  {
    hide Fresh, TryTimeout, Rouses, KeepsReady, SettlesOnly, Steady, ValidActions, AwaitedIds, AddCallbacks,
      SuspendTask, AfterHolds,
      Preload, PutTask, OnlyAt;
    var ids := [id] + AwaitedIds(actions);
    var tx1 := TryTimeout(tx, ids);
    var db' := HandleTaskSuspend(env, tx, id, version, actions).tx.db;
    SameRouses(tx.db, tx.now);
    PromiseGetRouses(env, tx, ids);
    HoldsLeavesDb(tx1, id);
    AppliedThen(env, tx, ids, set i | i in ids);
    if id in tx1.db.tasks && tx1.db.tasks[id].state.Acquired? && forall a :: a in AwaitedIds(actions) ==> a in tx1.db.promises {
      var t := tx1.db.tasks[id];
      assert t.id == id by { hide KeyedPromises; }
      SuspendOnlyAt(tx1, AwaitedIds(actions), id, t);
      if OnlyAt(tx1.db, db', id) {
        OnlyAtKeeps(tx1.db, db', tx.now, id);
        NotReadySubject(tx1.db, db', tx.now, id);
        ThenReady(env, tx, ids, db');
      }
    }
    hide Tidy;
  }

  lemma AcquiredIsPending(env: Env, tx: Tx, id: Id)
    requires TxInv(env, tx) && id in tx.db.tasks && tx.db.tasks[id].state.Acquired?
    ensures id in tx.db.promises && tx.db.promises[id].IsPending()
  {
    hide Keyed, PromisesOk, CallbacksOk, ResumesOk, JobsOk, TimersOk, SchedulesOk, IndexOk, SentOk, HeldOk, AllJobs;
  }

  lemma OneFewerSettled(promises: Promises, promises': Promises, id: Id, aid: Id)
    requires SettlesOnly(promises, promises', {id, aid}) && id in promises' && promises'[id].IsPending()
    ensures SettlesOnly(promises, promises', {aid})
  {
  }

  /** A fence settles or creates its action's promise only. */
  lemma FenceActs(env: Env, tx: Tx, id: Id, aid: Id, db': Db)
    requires Fresh(env, tx)
    requires var tx1 := TryTimeout(tx, [id, aid]);
             && id in tx1.db.tasks && tx1.db.tasks[id].state.Acquired?
             && KeepsReady(tx1.db, db', tx.now, {aid}) && SettlesOnly(tx1.db.promises, db'.promises, {aid})
    ensures Rouses(tx.db, db', tx.now)
  {
    hide Fresh, TryTimeout, KeepsReady, SettlesOnly, Tidy, Steady;
    var tx1 := TryTimeout(tx, [id, aid]);
    AppliedThen(env, tx, [id, aid], {id, aid});
    SteadyInv(env, tx1);
    AcquiredIsPending(env, tx1, id) by { hide TxInv; }
    OneFewerSettled(tx.db.promises, tx1.db.promises, id, aid);
    MoreActed(tx.db, tx1.db, tx.now, {}, {aid});
    KeepsReadyTransitive(tx.db, tx1.db, db', tx.now, {aid});
    SettlesOnlyTransitive(tx.db.promises, tx1.db.promises, db'.promises, {aid});
    assert OneSubject(tx.db, db', tx.now, aid);
  }

  lemma TaskFenceRouses(env: Env, tx: Tx, id: Id, version: int, actionId: Option<Id>, body: FenceBody)
    requires Fresh(env, tx)
    ensures Rouses(tx.db, HandleTaskFence(env, tx, id, version, actionId, body).tx.db, tx.now)
  {
    hide Fresh, TryTimeout, Rouses, KeepsReady, SettlesOnly, Steady, CreatePromise, ValidCreate, SettleIfPending,
      Preload, OriginOf,
      OnlyAt, Tidy;
    SameRouses(tx.db, tx.now);
    if actionId.Some? {
      var aid := actionId.value;
      var tx1 := TryTimeout(tx, [id, aid]);
      PromiseGetRouses(env, tx, [id, aid]);
      AppliedThen(env, tx, [id, aid], {id, aid});
      if id in tx1.db.tasks && tx1.db.tasks[id].IsAcquiredAt(version) {
        SameOnlyAt(tx1.db, aid);
        if body.FenceCreate? {
          var data := CreateData(aid, body.timeoutAt, body.param, body.tags);
          CreateOnlyAt(tx1, data, None, CreateDispatch);
          var tx2 := if aid in tx1.db.promises then tx1 else CreatePromise(tx1, data, None, CreateDispatch);
          OnlyAtKeeps(tx1.db, tx2.db, tx.now, aid);
          FenceActs(env, tx, id, aid, tx2.db);
        } else if body.FenceSettle? {
          var data := SettleData(aid, body.state, body.value);
          SettleReady(tx1, data);
          FenceActs(env, tx, id, aid, SettleIfPending(tx1, data).db);
        }
      }
    }
  }

  lemma HandleRouses(env: Env, tx: Tx, req: Request)
    requires Fresh(env, tx)
    ensures Rouses(tx.db, Handle(env, tx, req).tx.db, tx.now)
  {
    hide Fresh, Rouses, HandlePromiseCreate, TryTimeout, SettleIfPending, HandleRegisterCallback,
      HandleRegisterListener,
      HandleTaskCreate, HandleTaskAcquire, HandleTaskRelease, HandleTaskFulfill, HandleTaskSuspend, HandleTaskFence,
      HandleTaskHalt, HandleTaskContinue, SearchReply, Beats;
    match req
    case PromiseCreate(data) => PromiseCreateRouses(env, tx, data);
    case PromiseGet(id) => PromiseGetRouses(env, tx, [id]);
    case PromiseSettle(data) => PromiseSettleRouses(env, tx, [data.id], data);
    case RegisterCallback(awaited, awaiter) => RegisterCallbackRouses(env, tx, awaited, awaiter);
    case RegisterListener(awaited, address) => RegisterListenerRouses(env, tx, awaited, address);
    case TaskCreate(pid, ttl, kind, data) => TaskCreateRouses(env, tx, pid, ttl, kind, data);
    case TaskAcquire(id, version, pid, ttl) => TaskAcquireRouses(env, tx, id, version, pid, ttl);
    case TaskRelease(id, version) => TaskReleaseRouses(env, tx, id, version);
    case TaskFulfill(id, version, kind, data) => TaskFulfillRouses(env, tx, id, version, kind, data);
    case TaskSuspend(id, version, actions) => TaskSuspendRouses(env, tx, id, version, actions);
    case TaskFence(id, version, actionId, body) => TaskFenceRouses(env, tx, id, version, actionId, body);
    case TaskHeartbeat(pid, beats) =>
      BeatsLeaveDb(tx, pid, beats);
      SameRouses(tx.db, tx.now);
    case TaskGet(id) => PromiseGetRouses(env, tx, [id]);
    case TaskHalt(id) => TaskHaltRouses(env, tx, id);
    case TaskContinue(id) => TaskContinueRouses(env, tx, id);
    case _ => OtherRouses(env, tx, req);
  }

  lemma OtherRouses(env: Env, tx: Tx, req: Request)
    requires IsOther(req)
    ensures Rouses(tx.db, Handle(env, tx, req).tx.db, tx.now)
  {
    hide Handle;
    OtherRequests(env, tx, req);
    SameTablesRouse(tx.db, Handle(env, tx, req).tx.db, tx.now);
  }

  lemma SameTablesRouse(db: Db, db': Db, now: int)
    requires db'.promises == db.promises && db'.tasks == db.tasks
    ensures Rouses(db, db', now)
  {
    assert KeepsReady(db, db', now, {});
  }

  // ------------------------------------------------------------------- other steps

  lemma DeliverRouses(env: Env, tx: Tx, claim: Claim)
    requires Fresh(env, tx)
    ensures Rouses(tx.db, Deliver(tx, claim).tx.db, tx.now)
  {
    hide Fresh, TryTimeout, Rouses, KeepsReady, SettlesOnly, Steady, KeyedPromises;
    SameRouses(tx.db, tx.now);
    if claim.payload.Execute? {
      var id := claim.payload.task;
      AppliedThen(env, tx, [id], {id});
      ActsOnOne(env, tx, [id], id, Deliver(tx, claim).tx.db);
    }
  }

  lemma FireRouses(env: Env, tx: Tx, timer: Payload)
    requires Fresh(env, tx)
    ensures Rouses(tx.db, Fire(env, tx, timer).tx.db, tx.now)
  {
    hide TxInv, SettleChain, FireSchedule, KeyedBy, KeyedPromises, KeepsReady, SettlesOnly;
    SameRouses(tx.db, tx.now);
    SteadyIsTidy(env, tx);
    if timer.PromiseTimeout? && timer.promiseId in tx.db.promises {
      var p := tx.db.promises[timer.promiseId];
      assert p.record.id == timer.promiseId by { TidyId(tx, timer.promiseId); }
      SettleChainReady(tx, p.(record := p.record.Expired()));
      assert Fire(env, tx, timer).tx.db == tx.db || OneSubject(tx.db, Fire(env, tx, timer).tx.db, tx.now, timer.promiseId);
    } else if timer.ScheduleFire? && timer.scheduleId in tx.db.schedules {
      FireScheduleRouses(env, tx, tx.db.schedules[timer.scheduleId]);
    }
  }

  lemma TidyId(tx: Tx, id: Id)
    requires Tidy(tx) && id in tx.db.promises
    ensures tx.db.promises[id].record.id == id
  {
  }

  lemma FireScheduleRouses(env: Env, tx: Tx, s: ScheduleRecord)
    ensures Rouses(tx.db, FireSchedule(env, tx, s).db, tx.now)
  {
    hide CreatePromise, FiredPromiseId, CreatedRecord, KeepsReady, SettlesOnly;
    var x := FiredPromiseId(s);
    SameOnlyAt(tx.db, x);
    CreateOnlyAt(tx, FiredData(s), Some(s.nextRunAt), CreateDispatch);
    assert OnlyAt(tx.db, FireSchedule(env, tx, s).db, x) by { hide Advance, FiredData; }
    OnlyAtKeeps(tx.db, FireSchedule(env, tx, s).db, tx.now, x);
    assert OneSubject(tx.db, FireSchedule(env, tx, s).db, tx.now, x);
  }

  lemma StepRouses(env: Env, w: World, step: Step)
    requires WorldInv(env, w)
    ensures Rouses(w.db, Next(env, w, step).db, w.now)
  {
    hide TxInv, InflightOk, AckingOk, Rouses, Handle, Resolve, Deliver, Fire;
    match step
    case Serve(req, fault) =>
      HandleRouses(env, Begin(w), req);
      CommittedDb(Begin(w), Handle(env, Begin(w), req), fault);
      SameRouses(w.db, w.now);
    case DeliverClaim(claim, fault) =>
      DeliverRouses(env, Begin(w), claim);
      CommittedDb(Begin(w), Deliver(Begin(w), claim), fault);
      SameRouses(w.db, w.now);
    case FireTimer(claim, fault) =>
      FireRouses(env, Begin(w), claim.payload);
      CommittedDb(Begin(w), Fire(env, Begin(w), claim.payload), fault);
      SameRouses(w.db, w.now);
    case _ => SameRouses(w.db, w.now);
  }

  /** A suspended task whose deadline is ahead is ready, and awaits others. */
  lemma SuspendedIsReady(env: Env, w: World, id: Id, a: Id)
    requires WorldInv(env, w) && IsSuspended(w, id) && DeadlineAhead(w, id) && Awaits(w, id, a)
    ensures Ready(w.db, w.now, id) && a != id
  {
    hide Keyed, PromisesOk, ResumesOk, JobsOk, TimersOk, SchedulesOk, IndexOk, SentOk, HeldOk, AllJobs, InflightOk,
      AckingOk, OriginOf;
  }

  lemma RousedIsReady(db: Db, db': Db, now: int, id: Id, a: Id)
    requires Rouses(db, db', now) && Ready(db, now, id) && a != id
    requires a in db.promises && db.promises[a].IsPending() && a in db'.promises && !db'.promises[a].IsPending()
    ensures Ready(db', now, id)
  {
    if !KeepsReady(db, db', now, {}) {
      var x :| OneSubject(db, db', now, x);
      assert x == a;
    }
  }

  /** The step in which an awaited promise settles wakes the suspended task, whose
      deadline is ahead: the task had no job, and is pending with exactly one,
      which that step enqueued. */
  lemma FirstSettlementWakes(env: Env, worlds: seq<World>, steps: seq<Step>, i: nat, id: Id, a: Id)
    requires env.Ok() && IsRun(env, worlds, steps) && i < |steps|
    requires IsSuspended(worlds[i], id) && DeadlineAhead(worlds[i], id) && Awaits(worlds[i], id, a)
    requires a in worlds[i + 1].db.promises && !worlds[i + 1].db.promises[a].IsPending()
    ensures LiveJobs(worlds[i], id) == {}
    ensures var w' := worlds[i + 1];
            && id in w'.db.tasks && w'.db.tasks[id].state.Pending? && w'.db.tasks[id].job.Some?
            && LiveJobs(w', id) == {w'.db.tasks[id].job.value}
            && worlds[i].queue.nextJob <= w'.db.tasks[id].job.value
  {
    hide WorldInv, Moves, Next, LiveJobs, DeadlineAhead, Enabled, Rouses;
    RunInv(env, worlds, steps, i);
    RunInv(env, worlds, steps, i + 1);
    WorldJobs(env, worlds[i], id);
    WorldJobs(env, worlds[i + 1], id);
    StepRouses(env, worlds[i], steps[i]);
    SuspendedIsReady(env, worlds[i], id, a);
    RousedIsReady(worlds[i].db, worlds[i + 1].db, worlds[i].now, id, a);
    SettledWakes(worlds[i], worlds[i + 1], id, a);
    FreshJob(worlds[i], worlds[i + 1], id, worlds[i + 1].db.tasks[id].job.value);
  }
}
