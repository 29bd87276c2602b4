/** What a settlement decides about the job of its task: every transaction that
    settles a promise releases its task, and decides nothing else about the job. It is
    shown handler by handler, for the deadlines that come first and for what the request
    does then, and is what makes the conditions under which a job ends exact. */
module Closings {
  import opened Records
  import opened Queues
  import opened Transaction
  import opened Kernel
  import opened Invariant
  import opened Steps
  import opened Operations
  import opened Handlers
  import opened Worlds
  import opened Commits
  import opened Runs
  import opened Theorems
  import opened Frames
  import opened Wakeups

  /** The live execute jobs of a task. */
  function JobsFor(jobs: Jobs, id: Id): set<JobId> {
    set j | j in jobs && jobs[j].payload == Execute(id)
  }

  /** The claim of the task is held and current, so releasing it ends its job. */
  predicate HeldCurrent(held: map<Id, Claim>, queue: Queue, id: Id) {
    id in held && queue.Current(held[id])
  }

  // --------------------------------------------------------- the work after a commit

  /** An action that is not about the job of task `id`. */
  predicate Foreign(a: After, id: Id) {
    match a
    case AckClaim(claim) => claim.payload != Execute(id)
    case Hold(task, _) => task != id
    case Release(task) => task != id
    case NackHeld(task) => task != id
    case ClaimJob(task, _, _) => task != id
  }

  /** The claims held by different tasks are of different jobs. */
  ghost predicate OwnClaims(tx: Tx) {
    HeldOk(tx.held, tx.queue.jobs, tx.queue.nextJob) && tx.queue.leases.Keys <= tx.queue.jobs.Keys
  }

  lemma ForeignKeeps(tx: Tx, a: After, id: Id)
    requires OwnClaims(tx) && AfterOk(tx.db.tasks, tx.queue.jobs, tx.queue.nextJob, a) && Foreign(a, id)
    ensures JobsFor(RunAfter(tx, a).queue.jobs, id) == JobsFor(tx.queue.jobs, id)
    ensures HeldCurrent(RunAfter(tx, a).held, RunAfter(tx, a).queue, id) <==> HeldCurrent(tx.held, tx.queue, id)
  {
    hide OwnClaims, AfterOk, Foreign, RunAfter, JobsFor, HeldCurrent;
    ForeignKeepsJobs(tx, a, id);
    ForeignKeepsClaim(tx, a, id);
  }

  lemma ForeignKeepsJobs(tx: Tx, a: After, id: Id)
    requires OwnClaims(tx) && AfterOk(tx.db.tasks, tx.queue.jobs, tx.queue.nextJob, a) && Foreign(a, id)
    ensures JobsFor(RunAfter(tx, a).queue.jobs, id) == JobsFor(tx.queue.jobs, id)
  {
  }

  lemma ForeignKeepsClaim(tx: Tx, a: After, id: Id)
    requires OwnClaims(tx) && AfterOk(tx.db.tasks, tx.queue.jobs, tx.queue.nextJob, a) && Foreign(a, id)
    ensures HeldCurrent(RunAfter(tx, a).held, RunAfter(tx, a).queue, id) <==> HeldCurrent(tx.held, tx.queue, id)
  {
  }

  /** The one job of the task, when it has one. */
  lemma OneJob(env: Env, tx: Tx, id: Id, j: JobId)
    requires TxInv(env, tx) && j in AllJobs(tx) && AllJobs(tx)[j].payload == Execute(id)
    ensures JobsFor(AllJobs(tx), id) == {j}
  {
    hide Keyed, Agree, PromisesOk, CallbacksOk, ResumesOk, TimersOk, SchedulesOk, IndexOk, SentOk, HeldOk, AllJobs;
  }

  lemma ReleaseEnds(env: Env, tx: Tx, id: Id)
    requires TxInv(env, tx) && tx.staged == map[]
    ensures var tx' := RunAfter(tx, Release(id));
            && JobsFor(tx'.queue.jobs, id) == (if HeldCurrent(tx.held, tx.queue, id) then {} else JobsFor(tx.queue.jobs, id))
            && !HeldCurrent(tx'.held, tx'.queue, id)
  {
    hide DbInv, AllJobs;
    NothingStaged(tx);
    if HeldCurrent(tx.held, tx.queue, id) {
      OneJob(env, tx, id, tx.held[id].job);
    }
  }

  lemma InvOwnClaims(env: Env, tx: Tx)
    requires TxInv(env, tx) && tx.staged == map[]
    ensures OwnClaims(tx) && AllJobs(tx) == tx.queue.jobs
  {
    hide DbInv, HeldOk;
    NothingStaged(tx);
  }

  /** All the work after a commit: the job ends exactly when the task is released
      and its claim is held and current. */
  lemma {:induction false} FinishEnds(env: Env, tx: Tx, id: Id)
    requires TxInv(env, tx) && tx.staged == map[] && AftersOk(tx)
    requires forall a :: a in tx.after ==> a == Release(id) || Foreign(a, id)
    ensures JobsFor(Finish(tx, |tx.after|).queue.jobs, id) ==
              if Release(id) in tx.after && HeldCurrent(tx.held, tx.queue, id) then {} else JobsFor(tx.queue.jobs, id)
    ensures HeldCurrent(Finish(tx, |tx.after|).held, Finish(tx, |tx.after|).queue, id) <==>
              HeldCurrent(tx.held, tx.queue, id) && Release(id) !in tx.after
    decreases |tx.after|
  {
    hide TxInv, AllJobs, AfterOk, RunAfter, JobsShrink, JobsFor, HeldCurrent, Foreign, OwnClaims;
    if tx.after != [] {
      var a, rest := tx.after[0], tx.after[1..];
      var tx1 := RunAfter(tx, a).(after := rest);
      assert a in tx.after && forall b :: b in rest ==> b in tx.after;
      assert forall b :: b in tx.after ==> b == a || b in rest;
      InvOwnClaims(env, tx);
      if a == Release(id) {
        ReleaseEnds(env, tx, id);
      } else {
        ForeignKeeps(tx, a, id);
      }
      FinishStep(env, tx);
      FinishEnds(env, tx1, id);
    }
  }

  // --------------------------------------------------------------- a settlement

  predicate IsOpen(promises: Promises, id: Id) {
    id in promises && promises[id].IsPending()
  }

  predicate IsSettled(promises: Promises, id: Id) {
    id in promises && !promises[id].IsPending()
  }

  /** Nothing resumes the task: its promise is settled or past its deadline. */
  predicate Asleep(tx: Tx, id: Id) {
    id in tx.db.promises && (!tx.db.promises[id].IsPending() || tx.now >= tx.db.promises[id].record.timeoutAt)
  }

  predicate NotStaged(staged: Jobs, id: Id) {
    forall j | j in staged :: staged[j].payload != Execute(id)
  }

  ghost predicate OnlyReleases(after: seq<After>) {
    forall a :: a in after ==> a.Release?
  }

  /** What a building block does about task `id`: it enqueues no job of it and adds
      releases only. */
  ghost predicate Idles(tx: Tx, tx': Tx, id: Id) {
    && tx'.now == tx.now && NotStaged(tx'.staged, id) && OnlyReleases(tx'.after)
    && forall a :: a in tx.after ==> a in tx'.after
  }

  lemma FanoutOneIdles(tx: Tx, c: Id, awaited: Id, id: Id)
    requires KeyedBy(tx.db.tasks) && Asleep(tx, id) && NotStaged(tx.staged, id) && OnlyReleases(tx.after)
    ensures var tx' := FanoutOne(tx, c, awaited); Idles(tx, tx', id) && tx'.db.promises == tx.db.promises
  {
    if c in tx.db.tasks {
      assert tx.db.tasks[c].id == c;
    }
  }

  lemma {:induction false} FanoutIdles(tx: Tx, callbacks: seq<Id>, awaited: Id, id: Id)
    requires KeyedBy(tx.db.tasks) && Asleep(tx, id) && NotStaged(tx.staged, id) && OnlyReleases(tx.after)
    ensures var tx' := Fanout(tx, callbacks, awaited); Idles(tx, tx', id) && tx'.db.promises == tx.db.promises
    decreases |callbacks|
  {
    hide FanoutOne, KeyedBy, NotStaged, OnlyReleases, Calm;
    if callbacks != [] {
      var tx1 := FanoutOne(tx, callbacks[0], awaited);
      FanoutOneIdles(tx, callbacks[0], awaited, id);
      FanoutOneCalm(tx, callbacks[0], awaited);
      FanoutIdles(tx1, callbacks[1..], awaited, id);
    }
  }

  lemma {:induction false} UnblocksIdle(tx: Tx, listeners: seq<Address>, r: PromiseRecord, id: Id)
    requires NotStaged(tx.staged, id) && OnlyReleases(tx.after)
    ensures var tx' := SendUnblocks(tx, listeners, r); Idles(tx, tx', id) && tx'.db == tx.db
    decreases |listeners|
  {
    hide OnlyReleases;
    if listeners != [] {
      UnblocksIdle(SendUnblock(tx, listeners[0], r), listeners[1..], r, id);
    }
  }

  lemma SettleRecordIdles(tx: Tx, r: PromiseRecord, id: Id)
    requires NotStaged(tx.staged, id) && OnlyReleases(tx.after)
    ensures var tx' := SettleRecord(tx, r);
            && Idles(tx, tx', id) && tx'.db.promises == tx.db.promises[r.id := Promise(r, [], [])]
            && (r.id in tx.db.tasks && !tx.db.tasks[r.id].state.Fulfilled? ==> Release(r.id) in tx'.after)
  {
    hide NotStaged;
  }

  /** A settlement enqueues no job of a task that is asleep, and releases its own. */
  lemma SettleChainIdles(tx: Tx, p: Promise, id: Id)
    requires KeyedBy(tx.db.tasks) && p.record.id in tx.db.promises && !p.IsPending()
    requires p.record.id == id || Asleep(tx, id)
    requires NotStaged(tx.staged, id) && OnlyReleases(tx.after)
    ensures var tx' := SettleChain(tx, p);
            && Idles(tx, tx', id) && IsSettled(tx'.db.promises, p.record.id)
            && (p.record.id in tx.db.tasks && !tx.db.tasks[p.record.id].state.Fulfilled? ==> Release(p.record.id) in tx'.after)
  {
    var a := SettleRecord(tx, p.record);
    SettleRecordIdles(tx, p.record, id);
    assert KeyedBy(a.db.tasks) by { SettleRecordCalm(tx, p.record); }
    hide SettleRecord, KeyedBy, NotStaged, OnlyReleases, Calm;
    FanoutIdles(a, p.callbacks, p.record.id, id);
    UnblocksIdle(Fanout(a, p.callbacks, p.record.id), p.listeners, p.record, id);
  }

  /** Task `id` is asleep and open, or settled and to be released. */
  ghost predicate Closing(tx: Tx, id: Id) {
    && Asleep(tx, id) && NotStaged(tx.staged, id) && OnlyReleases(tx.after)
    && id in tx.db.tasks
    && if IsOpen(tx.db.promises, id) then !tx.db.tasks[id].state.Fulfilled? else Release(id) in tx.after
  }

  lemma ExpireCloses(tx: Tx, x: Id, id: Id)
    requires KeyedBy(tx.db.tasks) && x in tx.db.promises && tx.db.promises[x].Due(tx.now) && tx.db.promises[x].record.id == x
    requires Closing(tx, id)
    ensures var tx' := ExpirePromise(tx, tx.db.promises[x]);
            && Asleep(tx', id) && NotStaged(tx'.staged, id) && OnlyReleases(tx'.after)
            && (!IsOpen(tx'.db.promises, id) ==> Release(id) in tx'.after)
  {
    hide SettleChain, NotStaged, OnlyReleases, KeyedBy;
    var p := tx.db.promises[x].(record := tx.db.promises[x].record.Expired());
    SettleChainIdles(tx, p, id);
    SettlePromises(tx, p);
  }

  lemma TimeoutOneCloses(env: Env, tx: Tx, x: Id, id: Id)
    requires Steady(env, tx) && Closing(tx, id)
    ensures Closing(TimeoutOne(tx, x), id)
  {
    hide Steady, ExpirePromise, NotStaged, OnlyReleases, Calm, KeyedBy, KeyedPromises, Evolves, Asleep;
    TimeoutOneKeeps(env, tx, x);
    if x in tx.db.promises && tx.db.promises[x].Due(tx.now) {
      SteadyInv(env, tx);
      SteadyIsTidy(env, tx);
      TidyId(tx, x);
      hide Tidy;
      ExpireCloses(tx, x, id) by { TidyParts(tx); }
      SteadyInv(env, TimeoutOne(tx, x));
      CalmTask(tx, TimeoutOne(tx, x), id);
      OpenTask(env, TimeoutOne(tx, x), id);
    }
  }

  lemma CalmTask(tx: Tx, tx': Tx, id: Id)
    requires Calm(tx, tx')
    ensures id in tx.db.tasks <==> id in tx'.db.tasks
  {
  }

  lemma OpenTask(env: Env, tx: Tx, id: Id)
    requires TxInv(env, tx) && id in tx.db.tasks
    ensures id in tx.db.promises && (tx.db.tasks[id].state.Fulfilled? <==> !tx.db.promises[id].IsPending())
  {
    hide TaskJobOk, CanResume, TxInv;
    TaskFactsOf(env, tx, id);
  }

  lemma {:induction false} TimeoutsClose(env: Env, tx: Tx, ids: seq<Id>, id: Id)
    requires Steady(env, tx) && Closing(tx, id)
    ensures Closing(TryTimeout(tx, ids), id)
    decreases |ids|
  {
    hide Steady, Closing, TimeoutOne, Calm, Evolves;
    if ids != [] {
      TimeoutOneCloses(env, tx, ids[0], id);
      TimeoutOneKeeps(env, tx, ids[0]);
      TimeoutsClose(env, TimeoutOne(tx, ids[0]), ids[1..], id);
    }
  }

  // -------------------------------------------------------------------- handlers

  predicate SameClaim(tx: Tx, tx': Tx, id: Id) {
    HeldCurrent(tx.held, tx.queue, id) <==> HeldCurrent(tx'.held, tx'.queue, id)
  }

  /** Task `id` is to be released and nothing else is decided about its job. */
  ghost predicate Released(tx: Tx, tx': Tx, id: Id) {
    && Release(id) in tx'.after && (forall a :: a in tx'.after ==> a == Release(id) || Foreign(a, id))
    && NotStaged(tx'.staged, id) && SameClaim(tx, tx', id)
  }

  /** A transaction that settles the promise of task `id` releases the task. */
  ghost predicate Closes(tx: Tx, tx': Tx, id: Id) {
    IsOpen(tx.db.promises, id) && id in tx.db.tasks && IsSettled(tx'.db.promises, id) ==> Released(tx, tx', id)
  }

  lemma {:induction false} PendingStays(tx: Tx, ids: seq<Id>, id: Id)
    requires KeyedPromises(tx.db.promises) && IsOpen(tx.db.promises, id) && !tx.db.promises[id].Due(tx.now)
    requires KeyedBy(tx.db.tasks)
    ensures IsOpen(TryTimeout(tx, ids).db.promises, id)
    decreases |ids|
  {
    hide SettleChain, KeyedBy;
    if ids != [] {
      if ids[0] in tx.db.promises && tx.db.promises[ids[0]].Due(tx.now) {
        var p := tx.db.promises[ids[0]].(record := tx.db.promises[ids[0]].record.Expired());
        SettlePromises(tx, p);
        SettleKeepsKeyed(tx, p);
      }
      PendingStays(TimeoutOne(tx, ids[0]), ids[1..], id);
    }
  }

  lemma SettleKeepsKeyed(tx: Tx, p: Promise)
    requires KeyedBy(tx.db.tasks) && p.record.id in tx.db.promises
    ensures KeyedBy(SettleChain(tx, p).db.tasks) && SettleChain(tx, p).now == tx.now
  {
    var a := SettleRecord(tx, p.record);
    SettleRecordCalm(tx, p.record);
    hide SettleRecord, KeyedBy, Calm;
    FanoutKeepsKeyed(a, p.callbacks, p.record.id);
    SendUnblocksCalm(Fanout(a, p.callbacks, p.record.id), p.listeners, p.record);
    SettleChainCalm(tx, p);
    CalmNow(tx, SettleChain(tx, p));
  }

  lemma CalmNow(tx: Tx, tx': Tx)
    requires Calm(tx, tx')
    ensures tx'.now == tx.now && tx'.held == tx.held && tx'.queue.leases == tx.queue.leases
  {
  }

  lemma {:induction false} FanoutKeepsKeyed(tx: Tx, callbacks: seq<Id>, awaited: Id)
    requires KeyedBy(tx.db.tasks)
    ensures KeyedBy(Fanout(tx, callbacks, awaited).db.tasks)
    decreases |callbacks|
  {
    hide FanoutOne, KeyedBy, Calm;
    if callbacks != [] {
      FanoutOneCalm(tx, callbacks[0], awaited);
      FanoutKeepsKeyed(FanoutOne(tx, callbacks[0], awaited), callbacks[1..], awaited);
    }
  }

  lemma {:induction false} NothingDue(tx: Tx, ids: seq<Id>)
    requires forall x :: x in ids && x in tx.db.promises ==> !tx.db.promises[x].Due(tx.now)
    ensures TryTimeout(tx, ids) == tx
    decreases |ids|
  {
    hide ExpirePromise;
    if ids != [] {
      NothingDue(tx, ids[1..]);
    }
  }

  lemma OnlyReleasesAreForeign(after: seq<After>, id: Id)
    requires OnlyReleases(after)
    ensures forall a :: a in after ==> a == Release(id) || Foreign(a, id)
  {
  }

  lemma StartsClosing(env: Env, tx: Tx, ids: seq<Id>, id: Id)
    requires Fresh(env, tx) && IsOpen(tx.db.promises, id) && id in tx.db.tasks
    requires IsSettled(TryTimeout(tx, ids).db.promises, id)
    ensures Closing(tx, id)
  {
    hide TxInv, KeyedBy, KeyedPromises, TryTimeout;
    SteadyIsTidy(env, tx);
    if !tx.db.promises[id].Due(tx.now) {
      PendingStays(tx, ids, id);
    }
    DueIsClosing(env, tx, id);
  }

  lemma DueIsClosing(env: Env, tx: Tx, id: Id)
    requires Fresh(env, tx) && id in tx.db.promises && tx.db.promises[id].Due(tx.now) && id in tx.db.tasks
    ensures Closing(tx, id)
  {
    hide TxInv;
    OpenTask(env, tx, id);
  }

  lemma ClosingParts(tx: Tx, id: Id)
    requires Closing(tx, id)
    ensures NotStaged(tx.staged, id) && OnlyReleases(tx.after)
    ensures IsSettled(tx.db.promises, id) ==> Release(id) in tx.after
  {
    hide NotStaged, OnlyReleases;
  }

  lemma ClosingReleases(tx: Tx, id: Id)
    requires Closing(tx, id) && IsSettled(tx.db.promises, id)
    ensures Release(id) in tx.after && NotStaged(tx.staged, id)
    ensures forall a :: a in tx.after ==> a == Release(id) || Foreign(a, id)
  {
    OnlyReleasesAreForeign(tx.after, id);
  }

  /** The deadlines a request applies. */
  lemma DeadlinesClose(env: Env, tx: Tx, ids: seq<Id>, id: Id)
    requires Fresh(env, tx)
    ensures Closes(tx, TryTimeout(tx, ids), id)
  {
    hide Fresh, Steady, Closing, Calm, Evolves, TryTimeout, SameClaim, Foreign, NotStaged;
    var tx1 := TryTimeout(tx, ids);
    if IsOpen(tx.db.promises, id) && id in tx.db.tasks && IsSettled(tx1.db.promises, id) {
      FreshIsSteady(env, tx);
      StartsClosing(env, tx, ids, id);
      TimeoutsClose(env, tx, ids, id);
      ClosingReleases(tx1, id);
      TimeoutSound(env, tx, ids);
      CalmNow(tx, tx1);
      SameHeld(tx, tx1, id);
    }
  }

  lemma SameHeld(tx: Tx, tx': Tx, id: Id)
    requires tx'.held == tx.held && tx'.queue.leases == tx.queue.leases
    ensures SameClaim(tx, tx', id)
  {
  }

  /** The rest of a handler leaves a settled task to be released. */
  ghost predicate LeavesClosed(tx1: Tx, tx': Tx, id: Id) {
    && (forall a :: a in tx1.after ==> a in tx'.after)
    && (forall a :: a in tx'.after ==> a in tx1.after || Foreign(a, id))
    && (NotStaged(tx1.staged, id) ==> NotStaged(tx'.staged, id)) && SameClaim(tx1, tx', id)
  }

  /** The rest of a handler settles no promise. */
  predicate KeepsOpen(promises: Promises, promises': Promises) {
    forall id | id in promises && IsOpen(promises, id) :: IsOpen(promises', id)
  }

  lemma ThenCloses(env: Env, tx: Tx, ids: seq<Id>, tx': Tx, id: Id)
    requires Fresh(env, tx)
    requires var tx1 := TryTimeout(tx, ids);
             && (IsOpen(tx1.db.promises, id) ==> !IsSettled(tx'.db.promises, id))
             && (IsOpen(tx.db.promises, id) && id in tx.db.tasks && IsSettled(tx1.db.promises, id) ==> LeavesClosed(tx1, tx', id))
    ensures Closes(tx, tx', id)
  {
    hide Fresh, TryTimeout, Foreign, NotStaged, HeldCurrent;
    DeadlinesClose(env, tx, ids, id);
    if IsOpen(tx.db.promises, id) {
      StillThere(env, tx, ids, id);
    }
  }

  lemma StillThere(env: Env, tx: Tx, ids: seq<Id>, id: Id)
    requires Fresh(env, tx) && id in tx.db.promises
    ensures id in TryTimeout(tx, ids).db.promises
  {
    hide TxInv, Evolves, TryTimeout, Steady;
    TimeoutSound(env, tx, ids);
    CalmPromises(tx, TryTimeout(tx, ids), id) by { hide Calm; }
  }

  lemma SameLeavesClosed(tx: Tx, id: Id)
    ensures LeavesClosed(tx, tx, id)
  {
    hide NotStaged, Foreign;
  }

  /** Only the named promises settle by their deadlines. */
  lemma OnlyNamed(env: Env, tx: Tx, ids: seq<Id>, id: Id)
    requires Fresh(env, tx) && IsOpen(tx.db.promises, id) && IsSettled(TryTimeout(tx, ids).db.promises, id)
    ensures id in ids
  {
    hide Fresh, TryTimeout, KeepsReady, Tidy, Steady;
    AppliedThen(env, tx, ids, set i | i in ids);
  }

  /** A handler that names one promise, and stops where that promise is settled. */
  lemma OneNamedCloses(env: Env, tx: Tx, x: Id, tx': Tx, id: Id)
    requires Fresh(env, tx)
    requires var tx1 := TryTimeout(tx, [x]);
             && KeepsOpen(tx1.db.promises, tx'.db.promises)
             && (IsSettled(tx1.db.promises, x) ==> tx' == tx1)
    ensures Closes(tx, tx', id)
  {
    hide Fresh, TryTimeout, Closes, LeavesClosed;
    var tx1 := TryTimeout(tx, [x]);
    SameLeavesClosed(tx1, id);
    if IsOpen(tx.db.promises, id) && IsSettled(tx1.db.promises, id) {
      OnlyNamed(env, tx, [x], id);
      assert id == x;
    }
    ThenCloses(env, tx, [x], tx', id);
  }

  // ------------------------------------------------------------ promise handlers

  lemma StaysOpenCloses(tx: Tx, tx': Tx, id: Id)
    requires KeepsOpen(tx.db.promises, tx'.db.promises)
    ensures Closes(tx, tx', id)
  {
  }

  lemma CreateKeepsOpen(tx: Tx, data: CreateData, createdAt: Option<int>, mode: CreateMode)
    requires data.id !in tx.db.promises
    ensures KeepsOpen(tx.db.promises, CreatePromise(tx, data, createdAt, mode).db.promises)
  {
    CreateLeaves(tx, data, createdAt, mode);
    hide CreatePromise, CreatedRecord;
  }

  lemma PromiseCreateCloses(env: Env, tx: Tx, data: CreateData, id: Id)
    requires Fresh(env, tx)
    ensures Closes(tx, HandlePromiseCreate(env, tx, data).tx, id)
  {
    hide Fresh, TryTimeout, CreatePromise, ValidCreate, Closes;
    var tx1 := TryTimeout(tx, [data.id]);
    StaysOpenCloses(tx, tx, id);
    if data.id !in tx1.db.promises {
      CreateKeepsOpen(tx1, data, None, CreateDispatch);
    }
    if ValidCreate(env, data) {
      OneNamedCloses(env, tx, data.id, HandlePromiseCreate(env, tx, data).tx, id);
    }
  }

  /** A settlement by a client before the deadline. */
  lemma ClientSettles(env: Env, tx: Tx, data: SettleData, id: Id)
    requires Fresh(env, tx) && IsOpen(tx.db.promises, data.id)
    ensures Closes(tx, SettleIfPending(tx, data), id)
  {
    hide Fresh, SettleChain, Calm, KeepsReady, Released, KeyedBy, KeyedPromises;
    FreshTidy(env, tx);
    if id == data.id {
      if id in tx.db.tasks {
        OwnSettles(env, tx, data);
      }
    } else {
      SettleReady(tx, data);
    }
  }

  lemma FreshTidy(env: Env, tx: Tx)
    requires Fresh(env, tx)
    ensures Tidy(tx)
  {
    hide TxInv;
    SteadyIsTidy(env, tx);
  }

  lemma OwnSettles(env: Env, tx: Tx, data: SettleData)
    requires Fresh(env, tx) && IsOpen(tx.db.promises, data.id) && data.id in tx.db.tasks
    ensures Released(tx, SettleIfPending(tx, data), data.id)
  {
    assert tx.staged == map[] && tx.after == [];
    hide TxInv, SettleChain, KeyedBy, KeyedPromises, Calm, SameClaim, Foreign;
    var id := data.id;
    SteadyIsTidy(env, tx);
    TidyId(tx, id);
    OpenTask(env, tx, id);
    var p := tx.db.promises[id].(record := tx.db.promises[id].record.SettledBy(data.state, data.value, tx.now));
    SettleChainIdles(tx, p, id);
    OnlyReleasesAreForeign(SettleChain(tx, p).after, id);
    SettleChainCalm(tx, p);
    CalmNow(tx, SettleChain(tx, p));
    SameHeld(tx, SettleChain(tx, p), id);
  }

  /** A promise that its deadline did not settle was not due: nothing happened. */
  lemma NotDueBefore(env: Env, tx: Tx, ids: seq<Id>)
    requires Fresh(env, tx) && forall x :: x in ids && x in tx.db.promises ==> !IsSettled(TryTimeout(tx, ids).db.promises, x) || !IsOpen(tx.db.promises, x)
    ensures TryTimeout(tx, ids) == tx
  {
    hide TxInv, Evolves, Calm, TryTimeout, Steady;
    TimeoutSound(env, tx, ids);
    var tx1 := TryTimeout(tx, ids);
    EvolvesParts(tx, tx1);
    forall x | x in ids && x in tx.db.promises ensures !tx.db.promises[x].Due(tx.now) {
      assert PromiseEvolves(tx.db.promises[x], tx1.db.promises[x], tx.now);
    }
    NothingDue(tx, ids);
  }

  /** The deadlines of the promise a client settles, and the settlement. */
  lemma SettleCloses(env: Env, tx: Tx, x: Id, data: SettleData, id: Id)
    requires Fresh(env, tx) && x == data.id
    ensures Closes(tx, SettleIfPending(TryTimeout(tx, [x]), data), id)
  {
    hide Fresh, TryTimeout, Closes;
    DeadlinesClose(env, tx, [x], id);
    if IsOpen(TryTimeout(tx, [x]).db.promises, x) {
      NotDueBefore(env, tx, [x]);
      ClientSettles(env, tx, data, id);
    } else {
      hide Settle;
    }
  }

  lemma ResumeLeavesClosed(tx: Tx, awaiter: Id, awaited: Id, id: Id)
    requires awaiter != id && KeyedBy(tx.db.tasks)
    ensures LeavesClosed(tx, ResumeAwaiter(tx, awaiter, awaited, false), id)
  {
    hide Foreign;
    if awaiter in tx.db.tasks {
      assert tx.db.tasks[awaiter].id == awaiter;
    }
  }

  lemma RegisterCallbackCloses(env: Env, tx: Tx, awaited: Id, awaiter: Id, id: Id)
    requires Fresh(env, tx)
    ensures Closes(tx, HandleRegisterCallback(tx, awaited, awaiter).tx, id)
  {
    hide Fresh, TryTimeout, ValidCallback, Closes, LeavesClosed, AddCallback, ResumeAwaiter, KeyedBy, KeepsReady, SettlesOnly, Steady,
      KeyedPromises;
    var ids := [awaited, awaiter];
    var tx1 := TryTimeout(tx, ids);
    StaysOpenCloses(tx, tx, id);
    AppliedThen(env, tx, ids, {awaited, awaiter});
    SameLeavesClosed(tx1, id);
    ResumeLeaves(tx1, awaited, awaiter);
    if awaiter != id {
      ResumeLeavesClosed(tx1, awaiter, awaited, id);
    }
    if awaited in tx1.db.promises {
      CallbackOnly(tx1, awaited, awaiter, id);
    }
    if ValidCallback(awaited, awaiter) {
      ThenCloses(env, tx, ids, HandleRegisterCallback(tx, awaited, awaiter).tx, id);
    }
  }

  lemma CallbackOnly(tx: Tx, awaited: Id, awaiter: Id, id: Id)
    requires awaited in tx.db.promises && KeyedPromises(tx.db.promises)
    ensures LeavesClosed(tx, AddCallback(tx, awaited, awaiter), id)
    ensures KeepsOpen(tx.db.promises, AddCallback(tx, awaited, awaiter).db.promises)
  {
    hide Foreign, NotStaged;
  }

  lemma ListenerOnly(tx: Tx, awaited: Id, address: Address, id: Id)
    requires awaited in tx.db.promises && KeyedPromises(tx.db.promises)
    ensures LeavesClosed(tx, AddListener(tx, awaited, address), id)
    ensures KeepsOpen(tx.db.promises, AddListener(tx, awaited, address).db.promises)
  {
    hide Foreign, NotStaged;
  }

  lemma RegisterListenerCloses(env: Env, tx: Tx, awaited: Id, address: Address, id: Id)
    requires Fresh(env, tx)
    ensures Closes(tx, HandleRegisterListener(env, tx, awaited, address).tx, id)
  {
    hide Fresh, TryTimeout, Closes, LeavesClosed, AddListener, KeyedBy, KeyedPromises, KeepsReady, SettlesOnly, Steady;
    var tx1 := TryTimeout(tx, [awaited]);
    StaysOpenCloses(tx, tx, id);
    AppliedThen(env, tx, [awaited], {awaited});
    SameLeavesClosed(tx1, id);
    if awaited in tx1.db.promises {
      ListenerOnly(tx1, awaited, address, id);
    }
    if env.isUrl(address) {
      ThenCloses(env, tx, [awaited], HandleRegisterListener(env, tx, awaited, address).tx, id);
    }
  }

  // --------------------------------------------------------------- task handlers

  lemma SettledTask(env: Env, tx: Tx, ids: seq<Id>, x: Id)
    requires Fresh(env, tx)
    ensures var tx1 := TryTimeout(tx, ids); x in tx1.db.tasks ==> (IsSettled(tx1.db.promises, x) <==> tx1.db.tasks[x].state.Fulfilled?)
    ensures x in TryTimeout(tx, ids).db.tasks ==> x in TryTimeout(tx, ids).db.promises
  {
    hide TxInv, Evolves, Calm, TryTimeout;
    TimeoutSound(env, tx, ids);
    if x in TryTimeout(tx, ids).db.tasks {
      OpenTask(env, TryTimeout(tx, ids), x);
    }
  }

  lemma AcquireKeepsPromises(env: Env, tx: Tx, t: Task, pid: string, ttl: int)
    ensures AcquireAndView(env, tx, t, pid, ttl).tx.db.promises == tx.db.promises
  {
    hide TaskView;
  }

  lemma TaskAcquireCloses(env: Env, tx: Tx, x: Id, version: int, pid: string, ttl: int, id: Id)
    requires Fresh(env, tx)
    ensures Closes(tx, HandleTaskAcquire(env, tx, x, version, pid, ttl).tx, id)
  {
    hide Fresh, TryTimeout, AcquireAndView, Closes;
    var tx1 := TryTimeout(tx, [x]);
    SettledTask(env, tx, [x], x);
    if x in tx1.db.tasks {
      AcquireKeepsPromises(env, tx1, tx1.db.tasks[x], pid, ttl);
    }
    OneNamedCloses(env, tx, x, HandleTaskAcquire(env, tx, x, version, pid, ttl).tx, id);
  }

  lemma TaskCreateCloses(env: Env, tx: Tx, pid: string, ttl: int, kind: ActionKind, data: CreateData, id: Id)
    requires Fresh(env, tx)
    ensures Closes(tx, HandleTaskCreate(env, tx, pid, ttl, kind, data).tx, id)
  {
    hide Fresh, TryTimeout, AcquireAndView, Closes, CreatePromise, ClaimForCreate, TaskView, ValidCreate, KeepsOpen;
    var x := data.id;
    var tx1 := TryTimeout(tx, [x]);
    var out := HandleTaskCreate(env, tx, pid, ttl, kind, data);
    SettledTask(env, tx, [x], x);
    SameKeepsOpen(tx1.db.promises);
    SameKeepsOpen(tx.db.promises);
    StaysOpenCloses(tx, tx, id);
    if x in tx1.db.tasks {
      ClaimsLeaveDb(tx1, tx1.db.tasks[x], ttl);
      AcquireKeepsPromises(env, ClaimForCreate(tx1, tx1.db.tasks[x], ttl), tx1.db.tasks[x], pid, ttl);
    }
    if x !in tx1.db.promises {
      CreateKeepsOpen(tx1, data, None, CreateAcquire(pid, ttl));
    }
    if out.tx != tx {
      OneNamedCloses(env, tx, x, out.tx, id);
    }
  }

  lemma SameKeepsOpen(promises: Promises)
    ensures KeepsOpen(promises, promises)
  {
  }

  lemma OneTaskCloses(env: Env, tx: Tx, x: Id, version: int, id: Id)
    requires Fresh(env, tx)
    ensures Closes(tx, HandleTaskRelease(tx, x, version).tx, id)
    ensures Closes(tx, HandleTaskHalt(tx, x).tx, id)
  {
    hide Fresh, TryTimeout, Closes;
    SettledTask(env, tx, [x], x);
    OneNamedCloses(env, tx, x, HandleTaskRelease(tx, x, version).tx, id);
    OneNamedCloses(env, tx, x, HandleTaskHalt(tx, x).tx, id);
  }

  lemma TaskContinueCloses(env: Env, tx: Tx, x: Id, id: Id)
    requires Fresh(env, tx)
    ensures Closes(tx, HandleTaskContinue(tx, x).tx, id)
  {
    hide Fresh, TryTimeout, Closes;
    SettledTask(env, tx, [x], x);
    OneNamedCloses(env, tx, x, HandleTaskContinue(tx, x).tx, id);
  }

  lemma TaskFulfillCloses(env: Env, tx: Tx, x: Id, version: int, kind: ActionKind, data: SettleData, id: Id)
    requires Fresh(env, tx)
    ensures Closes(tx, HandleTaskFulfill(tx, x, version, kind, data).tx, id)
  {
    hide Fresh, TryTimeout, Closes, SettleIfPending, AfterHolds;
    var tx1 := TryTimeout(tx, [x]);
    var out := HandleTaskFulfill(tx, x, version, kind, data);
    StaysOpenCloses(tx, tx, id);
    SettledTask(env, tx, [x], x);
    HoldsLeavesDb(tx1, x);
    if data.id == x {
      SettleCloses(env, tx, x, data, id);
      if out.tx != SettleIfPending(tx1, data) && out.tx != tx {
        OneNamedCloses(env, tx, x, out.tx, id);
      }
    }
  }

  lemma SuspendLeavesClosed(tx: Tx, awaited: seq<Id>, x: Id, t: Task, id: Id)
    requires KeyedPromises(tx.db.promises) && forall a :: a in awaited ==> a in tx.db.promises
    ensures LeavesClosed(tx, SuspendTask(AddCallbacks(tx, awaited, x), t), id)
    ensures KeepsOpen(tx.db.promises, SuspendTask(AddCallbacks(tx, awaited, x), t).db.promises)
  {
    hide AddCallbacks, Foreign, NotStaged, KeyedPromises;
    CallbacksOnly(tx, awaited, x);
  }

  lemma {:induction false} CallbacksOnly(tx: Tx, awaited: seq<Id>, awaiter: Id)
    requires KeyedPromises(tx.db.promises) && forall a :: a in awaited ==> a in tx.db.promises
    ensures var tx' := AddCallbacks(tx, awaited, awaiter);
            && tx' == tx.(db := tx.db.(promises := tx'.db.promises)) && KeepsOpen(tx.db.promises, tx'.db.promises)
    decreases |awaited|
  {
    hide KeyedPromises, AddCallback, Foreign, NotStaged;
    if awaited != [] {
      CallbackSame(tx, awaited[0], awaiter);
      CallbackShape(tx, awaited[0], awaiter);
      CallbacksOnly(AddCallback(tx, awaited[0], awaiter), awaited[1..], awaiter);
    }
  }

  lemma CallbackShape(tx: Tx, awaited: Id, awaiter: Id)
    requires awaited in tx.db.promises && KeyedPromises(tx.db.promises)
    ensures var tx' := AddCallback(tx, awaited, awaiter);
            tx' == tx.(db := tx.db.(promises := tx'.db.promises)) && KeepsOpen(tx.db.promises, tx'.db.promises)
  {
  }

  lemma HoldsLeavesClosed(tx: Tx, x: Id, id: Id)
    requires x != id
    ensures LeavesClosed(tx, AfterHolds(tx, x), id)
  {
    hide Foreign, NotStaged, Holds;
  }

  lemma PutTaskLeavesClosed(tx: Tx, t: Task, id: Id)
    ensures LeavesClosed(tx, PutTask(tx, t), id)
  {
    hide Foreign, NotStaged;
  }

  lemma TaskSuspendCloses(env: Env, tx: Tx, x: Id, version: int, actions: seq<SuspendAction>, id: Id)
    requires Fresh(env, tx)
    ensures Closes(tx, HandleTaskSuspend(env, tx, x, version, actions).tx, id)
  {
    hide Fresh, TryTimeout, Closes, LeavesClosed, ValidActions, AwaitedIds, AddCallbacks, SuspendTask, AfterHolds, Preload, PutTask,
      KeyedBy, KeyedPromises, KeepsReady, SettlesOnly, Steady, KeepsOpen;
    var ids := [x] + AwaitedIds(actions);
    var tx1 := TryTimeout(tx, ids);
    StaysOpenCloses(tx, tx, id) by { SameKeepsOpen(tx.db.promises); }
    AppliedThen(env, tx, ids, set i | i in ids);
    SettledTask(env, tx, ids, x);
    DeadlinesClose(env, tx, ids, id);
    HoldsLeavesDb(tx1, x);
    if ValidActions(x, actions) && x in tx1.db.tasks && tx1.db.tasks[x].IsAcquiredAt(version) {
      var t := tx1.db.tasks[x];
      SuspendRest(env, tx, x, version, actions, id);
    }
  }

  lemma SuspendRest(env: Env, tx: Tx, x: Id, version: int, actions: seq<SuspendAction>, id: Id)
    requires Fresh(env, tx) && ValidActions(x, actions)
    requires var tx1 := TryTimeout(tx, [x] + AwaitedIds(actions)); x in tx1.db.tasks && tx1.db.tasks[x].IsAcquiredAt(version)
    ensures Closes(tx, HandleTaskSuspend(env, tx, x, version, actions).tx, id)
  {
    hide Fresh, TryTimeout, Closes, LeavesClosed, ValidActions, AwaitedIds, AddCallbacks, SuspendTask, AfterHolds, Preload,
      KeyedBy, KeyedPromises, KeepsReady, SettlesOnly, Steady, KeepsOpen;
    var ids := [x] + AwaitedIds(actions);
    var tx1 := TryTimeout(tx, ids);
    var tx' := HandleTaskSuspend(env, tx, x, version, actions).tx;
    AppliedThen(env, tx, ids, set i | i in ids);
    SettledTask(env, tx, ids, x);
    var t := tx1.db.tasks[x];
    SameLeavesClosed(tx1, id);
    SameKeepsOpen(tx1.db.promises);
    HoldsLeavesDb(tx1, x);
    PutTaskLeavesClosed(tx1, t.(resumes := {}), id);
    if x != id {
      HoldsLeavesClosed(tx1, x, id);
    }
    if forall a :: a in AwaitedIds(actions) ==> a in tx1.db.promises {
      SuspendLeavesClosed(tx1, AwaitedIds(actions), x, t, id);
    }
    assert KeepsOpen(tx1.db.promises, tx'.db.promises);
    OpenOrNot(tx1.db.promises, tx'.db.promises, id);
    ThenCloses(env, tx, ids, tx', id);
  }

  lemma OpenOrNot(promises: Promises, promises': Promises, id: Id)
    requires KeepsOpen(promises, promises')
    ensures IsOpen(promises, id) ==> !IsSettled(promises', id)
  {
  }

  /** A fence that acts found its own task acquired, so its own promise open. */
  lemma FenceNothingDue(env: Env, tx: Tx, x: Id, aid: Id)
    requires Fresh(env, tx)
    requires var tx1 := TryTimeout(tx, [x, aid]);
             x in tx1.db.tasks && tx1.db.tasks[x].state.Acquired? && !(IsOpen(tx.db.promises, aid) && IsSettled(tx1.db.promises, aid))
    ensures TryTimeout(tx, [x, aid]) == tx
  {
    hide Fresh, TryTimeout;
    SettledTask(env, tx, [x, aid], x);
    NotDueBefore(env, tx, [x, aid]);
  }

  lemma TaskFenceCloses(env: Env, tx: Tx, x: Id, version: int, actionId: Option<Id>, body: FenceBody, id: Id)
    requires Fresh(env, tx)
    ensures Closes(tx, HandleTaskFence(env, tx, x, version, actionId, body).tx, id)
  {
    hide Fresh, TryTimeout, Closes, CreatePromise, ValidCreate, SettleIfPending, Preload, OriginOf, KeepsOpen;
    StaysOpenCloses(tx, tx, id) by { SameKeepsOpen(tx.db.promises); }
    if actionId.Some? {
      var aid := actionId.value;
      var tx1 := TryTimeout(tx, [x, aid]);
      DeadlinesClose(env, tx, [x, aid], id);
      if x in tx1.db.tasks && tx1.db.tasks[x].IsAcquiredAt(version) {
        if !(IsOpen(tx.db.promises, aid) && IsSettled(tx1.db.promises, aid)) {
          FenceNothingDue(env, tx, x, aid);
          FenceActsCloses(env, tx, aid, body, id);
        } else {
          SettledIsKept(tx1, aid, body);
        }
      }
    }
  }

  lemma SettledIsKept(tx: Tx, aid: Id, body: FenceBody)
    requires IsSettled(tx.db.promises, aid)
    ensures body.FenceSettle? ==> SettleIfPending(tx, SettleData(aid, body.state, body.value)) == tx
  {
    hide Settle;
  }

  lemma FenceActsCloses(env: Env, tx: Tx, aid: Id, body: FenceBody, id: Id)
    requires Fresh(env, tx)
    ensures body.FenceCreate? && aid !in tx.db.promises ==>
              Closes(tx, CreatePromise(tx, CreateData(aid, body.timeoutAt, body.param, body.tags), None, CreateDispatch), id)
    ensures body.FenceSettle? ==> Closes(tx, SettleIfPending(tx, SettleData(aid, body.state, body.value)), id)
  {
    hide Fresh, Closes, CreatePromise, Settle;
    if body.FenceCreate? && aid !in tx.db.promises {
      var data := CreateData(aid, body.timeoutAt, body.param, body.tags);
      CreateKeepsOpen(tx, data, None, CreateDispatch);
      StaysOpenCloses(tx, CreatePromise(tx, data, None, CreateDispatch), id);
    }
    if body.FenceSettle? {
      if IsOpen(tx.db.promises, aid) {
        ClientSettles(env, tx, SettleData(aid, body.state, body.value), id);
      } else {
        StaysOpenCloses(tx, tx, id) by { SameKeepsOpen(tx.db.promises); }
      }
    }
  }

  lemma SamePromisesClose(tx: Tx, tx': Tx, id: Id)
    requires tx'.db.promises == tx.db.promises
    ensures Closes(tx, tx', id)
  {
  }

  /** Every request that settles the promise of a task releases the task. */
  lemma HandleCloses(env: Env, tx: Tx, req: Request, id: Id)
    requires Fresh(env, tx)
    ensures Closes(tx, Handle(env, tx, req).tx, id)
  {
    hide Fresh, Closes, HandlePromiseCreate, TryTimeout, SettleIfPending, HandleRegisterCallback, HandleRegisterListener,
      HandleTaskCreate, HandleTaskAcquire, HandleTaskRelease, HandleTaskFulfill, HandleTaskSuspend, HandleTaskFence,
      HandleTaskHalt, HandleTaskContinue, SearchReply, Beats;
    if IsOther(req) {
      OtherRequests(env, tx, req);
      SamePromisesClose(tx, Handle(env, tx, req).tx, id);
    } else {
      match req
      case PromiseCreate(data) => PromiseCreateCloses(env, tx, data, id);
      case PromiseGet(x) => DeadlinesClose(env, tx, [x], id);
      case PromiseSettle(data) => SettleCloses(env, tx, data.id, data, id);
      case RegisterCallback(awaited, awaiter) => RegisterCallbackCloses(env, tx, awaited, awaiter, id);
      case RegisterListener(awaited, address) => RegisterListenerCloses(env, tx, awaited, address, id);
      case TaskCreate(pid, ttl, kind, data) => TaskCreateCloses(env, tx, pid, ttl, kind, data, id);
      case TaskAcquire(x, version, pid, ttl) => TaskAcquireCloses(env, tx, x, version, pid, ttl, id);
      case TaskRelease(x, version) => OneTaskCloses(env, tx, x, version, id);
      case TaskFulfill(x, version, kind, data) => TaskFulfillCloses(env, tx, x, version, kind, data, id);
      case TaskSuspend(x, version, actions) => TaskSuspendCloses(env, tx, x, version, actions, id);
      case TaskFence(x, version, actionId, body) => TaskFenceCloses(env, tx, x, version, actionId, body, id);
      case TaskHeartbeat(pid, beats) =>
        BeatsLeaveDb(tx, pid, beats);
        SamePromisesClose(tx, Beats(tx, pid, beats), id);
      case TaskGet(x) => DeadlinesClose(env, tx, [x], id);
      case TaskHalt(x) => OneTaskCloses(env, tx, x, 0, id);
      case TaskContinue(x) => TaskContinueCloses(env, tx, x, id);
    }
  }

  /** So does every timer that has come due. */
  lemma FireCloses(env: Env, tx: Tx, timer: Payload, id: Id)
    requires Fresh(env, tx) && TimerDue(tx.db, timer, tx.now)
    ensures Closes(tx, Fire(env, tx, timer).tx, id)
  {
    hide Fresh, Closes, SettleChain, CreatePromise, FiredPromiseId, FiredData, KeepsOpen;
    SamePromisesClose(tx, tx, id);
    match timer
    case PromiseTimeout(x) =>
      if IsOpen(tx.db.promises, x) {
        DeadlinesClose(env, tx, [x], id);
        OneTimeout(tx, x);
      }
    case ScheduleFire(x, at) =>
      if x in tx.db.schedules {
        FireKeepsOpen(env, tx, tx.db.schedules[x]);
        StaysOpenCloses(tx, FireSchedule(env, tx, tx.db.schedules[x]), id);
      }
    case _ =>
  }

  lemma OneTimeout(tx: Tx, x: Id)
    requires x in tx.db.promises && tx.db.promises[x].Due(tx.now)
    ensures TryTimeout(tx, [x]) == ExpirePromise(tx, tx.db.promises[x])
  {
    hide ExpirePromise;
    assert [x][1..] == [];
  }

  lemma FireKeepsOpen(env: Env, tx: Tx, s: ScheduleRecord)
    ensures KeepsOpen(tx.db.promises, FireSchedule(env, tx, s).db.promises)
  {
    hide CreatePromise, FiredPromiseId, CreatedRecord;
    if FiredPromiseId(s) !in tx.db.promises {
      CreateKeepsOpen(tx, FiredData(s), Some(s.nextRunAt), CreateDispatch);
    }
  }
}
