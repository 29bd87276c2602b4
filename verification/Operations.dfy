/** Every operation the handlers are made of keeps the invariant: the deadlines a
    request applies, the claims it takes, renews or drops, the registrations it makes,
    the promises, tasks and timers it creates and the schedules it fires. What each of
    them leaves alone is stated beside it, as the handlers and the results about whole
    runs need both. */
module Operations {
  import opened Records
  import opened Queues
  import opened Transaction
  import opened Kernel
  import opened Invariant
  import opened Steps

  // ------------------------------------------------------------------- deadlines

  /** What a settlement leaves alone: claims, leases, schedules, the index, the
      set of records, every version and the job of every halted task. */
  ghost predicate Calm(tx: Tx, tx': Tx) {
    && tx'.now == tx.now && tx'.held == tx.held
    && tx'.queue.leases == tx.queue.leases && tx'.queue.nextToken == tx.queue.nextToken
    && tx'.queue.jobs == tx.queue.jobs && tx.queue.nextJob <= tx'.queue.nextJob
    && (forall j :: j in tx'.staged ==> j in tx.staged || tx.queue.nextJob <= j)
    && tx'.db.schedules == tx.db.schedules && tx'.db.index == tx.db.index
    && tx'.db.promises.Keys == tx.db.promises.Keys
    && TasksCalm(tx.db.tasks, tx'.db.tasks)
  }

  ghost predicate TasksCalm(tasks: Tasks, tasks': Tasks) {
    && tasks'.Keys == tasks.Keys
    && (forall id :: id in tasks ==> TaskCalm(tasks[id], tasks'[id]))
  }

  predicate TaskCalm(t: Task, t': Task) {
    t'.version == t.version && (t'.state.Halted? ==> t.state.Halted? && t'.job == t.job)
  }

  lemma CalmReflexive(tx: Tx)
    ensures Calm(tx, tx)
  {
  }

  lemma CalmTransitive(a: Tx, b: Tx, c: Tx)
    requires Calm(a, b) && Calm(b, c)
    ensures Calm(a, c)
  {
  }

  ghost predicate KeyedBy(tasks: Tasks) {
    forall id :: id in tasks ==> tasks[id].id == id
  }

  lemma PutTaskCalm(tx: Tx, t: Task)
    requires KeyedBy(tx.db.tasks) && t.id in tx.db.tasks && TaskCalm(tx.db.tasks[t.id], t)
    ensures Calm(tx, PutTask(tx, t)) && KeyedBy(PutTask(tx, t).db.tasks)
  {
    assert PutTask(tx, t).db.tasks.Keys == tx.db.tasks.Keys;
  }

  lemma StageCalm(tx: Tx, job: Job)
    ensures Calm(tx, Stage(tx, job)) && Stage(tx, job).db == tx.db
  {
  }

  lemma FanoutOneCalm(tx: Tx, c: Id, awaited: Id)
    requires KeyedBy(tx.db.tasks)
    ensures Calm(tx, FanoutOne(tx, c, awaited)) && KeyedBy(FanoutOne(tx, c, awaited).db.tasks)
    ensures FanoutOne(tx, c, awaited).db.promises == tx.db.promises
  {
    CalmReflexive(tx);
    if c in tx.db.tasks {
      var t := tx.db.tasks[c];
      assert t.id == c;
      hide Calm, KeyedBy, Stage;
      PutTaskCalm(tx, t.(resumes := t.resumes + {awaited}));
      var t' := t.Transition(TaskState.Pending).(resumes := {awaited}, job := Some(tx.queue.nextJob));
      var job := Job(Deliveries(t'.target), Execute(t'.id), 0);
      PutTaskCalm(tx, t');
      StageCalm(PutTask(tx, t'), job);
      CalmTransitive(tx, PutTask(tx, t'), Stage(PutTask(tx, t'), job));
    }
  }

  lemma {:induction false} FanoutCalm(tx: Tx, callbacks: seq<Id>, awaited: Id)
    requires KeyedBy(tx.db.tasks)
    ensures Calm(tx, Fanout(tx, callbacks, awaited))
    ensures Fanout(tx, callbacks, awaited).db.promises == tx.db.promises
    decreases |callbacks|
  {
    hide Calm, FanoutOne, KeyedBy;
    if callbacks == [] {
      CalmReflexive(tx);
    } else {
      var mid := FanoutOne(tx, callbacks[0], awaited);
      FanoutOneCalm(tx, callbacks[0], awaited);
      FanoutCalm(mid, callbacks[1..], awaited);
      CalmTransitive(tx, mid, Fanout(mid, callbacks[1..], awaited));
    }
  }

  lemma {:induction false} SendUnblocksCalm(tx: Tx, listeners: seq<Address>, r: PromiseRecord)
    ensures Calm(tx, SendUnblocks(tx, listeners, r)) && SendUnblocks(tx, listeners, r).db == tx.db
    decreases |listeners|
  {
    if listeners != [] {
      SendUnblocksCalm(SendUnblock(tx, listeners[0], r), listeners[1..], r);
    }
  }

  lemma PutPromiseCalm(tx: Tx, p: Promise)
    requires p.record.id in tx.db.promises
    ensures Calm(tx, PutPromise(tx, p))
  {
    assert PutPromise(tx, p).db.promises.Keys == tx.db.promises.Keys;
  }

  lemma ThenCalm(tx: Tx, a: After)
    ensures Calm(tx, Then(tx, a))
  {
  }

  lemma SettleRecordCalm(tx: Tx, r: PromiseRecord)
    requires r.id in tx.db.promises && KeyedBy(tx.db.tasks)
    ensures Calm(tx, SettleRecord(tx, r)) && KeyedBy(SettleRecord(tx, r).db.tasks)
    ensures SettleRecord(tx, r).db.promises == tx.db.promises[r.id := Promise(r, [], [])]
  {
    var a := FulfilOwn(tx, r.id);
    assert Calm(tx, a) && KeyedBy(a.db.tasks) by {
      CalmReflexive(tx);
      if r.id in tx.db.tasks {
        var t := tx.db.tasks[r.id].Transition(TaskState.Fulfilled).(resumes := {});
        assert t.id == r.id;
        hide Calm, KeyedBy;
        PutTaskCalm(tx, t);
        ThenCalm(PutTask(tx, t), Release(r.id));
        CalmTransitive(tx, PutTask(tx, t), Then(PutTask(tx, t), Release(r.id)));
      }
    }
    hide Calm, KeyedBy;
    PutPromiseCalm(a, Promise(r, [], []));
    CalmTransitive(tx, a, SettleRecord(tx, r));
  }

  lemma SettleChainCalm(tx: Tx, p: Promise)
    requires p.record.id in tx.db.promises && KeyedBy(tx.db.tasks)
    ensures Calm(tx, SettleChain(tx, p))
    ensures SettleChain(tx, p).db.promises == tx.db.promises[p.record.id := Promise(p.record, [], [])]
  {
    hide Calm, SettleRecord, KeyedBy;
    var a := SettleRecord(tx, p.record);
    SettleRecordCalm(tx, p.record);
    var b := Fanout(a, p.callbacks, p.record.id);
    FanoutCalm(a, p.callbacks, p.record.id);
    SendUnblocksCalm(b, p.listeners, p.record);
    CalmTransitive(tx, a, b);
    CalmTransitive(tx, b, SettleChain(tx, p));
  }

  lemma KeyedTasks(env: Env, tx: Tx)
    requires TxInv(env, tx)
    ensures KeyedBy(tx.db.tasks)
    ensures forall id :: id in tx.db.promises ==> tx.db.promises[id].record.id == id
  {
    hide Agree, PromisesOk, CallbacksOk, ResumesOk, JobsOk, TimersOk, SchedulesOk, IndexOk, SentOk, HeldOk, AllJobs;
  }

  /** A transaction as a handler's body finds it: the invariant holds and no
      after-work but the release of fulfilled tasks is queued. */
  ghost predicate Steady(env: Env, tx: Tx) {
    TxInv(env, tx) && Quiet(tx.after, tx.db.tasks)
  }

  /** A deadline that has passed settles the promise. */
  lemma ExpireKeeps(env: Env, tx: Tx, id: Id)
    requires Steady(env, tx) && id in tx.db.promises && tx.db.promises[id].Due(tx.now)
    ensures var tx' := ExpirePromise(tx, tx.db.promises[id]);
            Keeps(env, tx, tx') && Steady(env, tx') && Calm(tx, tx') && !tx'.db.promises[id].IsPending()
  {
    hide DbInv, HeldOk, AllJobs, Evolves, Quiet, SettleChain;
    KeyedTasks(env, tx);
    var r := tx.db.promises[id].record.Expired();
    SettleChainKeeps(env, tx, r);
    SettleChainCalm(tx, tx.db.promises[id].(record := r));
  }

  /** A client settles a promise whose deadline is ahead. */
  lemma SettleKeeps(env: Env, tx: Tx, id: Id, state: SettleState, value: Value)
    requires Steady(env, tx) && id in tx.db.promises && tx.db.promises[id].IsPending()
    requires !tx.db.promises[id].Due(tx.now)
    ensures var tx' := Settle(tx, tx.db.promises[id], state, value);
            Keeps(env, tx, tx') && Steady(env, tx') && Calm(tx, tx') && !tx'.db.promises[id].IsPending()
  {
    hide DbInv, HeldOk, AllJobs, Evolves, Quiet, SettleChain;
    KeyedTasks(env, tx);
    var r := tx.db.promises[id].record.SettledBy(state, value, tx.now);
    SettleChainKeeps(env, tx, r);
    SettleChainCalm(tx, tx.db.promises[id].(record := r));
  }

  /** The deadlines a request applies first. No named promise is left due. */
  lemma {:induction false} TryTimeoutKeeps(env: Env, tx: Tx, ids: seq<Id>)
    requires Steady(env, tx)
    ensures var tx' := TryTimeout(tx, ids);
            && Keeps(env, tx, tx') && Steady(env, tx') && Calm(tx, tx')
            && (forall id :: id in ids && id in tx'.db.promises ==> !tx'.db.promises[id].Due(tx.now))
    decreases |ids|
  {
    hide TxInv, Evolves, Quiet, ExpirePromise, Calm;
    if ids == [] {
      KeepsReflexive(env, tx);
      CalmReflexive(tx);
    } else {
      var mid := TimeoutOne(tx, ids[0]);
      TimeoutOneKeeps(env, tx, ids[0]);
      TryTimeoutKeeps(env, mid, ids[1..]);
      var tx' := TryTimeout(mid, ids[1..]);
      KeepsTransitive(env, tx, mid, tx');
      CalmTransitive(tx, mid, tx');
      assert mid.now == tx.now by { EvolvesParts(tx, mid); }
      NotDueStays(mid, tx', ids[0]);
    }
  }

  lemma NotDueStays(tx: Tx, tx': Tx, id: Id)
    requires Evolves(tx, tx') && Calm(tx, tx')
    requires id in tx.db.promises ==> !tx.db.promises[id].Due(tx.now)
    ensures id in tx'.db.promises ==> !tx'.db.promises[id].Due(tx.now)
  {
    hide TasksEvolve, NoSuspends, Wakes, Tells, SentGrows, TasksCalm;
    if id in tx.db.promises {
      assert PromiseEvolves(tx.db.promises[id], tx'.db.promises[id], tx.now);
    }
  }

  lemma TimeoutOneKeeps(env: Env, tx: Tx, id: Id)
    requires Steady(env, tx)
    ensures var tx' := TimeoutOne(tx, id);
            && Keeps(env, tx, tx') && Steady(env, tx') && Calm(tx, tx')
            && (id in tx'.db.promises ==> !tx'.db.promises[id].Due(tx.now))
  {
    hide TxInv, Evolves, Quiet, ExpirePromise, Calm;
    if id in tx.db.promises && tx.db.promises[id].Due(tx.now) {
      ExpireKeeps(env, tx, id);
    } else {
      KeepsReflexive(env, tx);
      CalmReflexive(tx);
    }
  }

  // ---------------------------------------------------------------------- claims

  /** A change of the held claims and leases only. */
  lemma ClaimsKeep(env: Env, tx: Tx, tx': Tx)
    requires Steady(env, tx)
    requires tx' == tx.(held := tx'.held, queue := tx.queue.(leases := tx'.queue.leases, nextToken := tx'.queue.nextToken))
    requires HeldOk(tx'.held, AllJobs(tx), tx.queue.nextJob) && tx'.queue.leases.Keys <= tx.queue.jobs.Keys
    ensures Keeps(env, tx, tx') && Steady(env, tx')
  {
    hide DbInv, HeldOk, AllJobs, Quiet;
    AllJobsOf(tx, tx');
    EvolvesReflexive(tx);
    hide PromisesEvolve, TasksEvolve, NoSuspends, Wakes, Tells, SentGrows, StagedGrows;
  }

  lemma HeldFewer(held: map<Id, Claim>, jobs: Jobs, n: JobId, id: Id)
    requires HeldOk(held, jobs, n)
    ensures HeldOk(held - {id}, jobs, n)
  {
  }

  lemma HeldMore(held: map<Id, Claim>, jobs: Jobs, n: JobId, id: Id, claim: Claim)
    requires HeldOk(held, jobs, n) && ClaimFor(claim, jobs, n, Execute(id))
    ensures HeldOk(held[id := claim], jobs, n)
  {
  }

  lemma DropHeldKeeps(env: Env, tx: Tx, id: Id)
    requires Steady(env, tx)
    ensures var tx' := tx.(held := tx.held - {id}); Keeps(env, tx, tx') && Steady(env, tx')
  {
    hide DbInv, HeldOk, AllJobs, Evolves, Quiet;
    HeldFewer(tx.held, AllJobs(tx), tx.queue.nextJob, id);
    ClaimsKeep(env, tx, tx.(held := tx.held - {id}));
  }

  lemma AfterHoldsKeeps(env: Env, tx: Tx, id: Id)
    requires Steady(env, tx)
    ensures Keeps(env, tx, AfterHolds(tx, id)) && Steady(env, AfterHolds(tx, id))
  {
    hide TxInv, Evolves, Quiet;
    KeepsReflexive(env, tx);
    DropHeldKeeps(env, tx, id);
  }

  lemma RenewKeeps(env: Env, tx: Tx, id: Id, lease: int)
    requires Steady(env, tx)
    ensures Keeps(env, tx, Renew(tx, id, lease)) && Steady(env, Renew(tx, id, lease))
  {
    hide DbInv, HeldOk, AllJobs, Evolves, Quiet;
    if CanRenew(tx, id) {
      ClaimsKeep(env, tx, Renew(tx, id, lease));
    } else {
      DropHeldKeeps(env, tx, id);
    }
  }

  /** A task's own live job can be claimed for it. */
  lemma ClaimHeldKeeps(env: Env, tx: Tx, id: Id, job: JobId, lease: int)
    requires Steady(env, tx)
    requires job < tx.queue.nextJob && (job in AllJobs(tx) ==> AllJobs(tx)[job].payload == Execute(id))
    ensures Keeps(env, tx, ClaimHeld(tx, id, job, lease)) && Steady(env, ClaimHeld(tx, id, job, lease))
  {
    hide DbInv, HeldOk, Evolves, Quiet;
    KeepsReflexive(env, tx);
    if tx.queue.Claimable(job) {
      assert job in AllJobs(tx) && AllJobs(tx)[job] == tx.queue.jobs[job];
      HeldMore(tx.held, AllJobs(tx), tx.queue.nextJob, id, tx.queue.ClaimOf(job));
      ClaimsKeep(env, tx, ClaimHeld(tx, id, job, lease));
    }
  }

  lemma ClaimForCreateKeeps(env: Env, tx: Tx, id: Id, ttl: int)
    requires Steady(env, tx) && id in tx.db.tasks && NeedsJob(tx.db.tasks[id])
    ensures var tx' := ClaimForCreate(tx, tx.db.tasks[id], ttl);
            Keeps(env, tx, tx') && Steady(env, tx') && tx'.db == tx.db
  {
    hide TxInv, Evolves, Quiet, ClaimHeld, AfterHolds;
    var t := tx.db.tasks[id];
    TaskFactsOf(env, tx, id);
    KeepsReflexive(env, tx);
    AfterHoldsKeeps(env, tx, id);
    var mid := AfterHolds(tx, id);
    AfterHoldsDb(tx, id);
    AllJobsOf(tx, mid);
    if t.job.Some? {
      ClaimHeldKeeps(env, mid, id, t.job.value, LeaseOf(ttl));
      KeepsTransitive(env, tx, mid, ClaimHeld(mid, id, t.job.value, LeaseOf(ttl)));
      ClaimHeldDb(mid, id, t.job.value, LeaseOf(ttl));
    }
  }

  lemma AfterHoldsDb(tx: Tx, id: Id)
    ensures var tx' := AfterHolds(tx, id);
            tx'.db == tx.db && tx'.queue == tx.queue && tx'.staged == tx.staged && tx'.after == tx.after && tx'.now == tx.now
  {
  }

  lemma ClaimHeldDb(tx: Tx, id: Id, job: JobId, lease: int)
    ensures ClaimHeld(tx, id, job, lease).db == tx.db
  {
  }

  /** A holder that renews its lease acquires a pending task at the next version. */
  lemma AcquireKeeps(env: Env, tx: Tx, id: Id, pid: string, ttl: int)
    requires Steady(env, tx) && id in tx.db.tasks && tx.db.tasks[id].state.Pending?
    ensures var tx' := Acquire(tx, tx.db.tasks[id], pid, ttl);
            && Keeps(env, tx, tx') && Steady(env, tx')
            && tx'.db == (if CanRenew(tx, id) then tx.db.(tasks := tx.db.tasks[id := AcquiredBy(tx.db.tasks[id], pid, ttl)]) else tx.db)
  {
    hide TxInv, Evolves, Quiet, CanRenew, AllJobs, CanResume;
    var t := tx.db.tasks[id];
    TaskFactsOf(env, tx, id);
    var mid := Renew(tx, id, LeaseOf(ttl));
    RenewKeeps(env, tx, id, LeaseOf(ttl));
    RenewDb(tx, id, LeaseOf(ttl));
    AllJobsOf(tx, mid);
    if CanRenew(tx, id) {
      PutTaskKeeps(env, mid, AcquiredBy(t, pid, ttl));
      var tx' := PutTask(mid, AcquiredBy(t, pid, ttl));
      KeepsTransitive(env, tx, mid, tx');
      EvolvesParts(mid, tx');
      QuietStays(mid.after, mid.db.tasks, tx'.db.tasks);
    }
  }

  lemma RenewDb(tx: Tx, id: Id, lease: int)
    ensures var tx' := Renew(tx, id, lease);
            && tx' == tx.(held := tx'.held, queue := tx.queue.(leases := tx'.queue.leases))
  {
  }

  lemma BeatKeeps(env: Env, tx: Tx, pid: string, id: Id, version: int)
    requires Steady(env, tx)
    ensures var tx' := Beat(tx, pid, id, version); Keeps(env, tx, tx') && Steady(env, tx') && tx'.db == tx.db
  {
    hide TxInv, Evolves, Quiet, Renew;
    KeepsReflexive(env, tx);
    if id in tx.db.tasks && tx.db.tasks[id].ttl.Some? {
      RenewKeeps(env, tx, id, LeaseOf(tx.db.tasks[id].ttl.value));
      RenewDb(tx, id, LeaseOf(tx.db.tasks[id].ttl.value));
    }
  }

  lemma {:induction false} BeatsKeep(env: Env, tx: Tx, pid: string, beats: seq<(Id, int)>)
    requires Steady(env, tx)
    ensures var tx' := Beats(tx, pid, beats); Keeps(env, tx, tx') && Steady(env, tx') && tx'.db == tx.db
    decreases |beats|
  {
    hide TxInv, Evolves, Quiet, Beat;
    KeepsReflexive(env, tx);
    if beats != [] {
      var mid := Beat(tx, pid, beats[0].0, beats[0].1);
      BeatKeeps(env, tx, pid, beats[0].0, beats[0].1);
      BeatsKeep(env, mid, pid, beats[1..]);
      KeepsTransitive(env, tx, mid, Beats(mid, pid, beats[1..]));
    }
  }

  // --------------------------------------------------------------- registrations

  lemma PutPromiseRecords(promises: Promises, tasks: Tasks, p: Promise, now: int)
    requires Keyed(promises, tasks) && Agree(promises, tasks) && PromisesOk(promises, now) && ResumesOk(promises, tasks)
    requires p.record.id in promises && p.record == promises[p.record.id].record && PromiseOk(p, now)
    ensures var promises' := promises[p.record.id := p];
            Keyed(promises', tasks) && Agree(promises', tasks) && PromisesOk(promises', now) && ResumesOk(promises', tasks)
  {
    hide OriginOf, PromiseOk;
  }

  lemma PutPromiseCallbacks(promises: Promises, awaiters: set<Id>, p: Promise)
    requires CallbacksOk(promises, awaiters) && p.record.id in promises
    requires forall c :: c in p.callbacks ==>
               c in awaiters && c in promises && c != p.record.id && OriginOf(c) == OriginOf(p.record.id)
    ensures CallbacksOk(promises[p.record.id := p], awaiters)
  {
    hide OriginOf;
  }

  lemma PutPromiseRest(promises: Promises, jobs: Jobs, done: set<JobId>, index: set<string>, p: Promise)
    requires TimersOk(promises, jobs, done) && IndexOk(promises, index)
    requires p.record.id in promises && p.record == promises[p.record.id].record
    ensures TimersOk(promises[p.record.id := p], jobs, done) && IndexOk(promises[p.record.id := p], index)
  {
    hide BranchKey, HasTimer;
    IndexStays(promises, promises[p.record.id := p], index) by { hide TimersOk; }
    hide IndexOk;
  }

  lemma PutPromiseSent(promises: Promises, jobs: Jobs, n: JobId, sent: Sent, p: Promise)
    requires SentOk(promises, jobs, n, sent)
    requires p.record.id in promises && p.record == promises[p.record.id].record
    ensures SentOk(promises[p.record.id := p], jobs, n, sent)
  {
  }

  lemma PutPromiseEvolves(promises: Promises, p: Promise, tasks: Tasks, sent: Sent, now: int)
    requires p.record.id in promises && p.IsPending() && p.record == promises[p.record.id].record
    requires promises[p.record.id].callbacks <= p.callbacks && promises[p.record.id].listeners <= p.listeners
    ensures var promises' := promises[p.record.id := p];
            PromisesEvolve(promises, promises', now) && Wakes(promises, promises', tasks, now) && Tells(promises, promises', sent)
  {
  }

  /** A registration against a pending promise. */
  lemma PutPromiseKeeps(env: Env, tx: Tx, p: Promise)
    requires Steady(env, tx)
    requires p.record.id in tx.db.promises && p.IsPending() && p.record == tx.db.promises[p.record.id].record
    requires tx.db.promises[p.record.id].callbacks <= p.callbacks
    requires tx.db.promises[p.record.id].listeners <= p.listeners
    requires PromiseOk(p, tx.now)
    requires forall c :: c in p.callbacks ==>
               c in tx.db.tasks && c in tx.db.promises && c != p.record.id && OriginOf(c) == OriginOf(p.record.id)
    ensures Keeps(env, tx, PutPromise(tx, p)) && Steady(env, PutPromise(tx, p))
  {
    hide Keyed, Agree, PromisesOk, CallbacksOk, ResumesOk, JobsOk, TimersOk, SchedulesOk, IndexOk, SentOk, HeldOk,
      PromisesEvolve, Wakes, Tells, AllJobs, Quiet, PromiseOk, OriginOf;
    var tx' := PutPromise(tx, p);
    AllJobsOf(tx, tx');
    PutPromiseRecords(tx.db.promises, tx.db.tasks, p, tx.now);
    PutPromiseCallbacks(tx.db.promises, tx.db.tasks.Keys, p);
    PutPromiseRest(tx.db.promises, AllJobs(tx), tx.done, tx.db.index, p);
    PutPromiseSent(tx.db.promises, AllJobs(tx), tx.queue.nextJob, tx.sent, p);
    PutPromiseEvolves(tx.db.promises, p, tx.db.tasks, tx.sent, tx.now);
  }

  lemma PromiseFactsOf(env: Env, tx: Tx, id: Id)
    requires TxInv(env, tx) && id in tx.db.promises
    ensures tx.db.promises[id].record.id == id && PromiseOk(tx.db.promises[id], tx.now)
    ensures id in tx.db.tasks <==> Target in tx.db.promises[id].record.tags
    ensures forall c :: c in tx.db.promises[id].callbacks ==>
              c in tx.db.tasks && c in tx.db.promises && c != id && OriginOf(c) == OriginOf(id)
  {
    hide PromisesOk, ResumesOk, JobsOk, TimersOk, SchedulesOk, IndexOk, SentOk, HeldOk,
      AllJobs, PromiseOk, OriginOf;
    PromiseFacts(tx.db.promises, tx.now, id);
  }

  lemma DistinctAppend<T(!new)>(s: seq<T>, x: T)
    requires Distinct(s) && x !in s
    ensures Distinct(s + [x])
  {
  }

  lemma AddCallbackKeeps(env: Env, tx: Tx, awaited: Id, awaiter: Id)
    requires Steady(env, tx)
    requires awaited in tx.db.promises && tx.db.promises[awaited].IsPending()
    requires tx.db.promises[awaited].record.IsExternal()
    requires awaiter in tx.db.tasks && awaiter in tx.db.promises && awaiter != awaited
    requires OriginOf(awaiter) == OriginOf(awaited)
    ensures var tx' := AddCallback(tx, awaited, awaiter);
            && Keeps(env, tx, tx') && Steady(env, tx')
            && tx' == tx.(db := tx.db.(promises := tx'.db.promises)) && tx'.db.promises.Keys == tx.db.promises.Keys
            && (forall id :: id in tx.db.promises ==> tx'.db.promises[id].record == tx.db.promises[id].record)
            && awaiter in tx'.db.promises[awaited].callbacks
  {
    hide TxInv, Evolves, Quiet, OriginOf;
    var p := tx.db.promises[awaited];
    KeepsReflexive(env, tx);
    PromiseFactsOf(env, tx, awaited);
    if awaiter !in p.callbacks {
      var p' := p.(callbacks := p.callbacks + [awaiter]);
      DistinctAppend(p.callbacks, awaiter);
      PutPromiseKeeps(env, tx, p');
      assert awaiter in p'.callbacks;
    }
  }

  lemma AddListenerKeeps(env: Env, tx: Tx, awaited: Id, address: Address)
    requires Steady(env, tx) && awaited in tx.db.promises && tx.db.promises[awaited].record.IsExternal()
    ensures var tx' := AddListener(tx, awaited, address); Keeps(env, tx, tx') && Steady(env, tx')
    ensures tx.db.promises[awaited].IsPending() ==>
              awaited in AddListener(tx, awaited, address).db.promises
              && address in AddListener(tx, awaited, address).db.promises[awaited].listeners
  {
    hide TxInv, Evolves, Quiet, OriginOf;
    var p := tx.db.promises[awaited];
    KeepsReflexive(env, tx);
    PromiseFactsOf(env, tx, awaited);
    if p.IsPending() && address !in p.listeners {
      var p' := p.(listeners := p.listeners + [address]);
      DistinctAppend(p.listeners, address);
      PutPromiseKeeps(env, tx, p');
      assert address in p'.listeners;
    }
  }

  // ------------------------------------------------------------ halt and continue

  lemma ReleaseKeeps(env: Env, tx: Tx, id: Id)
    requires Steady(env, tx) && id in tx.db.tasks && tx.db.tasks[id].state.Acquired?
    ensures var tx' := PutTask(tx, tx.db.tasks[id].Transition(TaskState.Pending)); Keeps(env, tx, tx') && Steady(env, tx')
  {
    hide TxInv, Evolves, Quiet, CanResume, AllJobs;
    TaskFactsOf(env, tx, id);
    var tx' := PutTask(tx, tx.db.tasks[id].Transition(TaskState.Pending));
    PutTaskKeeps(env, tx, tx.db.tasks[id].Transition(TaskState.Pending));
    EvolvesParts(tx, tx');
    QuietStays(tx.after, tx.db.tasks, tx'.db.tasks);
  }

  lemma HaltKeeps(env: Env, tx: Tx, id: Id)
    requires Steady(env, tx) && id in tx.db.tasks && !tx.db.tasks[id].state.Fulfilled?
    ensures var tx' := PutTask(tx, tx.db.tasks[id].Transition(TaskState.Halted)); Keeps(env, tx, tx') && Steady(env, tx')
  {
    hide TxInv, Evolves, Quiet, CanResume, AllJobs;
    TaskFactsOf(env, tx, id);
    var tx' := PutTask(tx, tx.db.tasks[id].Transition(TaskState.Halted));
    PutTaskKeeps(env, tx, tx.db.tasks[id].Transition(TaskState.Halted));
    EvolvesParts(tx, tx');
    QuietStays(tx.after, tx.db.tasks, tx'.db.tasks);
  }

  lemma ContinueKeeps(env: Env, tx: Tx, id: Id)
    requires Steady(env, tx) && id in tx.db.tasks && tx.db.tasks[id].state.Halted?
    requires tx.db.tasks[id].job.Some? ==> tx.db.tasks[id].job.value !in tx.staged
    ensures var tx' := ContinueTask(tx, tx.db.tasks[id]); Keeps(env, tx, tx') && Steady(env, tx')
  {
    hide TxInv, Evolves, Quiet, CanResume;
    TaskFactsOf(env, tx, id);
    var t := tx.db.tasks[id].Transition(TaskState.Pending);
    var tx' := ContinueTask(tx, tx.db.tasks[id]);
    if t.job.Some? && t.job.value in tx.queue.jobs {
      PutTaskKeeps(env, tx, t);
    } else {
      DispatchKeeps(env, tx, t, None);
      assert Dispatch(PutTask(tx, t), t, None) == Dispatch(tx, t, None);
    }
    EvolvesParts(tx, tx');
    QuietStays(tx.after, tx.db.tasks, tx'.db.tasks);
  }

  // -------------------------------------------------------------------- creation

  lemma CreateResumes(promises: Promises, tasks: Tasks, tasks': Tasks, r: PromiseRecord)
    requires ResumesOk(promises, tasks) && r.id !in promises
    requires tasks' == tasks || (r.id in tasks' && tasks' == tasks[r.id := tasks'[r.id]] && tasks'[r.id].resumes == {})
    ensures ResumesOk(promises[r.id := Promise(r, [], [])], tasks')
  {
    hide OriginOf;
    var promises' := promises[r.id := Promise(r, [], [])];
    forall id, s | id in tasks' && s in tasks'[id].resumes ensures CanResume(promises', id, s) {
      assert CanResume(promises, id, s);
    }
  }

  lemma CreateAgrees(promises: Promises, tasks: Tasks, tasks': Tasks, r: PromiseRecord)
    requires Keyed(promises, tasks) && Agree(promises, tasks) && r.id !in promises
    requires if Target in r.tags then
               r.id in tasks' && tasks' == tasks[r.id := tasks'[r.id]]
               && tasks'[r.id].id == r.id && tasks'[r.id].target == r.tags[Target]
               && (tasks'[r.id].state.Fulfilled? <==> !r.state.Pending?)
             else tasks' == tasks
    ensures Keyed(promises[r.id := Promise(r, [], [])], tasks') && Agree(promises[r.id := Promise(r, [], [])], tasks')
  {
  }

  lemma CreateRecords(promises: Promises, tasks: Tasks, tasks': Tasks, r: PromiseRecord, now: int)
    requires Keyed(promises, tasks) && Agree(promises, tasks) && PromisesOk(promises, now) && ResumesOk(promises, tasks)
    requires r.id !in promises && PromiseOk(Promise(r, [], []), now)
    requires if Target in r.tags then
               r.id in tasks' && tasks' == tasks[r.id := tasks'[r.id]]
               && tasks'[r.id].id == r.id && tasks'[r.id].target == r.tags[Target]
               && tasks'[r.id].resumes == {} && (tasks'[r.id].state.Fulfilled? <==> !r.state.Pending?)
             else tasks' == tasks
    ensures var promises' := promises[r.id := Promise(r, [], [])];
            Keyed(promises', tasks') && Agree(promises', tasks') && PromisesOk(promises', now) && ResumesOk(promises', tasks')
  {
    hide PromiseOk;
    CreateResumes(promises, tasks, tasks', r) by { hide Keyed, Agree, PromisesOk, ResumesOk; }
    CreateAgrees(promises, tasks, tasks', r) by { hide PromisesOk, ResumesOk; }
    hide Keyed, Agree, ResumesOk;
  }

  lemma CreateCallbacks(promises: Promises, awaiters: set<Id>, awaiters': set<Id>, r: PromiseRecord)
    requires CallbacksOk(promises, awaiters) && awaiters <= awaiters'
    ensures CallbacksOk(promises[r.id := Promise(r, [], [])], awaiters')
  {
    hide OriginOf;
  }

  lemma CreateIndex(promises: Promises, index: set<string>, index': set<string>, r: PromiseRecord)
    requires IndexOk(promises, index) && r.id !in promises
    requires index' == if Branch in r.tags then index + {BranchKey(r.tags[Branch], r.id)} else index
    ensures IndexOk(promises[r.id := Promise(r, [], [])], index')
  {
    hide BranchKey;
    var promises' := promises[r.id := Promise(r, [], [])];
    forall k | k in index' ensures exists id :: IndexEntry(promises', k, id) {
      if k in index {
        var id :| IndexEntry(promises, k, id);
        assert IndexEntry(promises', k, id);
      } else {
        assert IndexEntry(promises', k, r.id);
      }
    }
  }

  lemma CreateSent(promises: Promises, jobs: Jobs, n: JobId, sent: Sent, r: PromiseRecord)
    requires SentOk(promises, jobs, n, sent) && r.id !in promises
    ensures SentOk(promises[r.id := Promise(r, [], [])], jobs, n, sent)
  {
  }

  lemma CreateTimers(promises: Promises, jobs: Jobs, done: set<JobId>, r: PromiseRecord)
    requires TimersOk(promises, jobs, done) && r.id !in promises
    requires r.state.Pending? && r.IsExternal() ==> HasTimer(jobs, done, PromiseTimeout(r.id))
    ensures TimersOk(promises[r.id := Promise(r, [], [])], jobs, done)
  {
    hide HasTimer;
  }

  /** The invariant while promise `r` is being created and has no timer yet. */
  ghost predicate Creating(env: Env, tx: Tx, before: Promises, r: PromiseRecord) {
    && r.id !in before && tx.db.promises == before[r.id := Promise(r, [], [])]
    && Keyed(tx.db.promises, tx.db.tasks)
    && Agree(tx.db.promises, tx.db.tasks)
    && PromisesOk(tx.db.promises, tx.now)
    && CallbacksOk(tx.db.promises, tx.db.tasks.Keys)
    && ResumesOk(tx.db.promises, tx.db.tasks)
    && JobsOk(tx.db.tasks, AllJobs(tx), tx.queue.nextJob)
    && TimersOk(before, AllJobs(tx), tx.done)
    && SchedulesOk(env, tx.db.schedules, AllJobs(tx), tx.done, tx.now)
    && IndexOk(tx.db.promises, tx.db.index)
    && SentOk(tx.db.promises, AllJobs(tx), tx.queue.nextJob, tx.sent)
    && HeldOk(tx.held, AllJobs(tx), tx.queue.nextJob)
    && tx.staged.Keys !! tx.queue.jobs.Keys
    && tx.queue.leases.Keys <= tx.queue.jobs.Keys
    && (forall j :: j in tx.done ==> j < tx.queue.nextJob)
  }

  lemma NoTaskYet(promises: Promises, tasks: Tasks, id: Id)
    requires Agree(promises, tasks) && id !in promises
    ensures id !in tasks
  {
  }

  lemma PutNewJobs(tasks: Tasks, jobs: Jobs, n: JobId, t: Task)
    requires JobsOk(tasks, jobs, n) && t.id !in tasks && t.job.None? && !NeedsJob(t)
    ensures JobsOk(tasks[t.id := t], jobs, n)
  {
  }

  /** The task a created promise starts with. */
  function CreatedTask(now: int, n: JobId, r: PromiseRecord, mode: CreateMode): Task
    requires Target in r.tags
  {
    var t := NewTask(r.id, r.tags[Target], TaskState.Pending);
    if !r.state.Pending? then t.(state := TaskState.Fulfilled)
    else match mode
      case CreateAcquire(pid, ttl) =>
        t.(state := TaskState.Acquired, version := 1, pid := Some(pid), ttl := Some(ttl), job := Some(n))
      case CreateDispatch => t.(job := Some(n))
  }

  function CreatedJob(now: int, r: PromiseRecord, mode: CreateMode): Job
    requires Target in r.tags
  {
    var runAt := match mode
      case CreateAcquire(_, ttl) => Some(SaturatingAdd(now, ttl))
      case CreateDispatch => DelayOf(now, r.tags);
    Job(Deliveries(r.tags[Target]), Execute(r.id), if runAt.Some? then Max(runAt.value, 0) else 0)
  }

  lemma CreateTaskShape(tx: Tx, r: PromiseRecord, mode: CreateMode)
    ensures var tx' := CreateTask(tx, r, mode);
            && tx' == tx.(db := tx.db.(tasks := tx'.db.tasks), queue := tx.queue.(nextJob := tx'.queue.nextJob),
                          staged := tx'.staged, after := tx'.after)
            && (if Target !in r.tags then tx' == tx
                else
                  && tx'.db.tasks == tx.db.tasks[r.id := CreatedTask(tx.now, tx.queue.nextJob, r, mode)]
                  && if !r.state.Pending? then tx'.staged == tx.staged && tx'.queue == tx.queue && tx'.after == tx.after
                     else
                       && tx'.staged == tx.staged[tx.queue.nextJob := CreatedJob(tx.now, r, mode)]
                       && tx'.queue.nextJob == tx.queue.nextJob + 1
                       && tx'.after == tx.after +
                            (if mode.CreateAcquire? then [ClaimJob(r.id, tx.queue.nextJob, LeaseOf(mode.ttl))] else []))
  {
    hide DelayOf, SaturatingAdd;
  }

  /** The promise and its index entry, before its task. */
  function Placed(tx: Tx, r: PromiseRecord): Tx {
    PutPromise(IndexBranch(tx, r), Promise(r, [], []))
  }

  lemma PlacedShape(tx: Tx, r: PromiseRecord)
    ensures var a := Placed(tx, r);
            && a == tx.(db := tx.db.(promises := tx.db.promises[r.id := Promise(r, [], [])], index := a.db.index))
            && a.db.index == (if Branch in r.tags then tx.db.index + {BranchKey(r.tags[Branch], r.id)} else tx.db.index)
  {
    hide BranchKey;
  }

  lemma CreateRecordsPart(env: Env, tx: Tx, tx': Tx, r: PromiseRecord, mode: CreateMode)
    requires TxInv(env, tx) && r.id !in tx.db.promises && PromiseOk(Promise(r, [], []), tx.now)
    requires tx' == CreateTask(Placed(tx, r), r, mode)
    ensures Keyed(tx'.db.promises, tx'.db.tasks) && Agree(tx'.db.promises, tx'.db.tasks)
    ensures PromisesOk(tx'.db.promises, tx'.now) && CallbacksOk(tx'.db.promises, tx'.db.tasks.Keys)
    ensures ResumesOk(tx'.db.promises, tx'.db.tasks) && IndexOk(tx'.db.promises, tx'.db.index)
    ensures tx'.db.promises == tx.db.promises[r.id := Promise(r, [], [])]
  {
    hide Keyed, Agree, PromisesOk, CallbacksOk, ResumesOk, JobsOk, TimersOk, SchedulesOk, IndexOk, SentOk, HeldOk,
      AllJobs, PromiseOk, OriginOf, BranchKey, CreateTask, CreatedJob, Placed;
    PlacedShape(tx, r);
    CreateTaskShape(Placed(tx, r), r, mode);
    NoTaskYet(tx.db.promises, tx.db.tasks, r.id);
    CreateRecords(tx.db.promises, tx.db.tasks, tx'.db.tasks, r, tx.now);
    assert tx.db.tasks.Keys <= tx'.db.tasks.Keys;
    CreateCallbacks(tx.db.promises, tx.db.tasks.Keys, tx'.db.tasks.Keys, r);
    CreateIndex(tx.db.promises, tx.db.index, tx'.db.index, r);
  }

  lemma CreateJobsPart(env: Env, tx: Tx, tx': Tx, r: PromiseRecord, mode: CreateMode)
    requires TxInv(env, tx) && r.id !in tx.db.promises
    requires tx' == CreateTask(Placed(tx, r), r, mode)
    ensures JobsOk(tx'.db.tasks, AllJobs(tx'), tx'.queue.nextJob) && TimersOk(tx.db.promises, AllJobs(tx'), tx'.done)
    ensures SchedulesOk(env, tx'.db.schedules, AllJobs(tx'), tx'.done, tx'.now)
    ensures HeldOk(tx'.held, AllJobs(tx'), tx'.queue.nextJob)
    ensures SentOk(tx'.db.promises, AllJobs(tx'), tx'.queue.nextJob, tx'.sent)
    ensures tx'.staged.Keys !! tx'.queue.jobs.Keys && tx'.queue.leases.Keys <= tx'.queue.jobs.Keys
    ensures forall j :: j in tx'.done ==> j < tx'.queue.nextJob
  {
    hide Keyed, Agree, PromisesOk, CallbacksOk, ResumesOk, JobsOk, TimersOk, SchedulesOk, IndexOk, SentOk, HeldOk,
      AllJobs, CreateTask, CreatedJob, Placed;
    var a := Placed(tx, r);
    var jobs, n := AllJobs(tx), tx.queue.nextJob;
    PlacedShape(tx, r);
    CreateTaskShape(a, r, mode);
    NoTaskYet(tx.db.promises, tx.db.tasks, r.id);
    AllJobsOf(tx, a);
    CreateSent(tx.db.promises, jobs, n, tx.sent, r);
    JobsBounded(tx.db.tasks, jobs, n);
    KeyedById(tx.db.promises, tx.db.tasks);
    if Target !in r.tags {
    } else if !r.state.Pending? {
      PutNewJobs(tx.db.tasks, jobs, n, tx'.db.tasks[r.id]);
      AllJobsOf(a, tx');
    } else {
      CreateJobKeeps(env, a, tx.db.promises, tx', r, mode);
    }
  }

  /** The records of the new promise, with its task and its index entry. */
  lemma CreateTaskKeeps(env: Env, tx: Tx, r: PromiseRecord, mode: CreateMode)
    requires TxInv(env, tx) && r.id !in tx.db.promises && PromiseOk(Promise(r, [], []), tx.now)
    ensures Creating(env, CreateTask(Placed(tx, r), r, mode), tx.db.promises, r)
  {
    hide Keyed, Agree, PromisesOk, CallbacksOk, ResumesOk, JobsOk, TimersOk, SchedulesOk, IndexOk, SentOk, HeldOk,
      AllJobs, CreateTask, Placed, PromiseOk, TxInv;
    var tx' := CreateTask(Placed(tx, r), r, mode);
    CreateRecordsPart(env, tx, tx', r, mode);
    CreateJobsPart(env, tx, tx', r, mode);
  }

  lemma KeyedById(promises: Promises, tasks: Tasks)
    requires Keyed(promises, tasks)
    ensures KeyedBy(tasks)
  {
  }

  /** The dispatch of the new task. */
  lemma CreateJobKeeps(env: Env, a: Tx, before: Promises, tx': Tx, r: PromiseRecord, mode: CreateMode)
    requires Target in r.tags && r.state.Pending? && r.id !in a.db.tasks
    requires a.staged.Keys !! a.queue.jobs.Keys && KeyedBy(a.db.tasks)
    requires forall j :: j in AllJobs(a) ==> j < a.queue.nextJob
    requires JobsOk(a.db.tasks, AllJobs(a), a.queue.nextJob) && TimersOk(before, AllJobs(a), a.done)
    requires SchedulesOk(env, a.db.schedules, AllJobs(a), a.done, a.now) && HeldOk(a.held, AllJobs(a), a.queue.nextJob)
    requires SentOk(a.db.promises, AllJobs(a), a.queue.nextJob, a.sent)
    requires tx'.db.tasks == a.db.tasks[r.id := CreatedTask(a.now, a.queue.nextJob, r, mode)]
    requires tx'.staged == a.staged[a.queue.nextJob := CreatedJob(a.now, r, mode)]
    requires tx'.queue == a.queue.(nextJob := a.queue.nextJob + 1)
    ensures tx'.staged.Keys !! tx'.queue.jobs.Keys
    ensures JobsOk(tx'.db.tasks, AllJobs(tx'), tx'.queue.nextJob) && TimersOk(before, AllJobs(tx'), a.done)
    ensures SchedulesOk(env, a.db.schedules, AllJobs(tx'), a.done, a.now)
    ensures HeldOk(a.held, AllJobs(tx'), tx'.queue.nextJob)
    ensures SentOk(a.db.promises, AllJobs(tx'), tx'.queue.nextJob, a.sent)
  {
    hide JobsOk, TimersOk, SchedulesOk, SentOk, HeldOk, AllJobs;
    var jobs, n, job := AllJobs(a), a.queue.nextJob, CreatedJob(a.now, r, mode);
    StageAddsJob(a, job);
    AllJobsOf(Stage(a, job), tx');
    StagedStaysFresh(a, job);
    DispatchJobs(a.db.tasks, jobs, n, tx'.db.tasks[r.id], job);
    AddJobKeeps(env, a.db, a.held, jobs, n, job, a.done, a.now);
    AddJobTimers(before, jobs, n, job, a.done);
    AddJobSent(a.db.promises, jobs, n, job, a.sent);
  }

  /** A created promise gets its timer; nothing else does. */
  lemma CreateTimerKeeps(env: Env, tx: Tx, before: Promises, r: PromiseRecord)
    requires Creating(env, tx, before, r)
    ensures TxInv(env, CreateTimer(tx, r))
  {
    hide Keyed, Agree, PromisesOk, CallbacksOk, ResumesOk, JobsOk, TimersOk, SchedulesOk, IndexOk, SentOk, HeldOk,
      AllJobs, HasTimer;
    if r.state.Pending? && r.IsExternal() {
      var job := Job(Timers, PromiseTimeout(r.id), Max(r.timeoutAt, 0));
      var jobs, n, tx' := AllJobs(tx), tx.queue.nextJob, CreateTimer(tx, r);
      JobsBounded(tx.db.tasks, jobs, n);
      StageAddsJob(tx, job);
      StagedStaysFresh(tx, job);
      AddJobKeeps(env, tx.db, tx.held, jobs, n, job, tx.done, tx.now);
      AddJobSent(tx.db.promises, jobs, n, job, tx.sent);
      AddJobTasks(tx.db.tasks, jobs, n, job);
      TimerForNew(before, jobs, n, tx.done, r);
    } else {
      CreateTimers(before, AllJobs(tx), tx.done, r);
    }
  }

  lemma TimerForNew(before: Promises, jobs: Jobs, n: JobId, done: set<JobId>, r: PromiseRecord)
    requires TimersOk(before, jobs, done) && r.id !in before && n !in jobs && n !in done
    ensures TimersOk(before[r.id := Promise(r, [], [])], jobs[n := Job(Timers, PromiseTimeout(r.id), Max(r.timeoutAt, 0))], done)
  {
    var jobs' := jobs[n := Job(Timers, PromiseTimeout(r.id), Max(r.timeoutAt, 0))];
    assert jobs'[n].payload == PromiseTimeout(r.id);
    assert HasTimer(jobs', done, PromiseTimeout(r.id));
    hide HasTimer;
    HasTimersStay(jobs, jobs', done);
  }

  lemma NewEvolves(promises: Promises, r: PromiseRecord, tasks': Tasks, sent: Sent, now: int)
    requires r.id !in promises
    ensures var promises' := promises[r.id := Promise(r, [], [])];
            PromisesEvolve(promises, promises', now) && Wakes(promises, promises', tasks', now) && Tells(promises, promises', sent)
  {
  }

  lemma NewTaskEvolves(tasks: Tasks, tasks': Tasks, id: Id)
    requires id !in tasks && (tasks' == tasks || (id in tasks' && tasks' == tasks[id := tasks'[id]] && !tasks'[id].state.Suspended?))
    ensures TasksEvolve(tasks, tasks') && NoSuspends(tasks, tasks')
  {
  }

  lemma CreatedIsOk(now: int, data: CreateData, createdAt: Option<int>)
    requires createdAt.Some? ==> createdAt.value <= now && createdAt.value <= data.timeoutAt
    ensures var r := CreatedRecord(now, data, createdAt);
            PromiseOk(Promise(r, [], []), now) && r.id == data.id && r.tags == data.tags && r.timeoutAt == data.timeoutAt
  {
  }

  /** The shape of a creation. */
  lemma CreateShape(tx: Tx, r: PromiseRecord, mode: CreateMode)
    requires r.id !in tx.db.tasks
    ensures var tx' := CreateTimer(CreateTask(Placed(tx, r), r, mode), r);
            && tx' == tx.(db := tx.db.(promises := tx.db.promises[r.id := Promise(r, [], [])], tasks := tx'.db.tasks, index := tx'.db.index),
                          queue := tx.queue.(nextJob := tx'.queue.nextJob), staged := tx'.staged, after := tx'.after)
            && tx.queue.nextJob <= tx'.queue.nextJob && StagedGrows(tx.staged, tx.queue.nextJob, tx'.staged)
            && (if Target !in r.tags then tx'.db.tasks == tx.db.tasks
                else tx'.db.tasks == tx.db.tasks[r.id := CreatedTask(tx.now, tx.queue.nextJob, r, mode)])
            && (tx'.after == tx.after || (mode.CreateAcquire? && Target in r.tags
                 && tx'.after == tx.after + [ClaimJob(r.id, tx.queue.nextJob, LeaseOf(mode.ttl))]
                 && tx.queue.nextJob < tx'.queue.nextJob && tx.queue.nextJob in tx'.staged
                 && tx'.staged[tx.queue.nextJob] == CreatedJob(tx.now, r, mode)))
  {
    hide CreateTask, CreateTimer, CreatedJob, BranchKey, Placed, CreatedTask;
    var a := Placed(tx, r);
    PlacedShape(tx, r);
    CreateTaskShape(a, r, mode);
    CreateTimerShape(CreateTask(a, r, mode), r);
  }

  /** A promise is created with its task, its timer and its index entry. */
  lemma CreateKeeps(env: Env, tx: Tx, data: CreateData, createdAt: Option<int>, mode: CreateMode)
    requires Steady(env, tx) && data.id !in tx.db.promises
    requires createdAt.Some? ==> createdAt.value <= tx.now && createdAt.value <= data.timeoutAt
    ensures var tx' := CreatePromise(tx, data, createdAt, mode);
            && Keeps(env, tx, tx')
            && (mode.CreateDispatch? ==> Quiet(tx'.after, tx'.db.tasks))
            && AftersOk(tx')
            && tx'.db.promises == tx.db.promises[data.id := Promise(CreatedRecord(tx.now, data, createdAt), [], [])]
            && tx'.db.schedules == tx.db.schedules && tx'.held == tx.held && tx'.queue.leases == tx.queue.leases
            && tx'.queue.nextToken == tx.queue.nextToken
            && (Target in data.tags ==> data.id in tx'.db.tasks && tx'.db.tasks[data.id].id == data.id)
  {
    hide DbInv, HeldOk, AllJobs, PromisesEvolve, TasksEvolve, NoSuspends, Wakes, Tells, SentGrows, Quiet, CreateTask,
      CreateTimer,
      CreatedJob, Placed, AftersOk, CreatedRecord, PromiseOk;
    var r := CreatedRecord(tx.now, data, createdAt);
    CreatedIsOk(tx.now, data, createdAt);
    var tx' := CreateTimer(CreateTask(Placed(tx, r), r, mode), r);
    assert tx' == CreatePromise(tx, data, createdAt, mode) by { PlacedIs(tx, r); }
    CreateTaskKeeps(env, tx, r, mode);
    CreateTimerKeeps(env, CreateTask(Placed(tx, r), r, mode), tx.db.promises, r);
    assert r.id !in tx.db.tasks by { NoTask(env, tx, r.id); }
    CreateShape(tx, r, mode);
    CreateEvolves(tx, tx', r, mode);
    QuietStays(tx.after, tx.db.tasks, tx'.db.tasks);
    CreateAftersOk(tx, tx', r, mode);
  }

  lemma PlacedIs(tx: Tx, r: PromiseRecord)
    ensures Placed(tx, r) == PutPromise(IndexBranch(tx, r), Promise(r, [], []))
  {
  }

  lemma CreateEvolves(tx: Tx, tx': Tx, r: PromiseRecord, mode: CreateMode)
    requires r.id !in tx.db.promises && r.id !in tx.db.tasks
    requires tx'.now == tx.now && tx.queue.nextJob <= tx'.queue.nextJob && tx'.queue.jobs == tx.queue.jobs
    requires tx'.sent == tx.sent
    requires tx'.done == tx.done && StagedGrows(tx.staged, tx.queue.nextJob, tx'.staged)
    requires tx'.db.promises == tx.db.promises[r.id := Promise(r, [], [])]
    requires if Target !in r.tags then tx'.db.tasks == tx.db.tasks
             else tx'.db.tasks == tx.db.tasks[r.id := CreatedTask(tx.now, tx.queue.nextJob, r, mode)]
    ensures Evolves(tx, tx')
  {
    hide PromisesEvolve, TasksEvolve, NoSuspends, Wakes, Tells;
    NewEvolves(tx.db.promises, r, tx'.db.tasks, tx'.sent, tx.now);
    NewTaskEvolves(tx.db.tasks, tx'.db.tasks, r.id);
  }

  lemma CreateTimerShape(tx: Tx, r: PromiseRecord)
    ensures var tx' := CreateTimer(tx, r);
            && tx' == tx.(queue := tx.queue.(nextJob := tx'.queue.nextJob), staged := tx'.staged)
            && tx.queue.nextJob <= tx'.queue.nextJob && StagedGrows(tx.staged, tx.queue.nextJob, tx'.staged)
            && (forall j :: j in tx.staged && j < tx.queue.nextJob ==> j in tx'.staged && tx'.staged[j] == tx.staged[j])
  {
  }

  lemma NoTask(env: Env, tx: Tx, id: Id)
    requires TxInv(env, tx) && id !in tx.db.promises
    ensures id !in tx.db.tasks
  {
    hide Keyed, PromisesOk, CallbacksOk, ResumesOk, JobsOk, TimersOk, SchedulesOk, IndexOk, SentOk, HeldOk, AllJobs;
  }

  lemma QuietIsOk(tx: Tx)
    requires Quiet(tx.after, tx.db.tasks)
    ensures AftersOk(tx)
  {
  }

  lemma CreateAftersOk(tx: Tx, tx': Tx, r: PromiseRecord, mode: CreateMode)
    requires Quiet(tx.after, tx'.db.tasks)
    requires tx'.after == tx.after || (mode.CreateAcquire? && Target in r.tags
               && tx'.after == tx.after + [ClaimJob(r.id, tx.queue.nextJob, LeaseOf(mode.ttl))]
               && tx.queue.nextJob < tx'.queue.nextJob && tx.queue.nextJob in tx'.staged
               && tx'.staged[tx.queue.nextJob] == CreatedJob(tx.now, r, mode))
    ensures AftersOk(tx')
  {
  }

  // ------------------------------------------------------------------- schedules

  lemma PutScheduleKeeps(env: Env, tx: Tx, s: ScheduleRecord)
    requires Steady(env, tx) && ScheduleOk(env, s, tx.now)
    requires Exhausted(env, s) || HasTimer(AllJobs(tx), tx.done, ScheduleFire(s.id, s.nextRunAt))
    ensures Keeps(env, tx, PutSchedule(tx, s)) && Steady(env, PutSchedule(tx, s))
  {
    hide Keyed, Agree, PromisesOk, CallbacksOk, ResumesOk, JobsOk, TimersOk, SchedulesOk, IndexOk, SentOk, HeldOk,
      AllJobs, Quiet, ScheduleOk, Exhausted, HasTimer;
    AllJobsOf(tx, PutSchedule(tx, s));
    SchedulePut(env, tx.db.schedules, AllJobs(tx), tx.done, s, tx.now);
    EvolvesReflexive(tx);
    hide PromisesEvolve, TasksEvolve, NoSuspends, Wakes, Tells, SentGrows, StagedGrows;
  }

  lemma SchedulePut(env: Env, schedules: map<Id, ScheduleRecord>, jobs: Jobs, done: set<JobId>, s: ScheduleRecord, now: int)
    requires SchedulesOk(env, schedules, jobs, done, now) && ScheduleOk(env, s, now)
    requires Exhausted(env, s) || HasTimer(jobs, done, ScheduleFire(s.id, s.nextRunAt))
    ensures SchedulesOk(env, schedules[s.id := s], jobs, done, now)
  {
    hide ScheduleOk, Exhausted, HasTimer;
  }

  lemma ScheduleDrop(env: Env, schedules: map<Id, ScheduleRecord>, jobs: Jobs, done: set<JobId>, id: Id, now: int)
    requires SchedulesOk(env, schedules, jobs, done, now)
    ensures SchedulesOk(env, schedules - {id}, jobs, done, now)
  {
    hide ScheduleOk, Exhausted, HasTimer;
  }

  lemma DeleteScheduleKeeps(env: Env, tx: Tx, id: Id)
    requires Steady(env, tx)
    ensures Keeps(env, tx, DeleteSchedule(tx, id)) && Steady(env, DeleteSchedule(tx, id))
  {
    hide Keyed, Agree, PromisesOk, CallbacksOk, ResumesOk, JobsOk, TimersOk, SchedulesOk, IndexOk, SentOk, HeldOk,
      AllJobs, Quiet;
    AllJobsOf(tx, DeleteSchedule(tx, id));
    ScheduleDrop(env, tx.db.schedules, AllJobs(tx), tx.done, id, tx.now);
    EvolvesReflexive(tx);
    hide PromisesEvolve, TasksEvolve, NoSuspends, Wakes, Tells, SentGrows, StagedGrows;
  }

  lemma ScheduleFactsOf(env: Env, tx: Tx, id: Id)
    requires TxInv(env, tx) && id in tx.db.schedules
    ensures var s := tx.db.schedules[id];
            && s.id == id && ScheduleOk(env, s, tx.now)
            && (Exhausted(env, s) || HasTimer(AllJobs(tx), tx.done, ScheduleFire(id, s.nextRunAt)))
  {
    hide Keyed, Agree, PromisesOk, CallbacksOk, ResumesOk, JobsOk, TimersOk, IndexOk, SentOk, HeldOk, AllJobs,
      ScheduleOk, Exhausted, HasTimer;
  }

  /** A firing creates the schedule's promise, at a time that has come. */
  lemma CreateFiredKeeps(env: Env, tx: Tx, id: Id)
    requires Steady(env, tx) && id in tx.db.schedules && tx.db.schedules[id].nextRunAt <= tx.now
    ensures var tx' := CreateFired(tx, tx.db.schedules[id]);
            && Keeps(env, tx, tx') && Steady(env, tx') && tx'.db.schedules == tx.db.schedules
            && FiredPromiseId(tx.db.schedules[id]) in tx'.db.promises
            && (FiredPromiseId(tx.db.schedules[id]) !in tx.db.promises ==>
                  tx'.db.promises[FiredPromiseId(tx.db.schedules[id])].record ==
                  CreatedRecord(tx.now, FiredData(tx.db.schedules[id]), Some(tx.db.schedules[id].nextRunAt)))
  {
    hide TxInv, Evolves, Quiet, FiredPromiseId, CreatePromise, AftersOk, CreatedRecord, Exhausted;
    var s := tx.db.schedules[id];
    ScheduleFactsOf(env, tx, id);
    KeepsReflexive(env, tx);
    if FiredPromiseId(s) !in tx.db.promises {
      CreateKeeps(env, tx, FiredData(s), Some(s.nextRunAt), CreateDispatch);
    }
  }

  lemma AdvanceIsOk(env: Env, s: ScheduleRecord, now: int)
    requires env.Ok() && ScheduleOk(env, s, now)
    ensures ScheduleOk(env, Advance(env, s), now)
    ensures env.nextAfter(s.cron, s.nextRunAt).None? ==> Exhausted(env, Advance(env, s))
  {
  }

  /** A firing advances the schedule by one cron time and leaves it with a timer
      at its next time, unless it is exhausted. */
  lemma FireScheduleKeeps(env: Env, tx: Tx, id: Id)
    requires env.Ok() && Steady(env, tx) && id in tx.db.schedules && tx.db.schedules[id].nextRunAt <= tx.now
    ensures var tx' := FireSchedule(env, tx, tx.db.schedules[id]);
            && Keeps(env, tx, tx') && Steady(env, tx')
            && tx'.db.schedules == tx.db.schedules[id := Advance(env, tx.db.schedules[id])]
            && FiredPromiseId(tx.db.schedules[id]) in tx'.db.promises
            && (FiredPromiseId(tx.db.schedules[id]) !in tx.db.promises ==>
                  tx'.db.promises[FiredPromiseId(tx.db.schedules[id])].record ==
                  CreatedRecord(tx.now, FiredData(tx.db.schedules[id]), Some(tx.db.schedules[id].nextRunAt)))
  {
    hide TxInv, Evolves, Quiet, FiredPromiseId, CreateFired, ScheduleOk, Exhausted, HasTimer, AllJobs, CreatedRecord;
    var s := tx.db.schedules[id];
    ScheduleFactsOf(env, tx, id);
    AdvanceIsOk(env, s, tx.now);
    var a := CreateFired(tx, s);
    CreateFiredKeeps(env, tx, id);
    var b := ScheduleNext(env, a, s);
    KeepsReflexive(env, a);
    var next := env.nextAfter(s.cron, s.nextRunAt);
    if next.Some? {
      ScheduleTimerKeeps(env, a, ScheduleFire(s.id, next.value), next.value);
      EvolvesParts(a, b);
      QuietStays(a.after, a.db.tasks, b.db.tasks);
    }
    assert a.now == tx.now && b.now == tx.now by { EvolvesParts(tx, a); EvolvesParts(a, b); }
    PutScheduleKeeps(env, b, Advance(env, s));
    KeepsTransitive(env, tx, a, b);
    KeepsTransitive(env, tx, b, PutSchedule(b, Advance(env, s)));
  }

  /** A created schedule has a timer at its first time. */
  lemma NewScheduleKeeps(env: Env, tx: Tx, s: ScheduleRecord)
    requires Steady(env, tx) && ScheduleOk(env, s, tx.now)
    ensures var tx' := ScheduleTimer(PutSchedule(tx, s), ScheduleFire(s.id, s.nextRunAt), s.nextRunAt);
            Keeps(env, tx, tx') && Steady(env, tx')
  {
    hide TxInv, Evolves, Quiet, ScheduleOk, Exhausted, HasTimer, AllJobs;
    var timer := ScheduleFire(s.id, s.nextRunAt);
    var a := ScheduleTimer(tx, timer, s.nextRunAt);
    ScheduleTimerKeeps(env, tx, timer, s.nextRunAt);
    EvolvesParts(tx, a);
    QuietStays(tx.after, tx.db.tasks, a.db.tasks);
    PutScheduleKeeps(env, a, s);
    KeepsTransitive(env, tx, a, PutSchedule(a, s));
    assert PutSchedule(a, s) == ScheduleTimer(PutSchedule(tx, s), timer, s.nextRunAt);
  }
}
