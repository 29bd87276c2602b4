/** Every building block of the handlers keeps the invariant: staging a job, writing
    a task, dispatching it, resuming an awaiter, and the chain of a settlement with its
    fan-out and its unblocks. Each lemma speaks of the parts of the invariant that its
    step can touch, and `Keeps` joins them to the relation between the records before
    and after. */
module Steps {
  import opened Records
  import opened Queues
  import opened Transaction
  import opened Kernel
  import opened Invariant

  /** What a building block promises: the invariant, and an evolution of the
      records. */
  ghost predicate Keeps(env: Env, tx: Tx, tx': Tx) {
    TxInv(env, tx') && Evolves(tx, tx')
  }

  lemma KeepsReflexive(env: Env, tx: Tx)
    requires TxInv(env, tx)
    ensures Keeps(env, tx, tx)
  {
    hide DbInv, HeldOk;
    EvolvesReflexive(tx);
  }

  lemma KeepsTransitive(env: Env, a: Tx, b: Tx, c: Tx)
    requires TxInv(env, a) && Keeps(env, a, b) && Keeps(env, b, c)
    ensures Keeps(env, a, c)
  {
    hide Keyed, Agree, PromisesOk, CallbacksOk, ResumesOk, JobsOk, TimersOk, SchedulesOk, IndexOk, SentOk, HeldOk;
    EvolvesTransitive(a, b, c) by {
      hide PromisesEvolve, TasksEvolve, NoSuspends, Wakes, Tells, SentGrows;
    }
  }

  /** A quiet transaction stays quiet while nothing is added to its after-work. */
  lemma QuietStays(after: seq<After>, tasks: Tasks, tasks': Tasks)
    requires Quiet(after, tasks) && TasksEvolve(tasks, tasks')
    ensures Quiet(after, tasks')
  {
  }

  // ------------------------------------------------------------------ frame rules

  /** Nothing settles while the promises stay. */
  lemma PromisesStay(promises: Promises, tasks': Tasks, sent': Sent, now: int)
    ensures PromisesEvolve(promises, promises, now)
    ensures Wakes(promises, promises, tasks', now)
    ensures Tells(promises, promises, sent')
  {
  }

  lemma HasTimersStay(jobs: Jobs, jobs': Jobs, done: set<JobId>)
    requires forall j :: j in jobs ==> j in jobs' && jobs'[j] == jobs[j]
    ensures forall timer :: HasTimer(jobs, done, timer) ==> HasTimer(jobs', done, timer)
  {
    forall timer | HasTimer(jobs, done, timer) ensures HasTimer(jobs', done, timer) {
      var j :| j in jobs && j !in done && jobs[j].payload == timer;
      assert j in jobs' && jobs'[j].payload == timer;
    }
  }

  /** A new job leaves what the invariant says of the old ones. */
  lemma AddJobKeeps(env: Env, db: Db, held: map<Id, Claim>, jobs: Jobs, n: JobId, job: Job, done: set<JobId>, now: int)
    requires forall j :: j in jobs ==> j < n
    requires SchedulesOk(env, db.schedules, jobs, done, now) && HeldOk(held, jobs, n)
    ensures SchedulesOk(env, db.schedules, jobs[n := job], done, now) && HeldOk(held, jobs[n := job], n + 1)
  {
    hide ScheduleOk, HasTimer, Exhausted;
    HasTimersStay(jobs, jobs[n := job], done);
  }

  lemma AddJobTimers(promises: Promises, jobs: Jobs, n: JobId, job: Job, done: set<JobId>)
    requires TimersOk(promises, jobs, done) && n !in jobs
    requires job.payload.PromiseTimeout? ==>
               job.payload.promiseId in promises && job.due == Max(promises[job.payload.promiseId].record.timeoutAt, 0)
    requires job.payload.ScheduleFire? ==> job.due == Max(job.payload.at, 0)
    ensures TimersOk(promises, jobs[n := job], done)
  {
    hide HasTimer;
    HasTimersStay(jobs, jobs[n := job], done);
  }

  lemma AddJobSent(promises: Promises, jobs: Jobs, n: JobId, job: Job, sent: Sent)
    requires SentOk(promises, jobs, n, sent) && n !in jobs && !job.payload.Unblock?
    ensures SentOk(promises, jobs[n := job], n + 1, sent)
  {
  }

  lemma AddJobTasks(tasks: Tasks, jobs: Jobs, n: JobId, job: Job)
    requires JobsOk(tasks, jobs, n) && !job.payload.Execute?
    ensures JobsOk(tasks, jobs[n := job], n + 1)
  {
    forall id | id in tasks ensures TaskJobOk(tasks[id], jobs[n := job], n + 1) {
      assert TaskJobOk(tasks[id], jobs, n);
    }
  }

  lemma StageAddsJob(tx: Tx, job: Job)
    ensures AllJobs(Stage(tx, job)) == AllJobs(tx)[tx.queue.nextJob := job]
  {
  }

  lemma StagedStaysFresh(tx: Tx, job: Job)
    requires tx.staged.Keys !! tx.queue.jobs.Keys
    requires forall j :: j in AllJobs(tx) ==> j < tx.queue.nextJob
    ensures Stage(tx, job).staged.Keys !! tx.queue.jobs.Keys
  {
    assert tx.queue.nextJob !in tx.queue.jobs by {
      assert forall j :: j in tx.queue.jobs ==> j in AllJobs(tx);
    }
  }

  lemma JobsBounded(tasks: Tasks, jobs: Jobs, n: JobId)
    requires JobsOk(tasks, jobs, n)
    ensures forall j :: j in jobs ==> j < n
  {
  }

  /** Enqueue a timer that is not due before its deadline. */
  lemma ScheduleTimerKeeps(env: Env, tx: Tx, timer: Payload, at: int)
    requires TxInv(env, tx)
    requires timer.PromiseTimeout? || timer.ScheduleFire?
    requires timer.PromiseTimeout? ==>
               timer.promiseId in tx.db.promises && tx.db.promises[timer.promiseId].record.timeoutAt == at
    requires timer.ScheduleFire? ==> timer.at == at
    ensures Keeps(env, tx, ScheduleTimer(tx, timer, at))
    ensures HasTimer(AllJobs(ScheduleTimer(tx, timer, at)), tx.done, timer)
  {
    hide Keyed, Agree, PromisesOk, CallbacksOk, ResumesOk, JobsOk, TimersOk, SchedulesOk, IndexOk, SentOk, HeldOk,
      PromisesEvolve, Wakes, Tells, AllJobs;
    var tx' := ScheduleTimer(tx, timer, at);
    var job := Job(Timers, timer, Max(at, 0));
    JobsBounded(tx.db.tasks, AllJobs(tx), tx.queue.nextJob);
    StageAddsJob(tx, job);
    StagedStaysFresh(tx, job);
    AddJobKeeps(env, tx.db, tx.held, AllJobs(tx), tx.queue.nextJob, job, tx.done, tx.now);
    AddJobTimers(tx.db.promises, AllJobs(tx), tx.queue.nextJob, job, tx.done);
    AddJobSent(tx.db.promises, AllJobs(tx), tx.queue.nextJob, job, tx.sent);
    AddJobTasks(tx.db.tasks, AllJobs(tx), tx.queue.nextJob, job);
    PromisesStay(tx.db.promises, tx.db.tasks, tx.sent, tx.now);
    assert AllJobs(tx')[tx.queue.nextJob].payload == timer;
  }

  // ---------------------------------------------------------------------- tasks

  lemma PutTaskJobs(tasks: Tasks, jobs: Jobs, n: JobId, t: Task)
    requires JobsOk(tasks, jobs, n)
    requires t.id in tasks && t.job == tasks[t.id].job && t.target == tasks[t.id].target && TaskJobOk(t, jobs, n)
    ensures JobsOk(tasks[t.id := t], jobs, n)
  {
  }

  lemma PutTaskRecords(promises: Promises, tasks: Tasks, t: Task)
    requires Keyed(promises, tasks) && Agree(promises, tasks) && ResumesOk(promises, tasks)
    requires t.id in tasks && t.target == tasks[t.id].target
    requires !t.state.Fulfilled? && !tasks[t.id].state.Fulfilled?
    requires t.state.Suspended? ==> t.resumes == {}
    requires forall r :: r in t.resumes ==> CanResume(promises, t.id, r)
    ensures Keyed(promises, tasks[t.id := t]) && Agree(promises, tasks[t.id := t])
    ensures ResumesOk(promises, tasks[t.id := t])
  {
    hide CanResume;
  }

  lemma PutTaskEvolves(tasks: Tasks, t: Task)
    requires t.id in tasks && TaskEvolves(tasks[t.id], t)
    requires t.state.Suspended? ==> t == tasks[t.id]
    requires forall id :: id in tasks ==> tasks[id].id == id
    ensures TasksEvolve(tasks, tasks[t.id := t]) && NoSuspends(tasks, tasks[t.id := t])
  {
  }

  /** A write to a task that keeps its dispatch. */
  lemma PutTaskKeeps(env: Env, tx: Tx, t: Task)
    requires TxInv(env, tx)
    requires t.id in tx.db.tasks && TaskEvolves(tx.db.tasks[t.id], t) && t.job == tx.db.tasks[t.id].job
    requires !t.state.Fulfilled? && !tx.db.tasks[t.id].state.Fulfilled? && !t.state.Suspended?
    requires TaskJobOk(t, AllJobs(tx), tx.queue.nextJob)
    requires forall r :: r in t.resumes ==> CanResume(tx.db.promises, t.id, r)
    ensures Keeps(env, tx, PutTask(tx, t))
  {
    hide PromisesOk, CallbacksOk, ResumesOk, JobsOk, TimersOk, SchedulesOk, IndexOk, SentOk, HeldOk, Agree,
      PromisesEvolve, Wakes, Tells, TasksEvolve, NoSuspends, AllJobs, TaskJobOk;
    var tx' := PutTask(tx, t);
    AllJobsOf(tx, tx');
    assert tx'.db.tasks.Keys == tx.db.tasks.Keys;
    PutTaskJobs(tx.db.tasks, AllJobs(tx), tx.queue.nextJob, t);
    PutTaskRecords(tx.db.promises, tx.db.tasks, t);
    PutTaskEvolves(tx.db.tasks, t);
    PromisesStay(tx.db.promises, tx'.db.tasks, tx.sent, tx.now);
  }

  lemma AllJobsOf(tx: Tx, tx': Tx)
    requires tx'.queue.jobs == tx.queue.jobs && tx'.staged == tx.staged
    ensures AllJobs(tx') == AllJobs(tx)
  {
  }

  lemma DispatchJobs(tasks: Tasks, jobs: Jobs, n: JobId, t: Task, job: Job)
    requires JobsOk(tasks, jobs, n) && t.job == Some(n)
    requires forall id :: id in tasks ==> tasks[id].id == id
    requires t.id in tasks ==> !IsLive(tasks[t.id], jobs)
    requires NeedsJob(t) && job.payload == Execute(t.id) && job.lane == Deliveries(t.target)
    ensures JobsOk(tasks[t.id := t], jobs[n := job], n + 1)
  {
    var tasks', jobs' := tasks[t.id := t], jobs[n := job];
    forall j | j in jobs' && jobs'[j].payload.Execute?
      ensures jobs'[j].payload.task in tasks' && tasks'[jobs'[j].payload.task].job == Some(j)
      ensures jobs'[j].lane == Deliveries(tasks'[jobs'[j].payload.task].target)
    {
      if j != n {
        assert jobs[j].payload.task != t.id;
      }
    }
    forall id | id in tasks' ensures TaskJobOk(tasks'[id], jobs', n + 1) {
      if id != t.id {
        assert TaskJobOk(tasks[id], jobs, n);
      }
    }
  }

  /** Dispatch a task that has no live job. */
  lemma DispatchKeeps(env: Env, tx: Tx, t: Task, runAt: Option<int>)
    requires TxInv(env, tx)
    requires t.id in tx.db.tasks && TaskEvolves(tx.db.tasks[t.id], t)
    requires !tx.db.tasks[t.id].state.Fulfilled? && t.state.Pending?
    requires !IsLive(tx.db.tasks[t.id], AllJobs(tx))
    requires forall r :: r in t.resumes ==> CanResume(tx.db.promises, t.id, r)
    ensures Keeps(env, tx, Dispatch(tx, t, runAt))
  {
    hide PromisesOk, CallbacksOk, ResumesOk, JobsOk, TimersOk, SchedulesOk, IndexOk, SentOk, HeldOk, Agree,
      PromisesEvolve, Wakes, Tells, TasksEvolve, NoSuspends, AllJobs;
    var n := tx.queue.nextJob;
    var tx' := Dispatch(tx, t, runAt);
    var t' := t.(job := Some(n));
    var job := Job(Deliveries(t.target), Execute(t.id), if runAt.Some? then Max(runAt.value, 0) else 0);
    var mid := PutTask(tx, t');
    AllJobsOf(tx, mid);
    JobsBounded(tx.db.tasks, AllJobs(tx), n);
    StageAddsJob(mid, job);
    StagedStaysFresh(mid, job);
    assert tx'.db.tasks.Keys == tx.db.tasks.Keys;
    DispatchJobs(tx.db.tasks, AllJobs(tx), n, t', job);
    AddJobKeeps(env, tx.db, tx.held, AllJobs(tx), n, job, tx.done, tx.now);
    AddJobTimers(tx.db.promises, AllJobs(tx), n, job, tx.done);
    AddJobSent(tx.db.promises, AllJobs(tx), n, job, tx.sent);
    PutTaskRecords(tx.db.promises, tx.db.tasks, t');
    PutTaskEvolves(tx.db.tasks, t');
    PromisesStay(tx.db.promises, tx'.db.tasks, tx.sent, tx.now);
  }

  lemma TaskFacts(promises: Promises, tasks: Tasks, jobs: Jobs, n: JobId, id: Id)
    requires Keyed(promises, tasks) && ResumesOk(promises, tasks) && JobsOk(tasks, jobs, n) && Agree(promises, tasks)
    requires id in tasks
    ensures tasks[id].id == id && id in promises && TaskJobOk(tasks[id], jobs, n)
    ensures tasks[id].state.Fulfilled? <==> !promises[id].IsPending()
    ensures forall r :: r in tasks[id].resumes ==> CanResume(promises, id, r)
  {
    hide CanResume;
  }

  /** The resumption of an awaiter by a settled promise of its origin. */
  lemma ResumeKeeps(env: Env, tx: Tx, awaiter: Id, awaited: Id, fanout: bool)
    requires TxInv(env, tx)
    requires CanResume(tx.db.promises, awaiter, awaited)
    ensures var tx' := ResumeAwaiter(tx, awaiter, awaited, fanout);
            && Keeps(env, tx, tx')
            && tx'.db.promises == tx.db.promises && tx'.after == tx.after && tx'.sent == tx.sent
            && (awaiter in tx.db.tasks ==> awaiter in tx'.db.tasks && !tx'.db.tasks[awaiter].state.Suspended?)
  {
    hide CanResume, DbInv, AllJobs, Evolves;
    KeepsReflexive(env, tx);
    if awaiter in tx.db.tasks {
      var t := tx.db.tasks[awaiter];
      TaskFactsOf(env, tx, awaiter);
      match t.state
      case Suspended =>
        DispatchKeeps(env, tx, t.Transition(TaskState.Pending).(resumes := {awaited}), None);
      case Pending => PutTaskKeeps(env, tx, t.(resumes := t.resumes + {awaited}));
      case Acquired => PutTaskKeeps(env, tx, t.(resumes := t.resumes + {awaited}));
      case Halted => PutTaskKeeps(env, tx, t.(resumes := t.resumes + {awaited}));
      case Fulfilled =>
    }
  }

  lemma TaskFactsOf(env: Env, tx: Tx, id: Id)
    requires TxInv(env, tx) && id in tx.db.tasks
    ensures tx.db.tasks[id].id == id && id in tx.db.promises
    ensures TaskJobOk(tx.db.tasks[id], AllJobs(tx), tx.queue.nextJob)
    ensures tx.db.tasks[id].state.Fulfilled? <==> !tx.db.promises[id].IsPending()
    ensures forall r :: r in tx.db.tasks[id].resumes ==> CanResume(tx.db.promises, id, r)
  {
    hide Keyed, Agree, PromisesOk, CallbacksOk, ResumesOk, JobsOk, TimersOk, SchedulesOk, IndexOk, SentOk, HeldOk,
      AllJobs, TaskJobOk, CanResume;
    TaskFacts(tx.db.promises, tx.db.tasks, AllJobs(tx), tx.queue.nextJob, id);
  }

  // ----------------------------------------------------------------- settlement

  /** The task of a settled promise. */
  function FulfilledIn(tasks: Tasks, id: Id): Tasks {
    if id in tasks then tasks[id := tasks[id].Transition(TaskState.Fulfilled).(resumes := {})] else tasks
  }

  lemma SettleResumes(promises: Promises, tasks: Tasks, r: PromiseRecord)
    requires ResumesOk(promises, tasks) && !r.state.Pending?
    ensures ResumesOk(promises[r.id := Promise(r, [], [])], FulfilledIn(tasks, r.id))
  {
    hide OriginOf;
  }

  lemma SettleRecordRecords(promises: Promises, tasks: Tasks, r: PromiseRecord, now: int)
    requires Keyed(promises, tasks) && Agree(promises, tasks) && PromisesOk(promises, now)
    requires r.id in promises && promises[r.id].IsPending() && !r.state.Pending?
    requires SameIdentity(promises[r.id].record, r) && PromiseOk(Promise(r, [], []), now)
    ensures var promises', tasks' := promises[r.id := Promise(r, [], [])], FulfilledIn(tasks, r.id);
            Keyed(promises', tasks') && Agree(promises', tasks') && PromisesOk(promises', now)
  {
    hide PromiseOk;
  }

  lemma SettleRecordJobs(promises: Promises, tasks: Tasks, jobs: Jobs, n: JobId, id: Id)
    requires JobsOk(tasks, jobs, n) && Agree(promises, tasks)
    ensures JobsOk(FulfilledIn(tasks, id), jobs, n)
  {
  }

  lemma IndexStays(promises: Promises, promises': Promises, index: set<string>)
    requires IndexOk(promises, index) && promises'.Keys == promises.Keys
    requires forall id :: id in promises ==> promises'[id].record.tags == promises[id].record.tags
    ensures IndexOk(promises', index)
  {
    hide BranchKey;
    forall k | k in index ensures exists id :: IndexEntry(promises', k, id) {
      var id :| IndexEntry(promises, k, id);
      assert IndexEntry(promises', k, id);
    }
  }

  lemma SettleCallbacks(promises: Promises, awaiters: set<Id>, r: PromiseRecord)
    requires CallbacksOk(promises, awaiters) && r.id in promises && SameIdentity(promises[r.id].record, r)
    ensures CallbacksOk(promises[r.id := Promise(r, [], [])], awaiters)
  {
    hide OriginOf;
  }

  lemma SettleTimers(promises: Promises, jobs: Jobs, done: set<JobId>, r: PromiseRecord)
    requires TimersOk(promises, jobs, done) && r.id in promises && SameIdentity(promises[r.id].record, r) && !r.state.Pending?
    ensures TimersOk(promises[r.id := Promise(r, [], [])], jobs, done)
  {
    hide HasTimer;
  }

  lemma SettleSent(promises: Promises, jobs: Jobs, n: JobId, sent: Sent, r: PromiseRecord)
    requires SentOk(promises, jobs, n, sent) && r.id in promises && promises[r.id].IsPending() && !r.state.Pending?
    ensures SentOk(promises[r.id := Promise(r, [], [])], jobs, n, sent)
  {
  }

  lemma SettleRecordRest(promises: Promises, awaiters: set<Id>, jobs: Jobs, n: JobId, done: set<JobId>, sent: Sent, index: set<string>, r: PromiseRecord)
    requires CallbacksOk(promises, awaiters) && TimersOk(promises, jobs, done) && IndexOk(promises, index)
    requires SentOk(promises, jobs, n, sent)
    requires r.id in promises && promises[r.id].IsPending() && SameIdentity(promises[r.id].record, r)
    requires !r.state.Pending?
    ensures var promises' := promises[r.id := Promise(r, [], [])];
            CallbacksOk(promises', awaiters) && TimersOk(promises', jobs, done) && IndexOk(promises', index) && SentOk(promises', jobs, n, sent)
  {
    hide CallbacksOk, TimersOk, IndexOk, SentOk;
    IndexStays(promises, promises[r.id := Promise(r, [], [])], index);
    SettleCallbacks(promises, awaiters, r);
    SettleTimers(promises, jobs, done, r);
    SettleSent(promises, jobs, n, sent, r);
  }

  /** A record `r` that settles the pending promise of its id at `now`. */
  ghost predicate Settles(tx: Tx, r: PromiseRecord) {
    && r.id in tx.db.promises && tx.db.promises[r.id].IsPending() && !r.state.Pending?
    && SameIdentity(tx.db.promises[r.id].record, r)
    && SettledFrom(tx.db.promises[r.id].record, r, tx.now)
  }

  lemma SettledIsOk(p: Promise, r: PromiseRecord, now: int)
    requires PromiseOk(p, now) && p.IsPending() && SameIdentity(p.record, r) && !r.state.Pending?
    requires SettledFrom(p.record, r, now)
    ensures PromiseOk(Promise(r, [], []), now)
  {
  }

  lemma OwnTaskOpen(promises: Promises, tasks: Tasks, id: Id)
    requires Agree(promises, tasks) && Keyed(promises, tasks) && id in promises && promises[id].IsPending()
    ensures id in tasks ==> !tasks[id].state.Fulfilled? && tasks[id].id == id
  {
  }

  /** What the settlement writes before anyone is told. */
  lemma SettleRecordShape(tx: Tx, r: PromiseRecord)
    requires r.id in tx.db.tasks ==> !tx.db.tasks[r.id].state.Fulfilled? && tx.db.tasks[r.id].id == r.id
    ensures var tx' := SettleRecord(tx, r);
            && tx' == tx.(db := tx.db.(promises := tx.db.promises[r.id := Promise(r, [], [])], tasks := FulfilledIn(tx.db.tasks, r.id)),
                          after := if r.id in tx.db.tasks then tx.after + [Release(r.id)] else tx.after)
            && tx'.db.tasks.Keys == tx.db.tasks.Keys
  {
  }

  lemma NotFulfilled(tasks: Tasks, id: Id)
    requires id !in tasks
    ensures FulfilledIn(tasks, id) == tasks
  {
  }

  lemma SettleQuiet(after: seq<After>, tasks: Tasks, id: Id)
    requires Quiet(after, tasks) && id in tasks
    ensures Quiet(after + [Release(id)], FulfilledIn(tasks, id)) && Quiet(after, FulfilledIn(tasks, id))
  {
  }

  lemma SettleRecordKeeps(env: Env, tx: Tx, r: PromiseRecord)
    requires TxInv(env, tx) && Settles(tx, r)
    ensures TxInv(env, SettleRecord(tx, r))
  {
    hide Keyed, Agree, PromisesOk, CallbacksOk, ResumesOk, JobsOk, TimersOk, SchedulesOk, IndexOk, SentOk, HeldOk,
      AllJobs, PromiseOk, SettleRecord, SameIdentity, SettledFrom, Quiet, FulfilledIn;
    var tx' := SettleRecord(tx, r);
    OwnTaskOpen(tx.db.promises, tx.db.tasks, r.id);
    SettleRecordShape(tx, r);
    AllJobsOf(tx, tx');
    assert PromiseOk(tx.db.promises[r.id], tx.now) by { PromiseFacts(tx.db.promises, tx.now, r.id); }
    SettledIsOk(tx.db.promises[r.id], r, tx.now);
    SettleResumes(tx.db.promises, tx.db.tasks, r);
    SettleRecordRecords(tx.db.promises, tx.db.tasks, r, tx.now);
    SettleRecordJobs(tx.db.promises, tx.db.tasks, AllJobs(tx), tx.queue.nextJob, r.id);
    SettleRecordRest(tx.db.promises, tx.db.tasks.Keys, AllJobs(tx), tx.queue.nextJob, tx.done, tx.sent, tx.db.index, r);
  }

  lemma PromiseFacts(promises: Promises, now: int, id: Id)
    requires PromisesOk(promises, now) && id in promises
    ensures PromiseOk(promises[id], now)
  {
  }

  /** A fan-out changes no promise and leaves no named awaiter suspended whose own
      deadline is ahead. */
  lemma {:induction false} FanoutKeeps(env: Env, tx: Tx, callbacks: seq<Id>, awaited: Id)
    requires TxInv(env, tx)
    requires forall c :: c in callbacks ==> c in tx.db.promises && CanResume(tx.db.promises, c, awaited)
    ensures var tx' := Fanout(tx, callbacks, awaited);
            && Keeps(env, tx, tx')
            && tx'.db.promises == tx.db.promises && tx'.after == tx.after && tx'.sent == tx.sent
            && (forall c :: c in callbacks && c in tx'.db.tasks && tx'.db.tasks[c].state.Suspended? ==>
                  tx.now >= tx.db.promises[c].record.timeoutAt)
    decreases |callbacks|
  {
    hide CanResume, TxInv, Evolves;
    if callbacks == [] {
      KeepsReflexive(env, tx);
    } else {
      var c := callbacks[0];
      var mid := FanoutOne(tx, c, awaited);
      FanoutOneKeeps(env, tx, c, awaited);
      FanoutKeeps(env, mid, callbacks[1..], awaited);
      var tx' := Fanout(tx, callbacks, awaited);
      KeepsTransitive(env, tx, mid, tx');
      assert NoSuspends(mid.db.tasks, tx'.db.tasks) by { EvolvesParts(mid, tx'); }
      assert mid.now == tx.now by { EvolvesParts(tx, mid); }
    }
  }

  lemma EvolvesParts(tx: Tx, tx': Tx)
    requires Evolves(tx, tx')
    ensures NoSuspends(tx.db.tasks, tx'.db.tasks) && TasksEvolve(tx.db.tasks, tx'.db.tasks) && tx'.now == tx.now
    ensures PromisesEvolve(tx.db.promises, tx'.db.promises, tx.now) && tx.queue.nextJob <= tx'.queue.nextJob
    ensures SentGrows(tx.sent, tx'.sent) && tx'.done == tx.done && tx'.queue.jobs == tx.queue.jobs
    ensures StagedGrows(tx.staged, tx.queue.nextJob, tx'.staged)
  {
    hide StagedGrows, NoSuspends, TasksEvolve, PromisesEvolve, SentGrows, Wakes, Tells;
  }

  lemma FanoutOneKeeps(env: Env, tx: Tx, c: Id, awaited: Id)
    requires TxInv(env, tx) && c in tx.db.promises && CanResume(tx.db.promises, c, awaited)
    ensures var tx' := FanoutOne(tx, c, awaited);
            && Keeps(env, tx, tx')
            && tx'.db.promises == tx.db.promises && tx'.after == tx.after && tx'.sent == tx.sent
            && (c in tx'.db.tasks && tx'.db.tasks[c].state.Suspended? ==> tx.now >= tx.db.promises[c].record.timeoutAt)
  {
    hide CanResume, Evolves, Keyed, PromisesOk, CallbacksOk, ResumesOk, JobsOk, TimersOk, SchedulesOk, IndexOk,
      SentOk, HeldOk, AllJobs;
    KeepsReflexive(env, tx);
    ResumeKeeps(env, tx, c, awaited, true);
  }

  // ------------------------------------------------------------------- unblocks

  ghost predicate NotTold(sent: Sent, listeners: seq<Address>, id: Id) {
    forall j :: j in sent && sent[j].promise.id == id ==> sent[j].address !in listeners
  }

  lemma SendUnblockSent(promises: Promises, jobs: Jobs, n: JobId, sent: Sent, address: Address, r: PromiseRecord)
    requires SentOk(promises, jobs, n, sent) && n !in jobs
    requires r.id in promises && promises[r.id].record == r && !r.state.Pending?
    requires NotTold(sent, [address], r.id)
    ensures SentOk(promises, jobs[n := Job(Deliveries(address), Unblock(r), 0)], n + 1, sent[n := Message(address, r)])
  {
    assert address in [address];
  }

  lemma StageEvolves(tx: Tx, job: Job, sent': Sent)
    requires SentGrows(tx.sent, sent')
    requires Posted(tx.sent, tx.queue.nextJob, sent', tx.queue.nextJob + 1, tx.staged[tx.queue.nextJob := job])
    ensures Evolves(tx, Stage(tx, job).(sent := sent'))
  {
  }

  lemma PostedOne(staged: Jobs, n: JobId, sent: Sent, m: Message)
    ensures Posted(sent, n, sent[n := m], n + 1, staged[n := UnblockJob(m)])
  {
  }

  lemma SentGrowsFresh(promises: Promises, jobs: Jobs, n: JobId, sent: Sent, m: Message)
    requires SentOk(promises, jobs, n, sent)
    ensures SentGrows(sent, sent[n := m])
  {
  }

  lemma SendUnblockKeeps(env: Env, tx: Tx, address: Address, r: PromiseRecord)
    requires TxInv(env, tx)
    requires r.id in tx.db.promises && tx.db.promises[r.id].record == r && !r.state.Pending?
    requires NotTold(tx.sent, [address], r.id)
    ensures Keeps(env, tx, SendUnblock(tx, address, r))
  {
    hide Keyed, Agree, PromisesOk, CallbacksOk, ResumesOk, JobsOk, TimersOk, SchedulesOk, IndexOk, HeldOk, SentOk,
      AllJobs, NotTold, Evolves, SentGrows, Posted;
    var job := UnblockJob(Message(address, r));
    var n := tx.queue.nextJob;
    JobsBounded(tx.db.tasks, AllJobs(tx), n);
    StageAddsJob(tx, job);
    AllJobsOf(Stage(tx, job), SendUnblock(tx, address, r));
    StagedStaysFresh(tx, job);
    AddJobKeeps(env, tx.db, tx.held, AllJobs(tx), n, job, tx.done, tx.now);
    AddJobTimers(tx.db.promises, AllJobs(tx), n, job, tx.done);
    AddJobTasks(tx.db.tasks, AllJobs(tx), n, job);
    SendUnblockSent(tx.db.promises, AllJobs(tx), n, tx.sent, address, r);
    SentGrowsFresh(tx.db.promises, AllJobs(tx), n, tx.sent, Message(address, r));
    PostedOne(tx.staged, n, tx.sent, Message(address, r));
    StageEvolves(tx, job, tx.sent[n := Message(address, r)]);
  }

  lemma {:induction false} SendUnblocksKeeps(env: Env, tx: Tx, listeners: seq<Address>, r: PromiseRecord)
    requires TxInv(env, tx)
    requires r.id in tx.db.promises && tx.db.promises[r.id].record == r && !r.state.Pending?
    requires Distinct(listeners) && NotTold(tx.sent, listeners, r.id)
    ensures var tx' := SendUnblocks(tx, listeners, r);
            && Keeps(env, tx, tx')
            && tx'.db == tx.db && tx'.after == tx.after
            && (forall l :: l in listeners ==> WasSent(tx'.sent, Message(l, r)))
    decreases |listeners|
  {
    hide TxInv, Evolves;
    if listeners == [] {
      KeepsReflexive(env, tx);
    } else {
      var l, n := listeners[0], tx.queue.nextJob;
      var mid := SendUnblock(tx, l, r);
      assert l in listeners;
      SendUnblockKeeps(env, tx, l, r);
      assert NotTold(mid.sent, listeners[1..], r.id);
      SendUnblocksKeeps(env, mid, listeners[1..], r);
      var tx' := SendUnblocks(tx, listeners, r);
      KeepsTransitive(env, tx, mid, tx');
      assert WasSent(tx'.sent, Message(l, r)) by {
        EvolvesParts(mid, tx');
        assert n in mid.sent && mid.sent[n] == Message(l, r);
        assert n in tx'.sent && tx'.sent[n] == Message(l, r);
      }
    }
  }

  // ------------------------------------------------------------------ the chain

  lemma FulfilEvolves(promises: Promises, tasks: Tasks, id: Id)
    requires Keyed(promises, tasks)
    requires id in tasks ==> !tasks[id].state.Fulfilled?
    ensures TasksEvolve(tasks, FulfilledIn(tasks, id)) && NoSuspends(tasks, FulfilledIn(tasks, id))
  {
  }

  lemma SettleEvolves(promises: Promises, tasks': Tasks, sent': Sent, r: PromiseRecord, now: int)
    requires r.id in promises && promises[r.id].IsPending() && !r.state.Pending?
    requires SameIdentity(promises[r.id].record, r) && SettledFrom(promises[r.id].record, r, now)
    requires forall c :: c in promises[r.id].callbacks && c in tasks' && tasks'[c].state.Suspended? ==>
               c in promises && now >= promises[c].record.timeoutAt
    requires forall l :: l in promises[r.id].listeners ==> WasSent(sent', Message(l, r))
    ensures var promises' := promises[r.id := Promise(r, [], [])];
            && PromisesEvolve(promises, promises', now)
            && Wakes(promises, promises', tasks', now)
            && Tells(promises, promises', sent')
  {
    hide WasSent;
  }

  lemma CallbackFacts(promises: Promises, awaiters: set<Id>, r: PromiseRecord)
    requires CallbacksOk(promises, awaiters) && r.id in promises && !r.state.Pending?
    ensures var promises' := promises[r.id := Promise(r, [], [])];
            forall c :: c in promises[r.id].callbacks ==>
              c in promises && c != r.id && c in promises' && CanResume(promises', c, r.id)
  {
    hide OriginOf;
  }

  lemma NotToldYet(promises: Promises, jobs: Jobs, n: JobId, sent: Sent, id: Id, listeners: seq<Address>)
    requires SentOk(promises, jobs, n, sent) && id in promises && promises[id].IsPending()
    ensures NotTold(sent, listeners, id)
  {
  }

  /** A settlement and all its consequences. */
  lemma SettleChainKeeps(env: Env, tx: Tx, r: PromiseRecord)
    requires TxInv(env, tx) && Settles(tx, r)
    ensures var tx' := SettleChain(tx, tx.db.promises[r.id].(record := r));
            && Keeps(env, tx, tx')
            && r.id in tx'.db.promises && tx'.db.promises[r.id].record == r
            && (Quiet(tx.after, tx.db.tasks) ==> Quiet(tx'.after, tx'.db.tasks))
  {
    hide Keyed, Agree, PromisesOk, CallbacksOk, ResumesOk, JobsOk, TimersOk, SchedulesOk, IndexOk, SentOk, HeldOk,
      CanResume,
      PromisesEvolve, TasksEvolve, NoSuspends, Wakes, Tells, AllJobs, Quiet, NotTold, WasSent, Distinct, Evolves,
      SettleRecord, SameIdentity, SettledFrom, FulfilledIn;
    var p := tx.db.promises[r.id];
    var a := SettleRecord(tx, r);
    OwnTaskOpen(tx.db.promises, tx.db.tasks, r.id);
    SettleRecordShape(tx, r);
    SettleRecordKeeps(env, tx, r);
    CallbackFacts(tx.db.promises, tx.db.tasks.Keys, r);
    var b := Fanout(a, p.callbacks, r.id);
    FanoutKeeps(env, a, p.callbacks, r.id);
    assert Distinct(p.listeners) by { PromiseFacts(tx.db.promises, tx.now, r.id); }
    NotToldYet(tx.db.promises, AllJobs(tx), tx.queue.nextJob, tx.sent, r.id, p.listeners);
    SendUnblocksKeeps(env, b, p.listeners, r);
    var c := SendUnblocks(b, p.listeners, r);
    KeepsTransitive(env, a, b, c);
    EvolvesParts(a, c);
    FulfilEvolves(tx.db.promises, tx.db.tasks, r.id);
    TasksEvolveTransitive(tx.db.tasks, a.db.tasks, c.db.tasks);
    NoSuspendsTransitive(tx.db.tasks, a.db.tasks, c.db.tasks);
    SettleEvolves(tx.db.promises, c.db.tasks, c.sent, r, tx.now);
    if Quiet(tx.after, tx.db.tasks) {
      if r.id in tx.db.tasks {
        SettleQuiet(tx.after, tx.db.tasks, r.id);
      } else {
        assert FulfilledIn(tx.db.tasks, r.id) == tx.db.tasks by { NotFulfilled(tx.db.tasks, r.id); }
      }
      QuietStays(c.after, a.db.tasks, c.db.tasks);
    }
    EvolvesOf(tx, a, c);
  }

  /** `a` differs from `tx` by the settled record and task only. */
  lemma EvolvesOf(tx: Tx, a: Tx, c: Tx)
    requires a.now == tx.now && a.queue == tx.queue && a.sent == tx.sent && a.done == tx.done
    requires a.staged == tx.staged && Evolves(a, c)
    requires PromisesEvolve(tx.db.promises, c.db.promises, tx.now) && TasksEvolve(tx.db.tasks, c.db.tasks)
    requires NoSuspends(tx.db.tasks, c.db.tasks)
    requires Wakes(tx.db.promises, c.db.promises, c.db.tasks, tx.now) && Tells(tx.db.promises, c.db.promises, c.sent)
    ensures Evolves(tx, c)
  {
    hide PromisesEvolve, TasksEvolve, NoSuspends, Wakes, Tells, SentGrows, StagedGrows;
  }
}
