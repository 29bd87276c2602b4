/** The commit, the work that follows it and a request that ends without one all
    keep the invariant, wherever a fault stops them. The work that follows is taken step
    by step, as a process can stop between any two, and so is the commit that
    acknowledges a held claim, whose job must not be needed by any task that is left. */
module Commits {
  import opened Records
  import opened Queues
  import opened Transaction
  import opened Kernel
  import opened Invariant
  import opened Steps
  import opened Operations
  import opened Handlers
  import opened Worlds

  // ------------------------------------------------------------------ job removal

  lemma RemoveJobTasks(tasks: Tasks, jobs: Jobs, n: JobId, j: JobId)
    requires JobsOk(tasks, jobs, n) && KeyedBy(tasks)
    requires j in jobs && jobs[j].payload.Execute? && jobs[j].payload.task in tasks ==> !NeedsJob(tasks[jobs[j].payload.task])
    ensures JobsOk(tasks, jobs - {j}, n)
  {
    forall id | id in tasks ensures TaskJobOk(tasks[id], jobs - {j}, n) {
      assert TaskJobOk(tasks[id], jobs, n);
    }
  }

  lemma RemoveJobTimers(promises: Promises, jobs: Jobs, done: set<JobId>, j: JobId)
    requires TimersOk(promises, jobs, done) && (j in jobs ==> !jobs[j].payload.PromiseTimeout?)
    ensures TimersOk(promises, jobs - {j}, done)
  {
    forall id | id in promises && promises[id].IsPending() && promises[id].record.IsExternal()
      ensures HasTimer(jobs - {j}, done, PromiseTimeout(id))
    {
      assert HasTimer(jobs, done, PromiseTimeout(id));
      var k :| k in jobs && k !in done && jobs[k].payload == PromiseTimeout(id);
      assert k in jobs - {j};
    }
  }

  lemma RemoveJobSchedules(env: Env, schedules: map<Id, ScheduleRecord>, jobs: Jobs, done: set<JobId>, now: int, j: JobId)
    requires SchedulesOk(env, schedules, jobs, done, now) && (j in jobs ==> !jobs[j].payload.ScheduleFire?)
    ensures SchedulesOk(env, schedules, jobs - {j}, done, now)
  {
    hide ScheduleOk, Exhausted;
    forall id | id in schedules && !Exhausted(env, schedules[id])
      ensures HasTimer(jobs - {j}, done, ScheduleFire(id, schedules[id].nextRunAt))
    {
      assert HasTimer(jobs, done, ScheduleFire(id, schedules[id].nextRunAt));
      var k :| k in jobs && k !in done && jobs[k].payload == ScheduleFire(id, schedules[id].nextRunAt);
      assert k in jobs - {j};
    }
  }

  lemma RemoveJobRest(promises: Promises, held: map<Id, Claim>, jobs: Jobs, n: JobId, sent: Sent, j: JobId)
    requires SentOk(promises, jobs, n, sent) && HeldOk(held, jobs, n)
    ensures SentOk(promises, jobs - {j}, n, sent) && HeldOk(held, jobs - {j}, n)
  {
  }

  /** A job whose end does no harm: an unblock, or the job of a task that needs
      none. */
  ghost predicate Spent(tx: Tx, j: JobId) {
    j in AllJobs(tx) ==>
      || AllJobs(tx)[j].payload.Unblock?
      || (AllJobs(tx)[j].payload.Execute? &&
          (AllJobs(tx)[j].payload.task in tx.db.tasks ==> !NeedsJob(tx.db.tasks[AllJobs(tx)[j].payload.task])))
  }

  lemma RemoveJobInv(env: Env, tx: Tx, tx': Tx, j: JobId)
    requires TxInv(env, tx) && Spent(tx, j) && AllJobs(tx') == AllJobs(tx) - {j}
    requires tx'.db == tx.db && tx'.sent == tx.sent && tx'.done == tx.done && tx'.now == tx.now && tx'.held == tx.held
    requires tx'.queue.nextJob == tx.queue.nextJob
    requires tx'.staged.Keys !! tx'.queue.jobs.Keys && tx'.queue.leases.Keys <= tx'.queue.jobs.Keys
    ensures TxInv(env, tx')
  {
    hide Keyed, Agree, PromisesOk, CallbacksOk, ResumesOk, JobsOk, TimersOk, SchedulesOk, IndexOk, SentOk, HeldOk,
      AllJobs;
    var jobs := AllJobs(tx);
    KeyedById(tx.db.promises, tx.db.tasks);
    RemoveJobTasks(tx.db.tasks, jobs, tx.queue.nextJob, j);
    RemoveJobTimers(tx.db.promises, jobs, tx.done, j);
    RemoveJobSchedules(env, tx.db.schedules, jobs, tx.done, tx.now, j);
    RemoveJobRest(tx.db.promises, tx.held, jobs, tx.queue.nextJob, tx.sent, j);
  }

  lemma AckRemoves(tx: Tx, tx': Tx, claim: Claim)
    requires tx'.queue == tx.queue.Ack(claim) && tx'.staged == tx.staged
    requires tx.queue.Current(claim) && tx.queue.leases.Keys <= tx.queue.jobs.Keys
    requires tx.staged.Keys !! tx.queue.jobs.Keys
    ensures AllJobs(tx') == AllJobs(tx) - {claim.job} && claim.job in AllJobs(tx)
    ensures tx'.staged.Keys !! tx'.queue.jobs.Keys && tx'.queue.leases.Keys <= tx'.queue.jobs.Keys
  {
  }

  /** Acknowledging a claim of a spent job. */
  lemma AckKeeps(env: Env, tx: Tx, claim: Claim)
    requires TxInv(env, tx) && Spent(tx, claim.job)
    ensures TxInv(env, tx.(queue := tx.queue.Ack(claim)))
  {
    hide DbInv, HeldOk, AllJobs, Spent;
    var tx' := tx.(queue := tx.queue.Ack(claim));
    if tx.queue.Current(claim) {
      AckRemoves(tx, tx', claim);
      RemoveJobInv(env, tx, tx', claim.job);
    } else {
      assert tx' == tx;
    }
  }

  lemma NackKeeps(env: Env, tx: Tx, claim: Claim)
    requires TxInv(env, tx)
    ensures TxInv(env, tx.(queue := tx.queue.Nack(claim)))
  {
    hide DbInv, HeldOk, AllJobs;
    AllJobsOf(tx, tx.(queue := tx.queue.Nack(claim)));
  }

  lemma HeldKeeps(env: Env, tx: Tx, held: map<Id, Claim>)
    requires TxInv(env, tx) && HeldOk(held, AllJobs(tx), tx.queue.nextJob)
    ensures TxInv(env, tx.(held := held))
  {
    hide DbInv, HeldOk, AllJobs;
    AllJobsOf(tx, tx.(held := held));
  }

  // -------------------------------------------------------- work after the commit

  lemma CommittedKeeps(env: Env, tx: Tx)
    requires TxInv(env, tx)
    ensures TxInv(env, Committed(tx)) && AllJobs(Committed(tx)) == AllJobs(tx)
  {
    hide DbInv, HeldOk;
    assert AllJobs(Committed(tx)) == AllJobs(tx);
    assert tx.queue.leases.Keys <= AllJobs(tx).Keys;
  }

  /** Jobs only end: none is added and none changes. */
  ghost predicate JobsShrink(jobs: Jobs, jobs': Jobs) {
    forall j :: j in jobs' ==> j in jobs && jobs'[j] == jobs[j]
  }

  lemma AfterStays(tasks: Tasks, jobs: Jobs, jobs': Jobs, n: JobId, a: After)
    requires AfterOk(tasks, jobs, n, a) && JobsShrink(jobs, jobs')
    ensures AfterOk(tasks, jobs', n, a)
  {
  }

  lemma AckClaimSpent(tx: Tx, claim: Claim)
    requires AfterOk(tx.db.tasks, AllJobs(tx), tx.queue.nextJob, AckClaim(claim))
    ensures Spent(tx, claim.job)
  {
  }

  lemma HeldSpent(tx: Tx, id: Id)
    requires id in tx.held && HeldOk(tx.held, AllJobs(tx), tx.queue.nextJob)
    requires id in tx.db.tasks ==> !NeedsJob(tx.db.tasks[id])
    ensures Spent(tx, tx.held[id].job)
  {
  }

  lemma RunAfterShape(tx: Tx, a: After)
    requires tx.staged == map[]
    ensures var tx' := RunAfter(tx, a);
            && tx' == tx.(held := tx'.held, queue := tx'.queue)
            && JobsShrink(AllJobs(tx), AllJobs(tx')) && tx'.queue.nextJob == tx.queue.nextJob
  {
  }

  /** One step of the work that follows a commit. */
  lemma RunAfterKeeps(env: Env, tx: Tx, a: After)
    requires TxInv(env, tx) && tx.staged == map[] && AfterOk(tx.db.tasks, AllJobs(tx), tx.queue.nextJob, a)
    ensures TxInv(env, RunAfter(tx, a))
  {
    hide DbInv, HeldOk, AllJobs, Spent, AfterOk, ClaimFor;
    match a
    case AckClaim(claim) =>
      AckClaimSpent(tx, claim);
      AckKeeps(env, tx, claim);
    case Hold(task, claim) =>
      assert ClaimFor(claim, AllJobs(tx), tx.queue.nextJob, Execute(task)) by { HoldIsClaim(tx, task, claim); }
      HeldMore(tx.held, AllJobs(tx), tx.queue.nextJob, task, claim);
      HeldKeeps(env, tx, tx.held[task := claim]);
    case Release(task) =>
      if task in tx.held {
        assert task in tx.db.tasks ==> !NeedsJob(tx.db.tasks[task]) by { ReleaseIsSpent(tx, task); }
        HeldSpent(tx, task);
        AckKeeps(env, tx, tx.held[task]);
        var tx1 := tx.(queue := tx.queue.Ack(tx.held[task]));
        HeldFewer(tx1.held, AllJobs(tx1), tx1.queue.nextJob, task);
        HeldKeeps(env, tx1, tx1.held - {task});
      }
    case NackHeld(task) =>
      if task in tx.held {
        NackKeeps(env, tx, tx.held[task]);
        var tx1 := tx.(queue := tx.queue.Nack(tx.held[task]));
        HeldFewer(tx1.held, AllJobs(tx1), tx1.queue.nextJob, task);
        HeldKeeps(env, tx1, tx1.held - {task});
      }
    case ClaimJob(task, job, lease) => ClaimJobKeeps(env, tx, task, job, lease);
  }

  lemma HoldIsClaim(tx: Tx, task: Id, claim: Claim)
    requires AfterOk(tx.db.tasks, AllJobs(tx), tx.queue.nextJob, Hold(task, claim))
    ensures ClaimFor(claim, AllJobs(tx), tx.queue.nextJob, Execute(task))
  {
  }

  lemma ReleaseIsSpent(tx: Tx, task: Id)
    requires AfterOk(tx.db.tasks, AllJobs(tx), tx.queue.nextJob, Release(task))
    ensures task in tx.db.tasks ==> !NeedsJob(tx.db.tasks[task])
  {
  }

  lemma ClaimJobKeeps(env: Env, tx: Tx, task: Id, job: JobId, lease: int)
    requires TxInv(env, tx) && AfterOk(tx.db.tasks, AllJobs(tx), tx.queue.nextJob, ClaimJob(task, job, lease))
    ensures TxInv(env, RunAfter(tx, ClaimJob(task, job, lease)))
  {
    hide DbInv, HeldOk;
    if tx.queue.Claimable(job) {
      var tx' := ClaimHeld(tx, task, job, lease);
      AllJobsOf(tx, tx');
      assert job in AllJobs(tx) && AllJobs(tx)[job] == tx.queue.jobs[job];
      HeldMore(tx.held, AllJobs(tx), tx.queue.nextJob, task, tx.queue.ClaimOf(job));
    }
  }

  /** Any prefix of the work that follows a commit, also none of it. */
  lemma {:induction false} FinishKeeps(env: Env, tx: Tx, n: nat)
    requires TxInv(env, tx) && tx.staged == map[] && AftersOk(tx)
    ensures var tx' := Finish(tx, n);
            && TxInv(env, tx') && tx'.staged == map[]
            && tx' == tx.(held := tx'.held, queue := tx'.queue, after := tx'.after)
            && JobsShrink(AllJobs(tx), AllJobs(tx')) && tx'.queue.nextJob == tx.queue.nextJob
    decreases n
  {
    hide TxInv, AllJobs, AfterOk, RunAfter;
    if n != 0 && tx.after != [] {
      FinishStep(env, tx);
      FinishKeeps(env, RunAfter(tx, tx.after[0]).(after := tx.after[1..]), n - 1);
    }
  }

  /** The unblocks just committed, which the work after the commit leaves queued. */
  ghost predicate Spares(jobs: Jobs, after: seq<After>, spared: set<JobId>) {
    && (forall j :: j in spared ==> j in jobs && jobs[j].payload.Unblock?)
    && (forall a :: a in after && a.AckClaim? && a.claim.payload.Unblock? ==> a.claim.job !in spared)
  }

  lemma RunAfterSpares(tx: Tx, a: After, spared: set<JobId>)
    requires HeldOk(tx.held, tx.queue.jobs, tx.queue.nextJob)
    requires AfterOk(tx.db.tasks, tx.queue.jobs, tx.queue.nextJob, a) && Spares(tx.queue.jobs, [a], spared)
    ensures Spares(RunAfter(tx, a).queue.jobs, [], spared)
  {
    assert a in [a];
  }

  lemma {:induction false} FinishSpares(env: Env, tx: Tx, n: nat, spared: set<JobId>)
    requires TxInv(env, tx) && tx.staged == map[] && AftersOk(tx) && Spares(tx.queue.jobs, tx.after, spared)
    ensures forall j :: j in spared ==> j in Finish(tx, n).queue.jobs
    decreases n
  {
    hide TxInv, AllJobs, AfterOk, RunAfter, JobsShrink;
    if n != 0 && tx.after != [] {
      var a := tx.after[0];
      assert a in tx.after;
      var tx1 := RunAfter(tx, a).(after := tx.after[1..]);
      NothingStaged(tx);
      InvHeld(env, tx);
      RunAfterSpares(tx, a, spared);
      FinishStep(env, tx);
      FinishSpares(env, tx1, n - 1, spared);
    }
  }

  lemma NothingStaged(tx: Tx)
    requires tx.staged == map[]
    ensures AllJobs(tx) == tx.queue.jobs
  {
  }

  lemma InvHeld(env: Env, tx: Tx)
    requires TxInv(env, tx)
    ensures HeldOk(tx.held, AllJobs(tx), tx.queue.nextJob)
  {
    hide DbInv, HeldOk, AllJobs;
  }

  /** One step of the work after a commit leaves the rest of it sound. */
  lemma FinishStep(env: Env, tx: Tx)
    requires TxInv(env, tx) && tx.staged == map[] && AftersOk(tx) && tx.after != []
    ensures var tx1 := RunAfter(tx, tx.after[0]).(after := tx.after[1..]);
            && TxInv(env, tx1) && AftersOk(tx1) && tx1.staged == map[] && tx1.queue.nextJob == tx.queue.nextJob
            && JobsShrink(AllJobs(tx), AllJobs(tx1)) && tx1.db == tx.db
            && tx1 == tx.(held := tx1.held, queue := tx1.queue, after := tx.after[1..])
  {
    hide TxInv, AllJobs, AfterOk, RunAfter;
    var a := tx.after[0];
    assert a in tx.after;
    var tx1 := RunAfter(tx, a).(after := tx.after[1..]);
    RunAfterKeeps(env, tx, a);
    RunAfterShape(tx, a);
    AllJobsOf(RunAfter(tx, a), tx1);
    DropAfterKeeps(env, RunAfter(tx, a), tx.after[1..]);
    forall b | b in tx1.after ensures AfterOk(tx1.db.tasks, AllJobs(tx1), tx1.queue.nextJob, b) {
      assert b in tx.after;
      AfterStays(tx.db.tasks, AllJobs(tx), AllJobs(tx1), tx.queue.nextJob, b);
    }
  }

  lemma DropAfterKeeps(env: Env, tx: Tx, after: seq<After>)
    requires TxInv(env, tx)
    ensures TxInv(env, tx.(after := after))
  {
    hide DbInv, HeldOk, AllJobs;
    AllJobsOf(tx, tx.(after := after));
  }

  // ---------------------------------------------------------------- abandonment

  lemma BoundsGrow(promises: Promises, tasks: Tasks, jobs: Jobs, n: JobId, n': JobId, sent: Sent)
    requires JobsOk(tasks, jobs, n) && SentOk(promises, jobs, n, sent) && n <= n'
    ensures JobsOk(tasks, jobs, n') && SentOk(promises, jobs, n', sent)
  {
    forall id | id in tasks ensures TaskJobOk(tasks[id], jobs, n') {
      assert TaskJobOk(tasks[id], jobs, n);
    }
  }

  lemma HeldOfFewerJobs(held: map<Id, Claim>, jobs: Jobs, jobs': Jobs, n: JobId)
    requires HeldOk(held, jobs, n) && JobsShrink(jobs, jobs')
    ensures HeldOk(held, jobs', n)
  {
  }

  lemma OldJobsRemain(tx0: Tx, tx: Tx)
    requires tx0.staged == map[] && tx.queue.jobs == tx0.queue.jobs && tx.staged.Keys !! tx.queue.jobs.Keys
    ensures JobsShrink(AllJobs(tx), AllJobs(tx0))
  {
  }

  /** A request that commits nothing keeps the invariant, whatever it did to the
      claims. */
  lemma AbandonKeeps(env: Env, tx0: Tx, tx: Tx)
    requires Fresh(env, tx0) && Keeps(env, tx0, tx)
    ensures TxInv(env, Abandon(tx0, tx))
  {
    hide Keyed, Agree, PromisesOk, CallbacksOk, ResumesOk, JobsOk, TimersOk, SchedulesOk, IndexOk, SentOk, HeldOk,
      AllJobs,
      PromisesEvolve, TasksEvolve, NoSuspends, Wakes, Tells, SentGrows, StagedGrows;
    var tx' := Abandon(tx0, tx);
    AllJobsOf(tx0, tx');
    OldJobsRemain(tx0, tx);
    BoundsGrow(tx0.db.promises, tx0.db.tasks, AllJobs(tx0), tx0.queue.nextJob, tx.queue.nextJob, tx0.sent);
    HeldOfFewerJobs(tx.held, AllJobs(tx), AllJobs(tx0), tx.queue.nextJob);
  }

  // ----------------------------------------------------------------- settlements

  lemma HeldOfTask(held: map<Id, Claim>, jobs: Jobs, n: JobId, id: Id)
    requires HeldOk(held, jobs, n) && id in held
    ensures held[id].job in jobs ==> jobs[held[id].job].payload == Execute(id)
  {
  }

  /** A fulfil commits in the acknowledgement of its task's job. */
  lemma FulfilCommitKeeps(env: Env, tx: Tx, id: Id)
    requires TxInv(env, tx) && AftersOk(tx) && id in tx.held && id in tx.db.tasks && tx.db.tasks[id].state.Fulfilled?
    requires tx.queue.Current(tx.held[id])
    ensures var tx' := CommittedAck(tx, id);
            TxInv(env, tx') && AftersOk(tx') && AllJobs(tx') == AllJobs(tx) - {tx.held[id].job}
  {
    hide DbInv, HeldOk, AllJobs, Spent, AfterOk;
    var claim := tx.held[id];
    var a := tx.(queue := tx.queue.Ack(claim));
    HeldSpent(tx, id);
    AckKeeps(env, tx, claim);
    AckRemoves(tx, a, claim);
    HeldFewer(a.held, AllJobs(a), a.queue.nextJob, id);
    HeldKeeps(env, a, a.held - {id});
    var b := a.(held := a.held - {id});
    AllJobsOf(a, b);
    CommittedKeeps(env, b);
    var tx' := CommittedAck(tx, id);
    assert tx' == Committed(b);
    forall x | x in tx'.after ensures AfterOk(tx'.db.tasks, AllJobs(tx'), tx'.queue.nextJob, x) {
      AfterStays(tx.db.tasks, AllJobs(tx), AllJobs(tx'), tx.queue.nextJob, x);
    }
  }

  lemma SuspendJobs(tasks: Tasks, jobs: Jobs, n: JobId, id: Id, j: JobId)
    requires JobsOk(tasks, jobs, n) && KeyedBy(tasks) && id in tasks
    requires j in jobs && jobs[j].payload == Execute(id)
    ensures JobsOk(tasks[id := tasks[id].Transition(TaskState.Suspended).(resumes := {})], jobs - {j}, n)
  {
    var tasks' := tasks[id := tasks[id].Transition(TaskState.Suspended).(resumes := {})];
    assert tasks[id].job == Some(j);
    forall k | k in tasks' ensures TaskJobOk(tasks'[k], jobs - {j}, n) {
      assert TaskJobOk(tasks[k], jobs, n);
    }
  }

  lemma SuspendRecords(promises: Promises, tasks: Tasks, id: Id)
    requires Keyed(promises, tasks) && Agree(promises, tasks) && ResumesOk(promises, tasks)
    requires id in tasks && !tasks[id].state.Fulfilled?
    ensures var tasks' := tasks[id := tasks[id].Transition(TaskState.Suspended).(resumes := {})];
            Keyed(promises, tasks') && Agree(promises, tasks') && ResumesOk(promises, tasks') && tasks'.Keys == tasks.Keys
  {
    hide CanResume;
  }

  lemma QuietAfterSuspend(after: seq<After>, tasks: Tasks, jobs: Jobs, n: JobId, id: Id, t: Task)
    requires Quiet(after, tasks) && id in tasks && !tasks[id].state.Fulfilled?
    ensures forall a :: a in after ==> AfterOk(tasks[id := t], jobs, n, a)
  {
  }

  /** A suspend commits in the acknowledgement of its task's job: no job of the
      task is left. */
  lemma SuspendCommitKeeps(env: Env, mid: Tx, id: Id)
    requires TxInv(env, mid) && Quiet(mid.after, mid.db.tasks) && id in mid.held && id in mid.db.tasks
    requires mid.db.tasks[id].state.Acquired? && mid.queue.Current(mid.held[id])
    ensures var tx := SuspendTask(mid, mid.db.tasks[id]);
            var tx' := CommittedAck(tx, id);
            TxInv(env, tx') && AftersOk(tx') && AllJobs(tx') == AllJobs(mid) - {mid.held[id].job}
  {
    hide Keyed, Agree, PromisesOk, CallbacksOk, ResumesOk, JobsOk, TimersOk, SchedulesOk, IndexOk, SentOk, HeldOk,
      AllJobs, AfterOk, Quiet;
    TaskFactsOf(env, mid, id) by { hide TaskJobOk, CanResume; }
    var tx := SuspendTask(mid, mid.db.tasks[id]);
    var claim := mid.held[id];
    var a := tx.(queue := tx.queue.Ack(claim), held := tx.held - {id});
    AllJobsOf(mid, tx);
    AckRemoves(tx, a, claim);
    var jobs, n := AllJobs(mid), mid.queue.nextJob;
    HeldOfTask(mid.held, jobs, n, id);
    KeyedById(mid.db.promises, mid.db.tasks);
    SuspendJobs(mid.db.tasks, jobs, n, id, claim.job);
    SuspendRecords(mid.db.promises, mid.db.tasks, id);
    RemoveJobTimers(mid.db.promises, jobs, mid.done, claim.job);
    RemoveJobSchedules(env, mid.db.schedules, jobs, mid.done, mid.now, claim.job);
    RemoveJobRest(mid.db.promises, mid.held, jobs, n, mid.sent, claim.job);
    HeldFewer(mid.held, jobs - {claim.job}, n, id);
    CommittedKeeps(env, a);
    assert CommittedAck(tx, id) == Committed(a);
    QuietAfterSuspend(mid.after, mid.db.tasks, AllJobs(a), n, id, a.db.tasks[id]);
  }
}
