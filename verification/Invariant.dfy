/** What every transition keeps: the invariant the kernel relies on, and the
    relation between the records before and after a transition. Each part names
    only the records it speaks of. */
module Invariant {
  import opened Records
  import opened Queues
  import opened Transaction
  import opened Kernel

  type Promises = map<Id, Promise>
  type Tasks = map<Id, Task>
  type Jobs = map<JobId, Job>
  type Sent = map<JobId, Message>

  ghost predicate Distinct<T(!new)>(s: seq<T>) {
    forall i, j :: 0 <= i < j < |s| ==> s[i] != s[j]
  }

  // ------------------------------------------------------------ state invariant

  ghost predicate Keyed(promises: Promises, tasks: Tasks) {
    && (forall id :: id in promises ==> promises[id].record.id == id)
    && (forall id :: id in tasks ==> tasks[id].id == id)
  }

  /** A task exists exactly for a targeted promise and is fulfilled exactly when
      its promise is settled. */
  ghost predicate Agree(promises: Promises, tasks: Tasks) {
    && (forall id :: id in promises ==> (id in tasks <==> Target in promises[id].record.tags))
    && (forall id :: id in tasks ==>
          && id in promises
          && tasks[id].target == promises[id].record.tags[Target]
          && (tasks[id].state.Fulfilled? <==> !promises[id].IsPending()))
  }

  ghost predicate PromiseOk(p: Promise, now: int) {
    var r := p.record;
    && r.createdAt <= r.timeoutAt
    && r.createdAt <= now
    && Distinct(p.callbacks) && Distinct(p.listeners)
    && if p.IsPending() then
         r.settledAt == None && r.value == EMPTY && (p.callbacks != [] || p.listeners != [] ==> r.IsExternal())
       else
         && p.callbacks == [] && p.listeners == []
         && r.settledAt.Some? && r.createdAt <= r.settledAt.value <= r.timeoutAt
         && r.settledAt.value <= now
         && (r.settledAt.value == r.timeoutAt ==> r.state == r.TimeoutState() && r.value == EMPTY)
         && (r.settledAt.value < r.timeoutAt ==> !r.state.RejectedTimedout?)
  }

  ghost predicate PromisesOk(promises: Promises, now: int) {
    forall id :: id in promises ==> PromiseOk(promises[id], now)
  }

  /** A callback names an existing awaiter with a task, of the same origin. */
  ghost predicate CallbacksOk(promises: Promises, awaiters: set<Id>) {
    forall id, c :: id in promises && c in promises[id].callbacks ==>
      c in awaiters && c in promises && c != id && OriginOf(c) == OriginOf(id)
  }

  /** `r` can be in the resumes of task `id`: it names a settled promise of the
      same origin other than the task's own. */
  ghost predicate CanResume(promises: Promises, id: Id, r: Id) {
    r in promises && !promises[r].IsPending() && r != id && OriginOf(r) == OriginOf(id)
  }

  ghost predicate ResumesOk(promises: Promises, tasks: Tasks) {
    && (forall id, r :: id in tasks && r in tasks[id].resumes ==> CanResume(promises, id, r))
    && (forall id :: id in tasks && (tasks[id].state.Suspended? || tasks[id].state.Fulfilled?) ==>
          tasks[id].resumes == {})
  }

  predicate IsLive(t: Task, jobs: Jobs) {
    t.job.Some? && t.job.value in jobs
  }

  predicate NeedsJob(t: Task) {
    t.state.Pending? || t.state.Acquired?
  }

  ghost predicate TaskJobOk(t: Task, jobs: Jobs, nextJob: JobId) {
    && (t.job.Some? ==> t.job.value < nextJob)
    && (IsLive(t, jobs) ==> jobs[t.job.value].payload == Execute(t.id))
    && (NeedsJob(t) ==> IsLive(t, jobs))
    && (t.state.Suspended? ==> !IsLive(t, jobs))
  }

  /** Every execute job is the job its task names, so a task has at most one; a
      pending or acquired task has one and a suspended task has none. */
  ghost predicate JobsOk(tasks: Tasks, jobs: Jobs, nextJob: JobId) {
    && (forall j :: j in jobs ==> j < nextJob)
    && (forall j :: j in jobs && jobs[j].payload.Execute? ==>
          && jobs[j].payload.task in tasks
          && tasks[jobs[j].payload.task].job == Some(j)
          && jobs[j].lane == Deliveries(tasks[jobs[j].payload.task].target))
    && (forall id :: id in tasks ==> TaskJobOk(tasks[id], jobs, nextJob))
  }

  /** An outstanding job for `timer`: one whose firing has not been applied. */
  ghost predicate HasTimer(jobs: Jobs, done: set<JobId>, timer: Payload) {
    exists j :: j in jobs && j !in done && jobs[j].payload == timer
  }

  /** Every pending external promise has an outstanding timer, and no timer is due
      before its deadline. */
  ghost predicate TimersOk(promises: Promises, jobs: Jobs, done: set<JobId>) {
    && (forall id :: id in promises && promises[id].IsPending() && promises[id].record.IsExternal() ==>
          HasTimer(jobs, done, PromiseTimeout(id)))
    && (forall j :: j in jobs && jobs[j].payload.PromiseTimeout? ==>
          && jobs[j].payload.promiseId in promises
          && jobs[j].due == Max(promises[jobs[j].payload.promiseId].record.timeoutAt, 0))
    && (forall j :: j in jobs && jobs[j].payload.ScheduleFire? ==> jobs[j].due == Max(jobs[j].payload.at, 0))
  }

  /** A schedule that fired its last time. */
  predicate Exhausted(env: Env, s: ScheduleRecord) {
    s.lastRunAt == Some(s.nextRunAt) && env.nextAfter(s.cron, s.nextRunAt) == None
  }

  /** A schedule's next time follows its last one, or its creation. */
  ghost predicate ScheduleOk(env: Env, s: ScheduleRecord, now: int) {
    && s.promiseTimeout >= 0 && Target in s.promiseTags && s.nextRunAt <= I64_MAX && s.createdAt <= now
    && match s.lastRunAt
       case None => env.nextAfter(s.cron, s.createdAt) == Some(s.nextRunAt)
       case Some(last) => Exhausted(env, s) || env.nextAfter(s.cron, last) == Some(s.nextRunAt)
  }

  ghost predicate SchedulesOk(env: Env, schedules: map<Id, ScheduleRecord>, jobs: Jobs, done: set<JobId>, now: int) {
    forall id :: id in schedules ==>
      && schedules[id].id == id
      && ScheduleOk(env, schedules[id], now)
      && (Exhausted(env, schedules[id]) || HasTimer(jobs, done, ScheduleFire(id, schedules[id].nextRunAt)))
  }

  ghost predicate IndexEntry(promises: Promises, k: string, id: Id) {
    && id in promises && Branch in promises[id].record.tags
    && k == BranchKey(promises[id].record.tags[Branch], id)
  }

  /** The branch index is the set of keys of the promises with a branch tag. */
  ghost predicate IndexOk(promises: Promises, index: set<string>) {
    && (forall id :: id in promises && Branch in promises[id].record.tags ==>
          BranchKey(promises[id].record.tags[Branch], id) in index)
    && (forall k :: k in index ==> exists id :: IndexEntry(promises, k, id))
  }

  /** Every unblock ever enqueued carries the final record of a settled promise,
      and no address was sent the same promise twice. */
  ghost predicate SentOk(promises: Promises, jobs: Jobs, nextJob: JobId, sent: Sent) {
    && (forall j :: j in sent ==>
          && j < nextJob && sent[j].promise.id in promises
          && promises[sent[j].promise.id].record == sent[j].promise
          && !sent[j].promise.state.Pending?)
    && (forall j, k :: j in sent && k in sent && sent[j] == sent[k] ==> j == k)
    && (forall j :: j in jobs && jobs[j].payload.Unblock? ==>
          j in sent && jobs[j].payload.promise == sent[j].promise && jobs[j].lane == Deliveries(sent[j].address))
  }

  /** `claim` is a claim of a job with `payload`, while that job exists. */
  ghost predicate ClaimFor(claim: Claim, jobs: Jobs, nextJob: JobId, payload: Payload) {
    claim.job < nextJob && (claim.job in jobs ==> jobs[claim.job].payload == payload)
  }

  ghost predicate HeldOk(held: map<Id, Claim>, jobs: Jobs, nextJob: JobId) {
    forall id :: id in held ==> ClaimFor(held[id], jobs, nextJob, Execute(id))
  }

  ghost predicate DbInv(env: Env, db: Db, jobs: Jobs, nextJob: JobId, sent: Sent, done: set<JobId>, now: int) {
    && Keyed(db.promises, db.tasks)
    && Agree(db.promises, db.tasks)
    && PromisesOk(db.promises, now)
    && CallbacksOk(db.promises, db.tasks.Keys)
    && ResumesOk(db.promises, db.tasks)
    && JobsOk(db.tasks, jobs, nextJob)
    && TimersOk(db.promises, jobs, done)
    && SchedulesOk(env, db.schedules, jobs, done, now)
    && IndexOk(db.promises, db.index)
    && SentOk(db.promises, jobs, nextJob, sent)
  }

  /** The invariant of a transaction: the one of the records and jobs its commit
      leaves, and of the claims it holds. */
  ghost predicate TxInv(env: Env, tx: Tx) {
    && DbInv(env, tx.db, AllJobs(tx), tx.queue.nextJob, tx.sent, tx.done, tx.now)
    && HeldOk(tx.held, AllJobs(tx), tx.queue.nextJob)
    && tx.staged.Keys !! tx.queue.jobs.Keys
    && tx.queue.leases.Keys <= tx.queue.jobs.Keys
    && (forall j :: j in tx.done ==> j < tx.queue.nextJob)
  }

  /** The work that follows the commit leaves every job a task needs. */
  ghost predicate AfterOk(tasks: Tasks, jobs: Jobs, nextJob: JobId, a: After) {
    match a
    case AckClaim(claim) =>
      && ClaimFor(claim, jobs, nextJob, claim.payload)
      && (claim.payload.Unblock? ||
          (claim.payload.Execute? && (claim.payload.task in tasks ==> !NeedsJob(tasks[claim.payload.task]))))
    case Hold(task, claim) => ClaimFor(claim, jobs, nextJob, Execute(task))
    case Release(task) => task in tasks && !NeedsJob(tasks[task])
    case NackHeld(_) => true
    case ClaimJob(task, job, _) => job < nextJob && (job in jobs ==> jobs[job].payload == Execute(task))
  }

  /** An unblock that is acknowledged was enqueued before this transaction. */
  predicate SparesStaged(staged: Jobs, a: After) {
    a.AckClaim? && a.claim.payload.Unblock? ==> a.claim.job !in staged
  }

  ghost predicate AftersOk(tx: Tx) {
    && (forall a :: a in tx.after ==> AfterOk(tx.db.tasks, AllJobs(tx), tx.queue.nextJob, a))
    && (forall a :: a in tx.after ==> SparesStaged(tx.staged, a))
  }

  /** Before a handler's own last action, only claims of fulfilled tasks are to be
      released. */
  ghost predicate Quiet(after: seq<After>, tasks: Tasks) {
    forall a :: a in after ==> a.Release? && a.task in tasks && tasks[a.task].state.Fulfilled?
  }

  // ------------------------------------------------------- two-state properties

  predicate SameIdentity(r: PromiseRecord, r': PromiseRecord) {
    r'.id == r.id && r'.param == r.param && r'.tags == r.tags && r'.timeoutAt == r.timeoutAt && r'.createdAt == r.createdAt
  }

  /** How a record that was pending is settled at `now`: by its deadline, which
      has passed, or by a client before it. */
  predicate SettledFrom(r: PromiseRecord, r': PromiseRecord, now: int) {
    if now >= r.timeoutAt then r' == r.Expired()
    else r'.settledAt == Some(now) && !r'.state.Pending? && !r'.state.RejectedTimedout?
  }

  /** A settled promise never changes; a pending one keeps its registrations. */
  ghost predicate PromiseEvolves(p: Promise, p': Promise, now: int) {
    && SameIdentity(p.record, p'.record)
    && if !p.IsPending() then p' == p
       else if p'.IsPending() then p'.record == p.record && p.callbacks <= p'.callbacks && p.listeners <= p'.listeners
       else SettledFrom(p.record, p'.record, now)
  }

  ghost predicate PromisesEvolve(promises: Promises, promises': Promises, now: int) {
    forall id :: id in promises ==> id in promises' && PromiseEvolves(promises[id], promises'[id], now)
  }

  /** Versions never decrease, a holder at a version was its holder before, a
      fulfilled task never changes. */
  predicate TaskEvolves(t: Task, t': Task) {
    && t'.id == t.id && t'.target == t.target && t.version <= t'.version
    && (t.state.Fulfilled? ==> t' == t)
    && (t'.state.Acquired? && t'.version == t.version ==> t.state.Acquired? && t'.pid == t.pid && t'.ttl == t.ttl)
  }

  ghost predicate TasksEvolve(tasks: Tasks, tasks': Tasks) {
    forall id :: id in tasks ==> id in tasks' && TaskEvolves(tasks[id], tasks'[id])
  }

  /** No transition but the suspend itself suspends a task. */
  ghost predicate NoSuspends(tasks: Tasks, tasks': Tasks) {
    forall id :: id in tasks' && tasks'[id].state.Suspended? ==> id in tasks && tasks[id] == tasks'[id]
  }

  /** An awaited promise does not settle unseen by a task that stays suspended,
      unless the task's own deadline has passed. */
  ghost predicate Wakes(promises: Promises, promises': Promises, tasks': Tasks, now: int) {
    forall a, c :: a in promises && a in promises' && promises[a].IsPending() && c in promises[a].callbacks
                   && !promises'[a].IsPending() && c in tasks' && tasks'[c].state.Suspended? ==>
      c in promises && now >= promises[c].record.timeoutAt
  }

  ghost predicate WasSent(sent: Sent, m: Message) {
    exists j :: j in sent && sent[j] == m
  }

  /** Every listener of a promise that settles is sent the settled record. */
  ghost predicate Tells(promises: Promises, promises': Promises, sent': Sent) {
    forall a, l :: a in promises && a in promises' && promises[a].IsPending()
                   && l in promises[a].listeners && !promises'[a].IsPending() ==>
      WasSent(sent', Message(l, promises'[a].record))
  }

  ghost predicate SentGrows(sent: Sent, sent': Sent) {
    forall j :: j in sent ==> j in sent' && sent'[j] == sent[j]
  }

  /** Jobs are enqueued under fresh ids, and what is enqueued stays so. */
  ghost predicate StagedGrows(staged: Jobs, n: JobId, staged': Jobs) {
    && (forall j :: j in staged' ==> n <= j || (j in staged && staged'[j] == staged[j]))
    && (forall j :: j in staged && j < n ==> j in staged' && staged'[j] == staged[j])
  }

  /** Every unblock that is newly sent is a job enqueued under a fresh id. */
  ghost predicate Posted(sent: Sent, n: JobId, sent': Sent, n': JobId, staged': Jobs) {
    forall j :: j in sent' && j !in sent ==> n <= j < n' && j in staged' && staged'[j] == UnblockJob(sent'[j])
  }

  ghost predicate Evolves(tx: Tx, tx': Tx) {
    && tx'.now == tx.now && tx'.done == tx.done
    && tx'.queue.jobs == tx.queue.jobs && tx.queue.nextJob <= tx'.queue.nextJob
    && StagedGrows(tx.staged, tx.queue.nextJob, tx'.staged)
    && SentGrows(tx.sent, tx'.sent)
    && Posted(tx.sent, tx.queue.nextJob, tx'.sent, tx'.queue.nextJob, tx'.staged)
    && PromisesEvolve(tx.db.promises, tx'.db.promises, tx.now)
    && TasksEvolve(tx.db.tasks, tx'.db.tasks)
    && NoSuspends(tx.db.tasks, tx'.db.tasks)
    && Wakes(tx.db.promises, tx'.db.promises, tx'.db.tasks, tx.now)
    && Tells(tx.db.promises, tx'.db.promises, tx'.sent)
  }

  lemma PromiseEvolvesTransitive(p: Promise, p': Promise, p'': Promise, now: int)
    requires PromiseEvolves(p, p', now) && PromiseEvolves(p', p'', now)
    ensures PromiseEvolves(p, p'', now)
  {
  }

  lemma PromisesEvolveTransitive(a: Promises, b: Promises, c: Promises, now: int)
    requires PromisesEvolve(a, b, now) && PromisesEvolve(b, c, now)
    ensures PromisesEvolve(a, c, now)
  {
    forall id | id in a ensures id in c && PromiseEvolves(a[id], c[id], now) {
      PromiseEvolvesTransitive(a[id], b[id], c[id], now);
    }
  }

  lemma TasksEvolveTransitive(a: Tasks, b: Tasks, c: Tasks)
    requires TasksEvolve(a, b) && TasksEvolve(b, c)
    ensures TasksEvolve(a, c)
  {
  }

  lemma NoSuspendsTransitive(a: Tasks, b: Tasks, c: Tasks)
    requires NoSuspends(a, b) && NoSuspends(b, c)
    ensures NoSuspends(a, c)
  {
  }

  lemma WakesTransitive(a: Promises, b: Promises, c: Promises, bTasks: Tasks, cTasks: Tasks, awaiters: set<Id>, now: int)
    requires Wakes(a, b, bTasks, now) && Wakes(b, c, cTasks, now) && NoSuspends(bTasks, cTasks)
    requires PromisesEvolve(a, b, now) && CallbacksOk(a, awaiters)
    ensures Wakes(a, c, cTasks, now)
  {
    hide OriginOf;
    forall p, t | p in a && p in c && a[p].IsPending() && t in a[p].callbacks
                  && !c[p].IsPending() && t in cTasks && cTasks[t].state.Suspended?
      ensures t in a && now >= a[t].record.timeoutAt
    {
      assert PromiseEvolves(a[p], b[p], now);
      assert t in bTasks && bTasks[t].state.Suspended?;
      if b[p].IsPending() {
        assert t in b[p].callbacks;
        assert PromiseEvolves(a[t], b[t], now);
      }
    }
  }

  lemma TellsTransitive(a: Promises, b: Promises, c: Promises, bSent: Sent, cSent: Sent, now: int)
    requires Tells(a, b, bSent) && Tells(b, c, cSent) && SentGrows(bSent, cSent)
    requires PromisesEvolve(a, b, now) && PromisesEvolve(b, c, now)
    ensures Tells(a, c, cSent)
  {
    forall p, l | p in a && p in c && a[p].IsPending() && l in a[p].listeners && !c[p].IsPending()
      ensures WasSent(cSent, Message(l, c[p].record))
    {
      assert PromiseEvolves(a[p], b[p], now) && PromiseEvolves(b[p], c[p], now);
      if !b[p].IsPending() {
        var m := Message(l, b[p].record);
        assert WasSent(bSent, m);
        var j :| j in bSent && bSent[j] == m;
        assert j in cSent && cSent[j] == m;
      } else {
        assert l in b[p].listeners;
      }
    }
  }

  lemma EvolvesTransitive(a: Tx, b: Tx, c: Tx)
    requires Evolves(a, b) && Evolves(b, c)
    requires CallbacksOk(a.db.promises, a.db.tasks.Keys)
    ensures Evolves(a, c)
  {
    hide PromisesEvolve, TasksEvolve, NoSuspends, Wakes, Tells, CallbacksOk;
    PromisesEvolveTransitive(a.db.promises, b.db.promises, c.db.promises, a.now);
    TasksEvolveTransitive(a.db.tasks, b.db.tasks, c.db.tasks);
    NoSuspendsTransitive(a.db.tasks, b.db.tasks, c.db.tasks);
    WakesTransitive(a.db.promises, b.db.promises, c.db.promises, b.db.tasks, c.db.tasks, a.db.tasks.Keys, a.now);
    TellsTransitive(a.db.promises, b.db.promises, c.db.promises, b.sent, c.sent, a.now);
    PostedTransitive(a, b, c);
    hide Posted;
  }

  lemma PostedTransitive(a: Tx, b: Tx, c: Tx)
    requires Posted(a.sent, a.queue.nextJob, b.sent, b.queue.nextJob, b.staged)
    requires Posted(b.sent, b.queue.nextJob, c.sent, c.queue.nextJob, c.staged)
    requires a.queue.nextJob <= b.queue.nextJob <= c.queue.nextJob
    requires StagedGrows(b.staged, b.queue.nextJob, c.staged) && SentGrows(b.sent, c.sent)
    ensures Posted(a.sent, a.queue.nextJob, c.sent, c.queue.nextJob, c.staged)
  {
  }

  lemma EvolvesReflexive(tx: Tx)
    ensures Evolves(tx, tx)
  {
  }
}
