/** The meaning of one request's unit of work (src/txn.rs): the records as the
    request reads them through its write buffer, the jobs it will enqueue, the
    work that follows the commit, the held claims and the committed queue. */
module Transaction {
  import opened Records
  import opened Queues

  /** The records. `index` contains the branch index keys. */
  datatype Db = Db(
    promises: map<Id, Promise>, tasks: map<Id, Task>,
    schedules: map<Id, ScheduleRecord>, index: set<string>)

  const EMPTY_DB: Db := Db(map[], map[], map[], {})

  /** Work that follows the commit. */
  datatype After =
    | AckClaim(claim: Claim)
    | Hold(task: Id, claim: Claim)
    | Release(task: Id)
    | NackHeld(task: Id)
    | ClaimJob(task: Id, job: JobId, lease: int)

  /** One enqueued unblock message. */
  datatype Message = Message(address: Address, promise: PromiseRecord)

  /** `staged` contains the jobs the commit enqueues, by id. Two variables only
      record history: `sent` is every unblock job enqueued so far, delivered or
      not, by job id; `done` is the timer jobs whose firing was applied and whose
      acknowledgement by the timer worker is still to come. */
  datatype Tx = Tx(
    now: int, db: Db, queue: Queue, held: map<Id, Claim>, sent: map<JobId, Message>, done: set<JobId>,
    staged: map<JobId, Job>, after: seq<After>)

  /** The jobs that exist once the transaction commits. */
  function AllJobs(tx: Tx): map<JobId, Job> {
    tx.queue.jobs + tx.staged
  }

  function PutPromise(tx: Tx, p: Promise): Tx {
    tx.(db := tx.db.(promises := tx.db.promises[p.record.id := p]))
  }

  function PutTask(tx: Tx, t: Task): Tx {
    tx.(db := tx.db.(tasks := tx.db.tasks[t.id := t]))
  }

  function PutSchedule(tx: Tx, s: ScheduleRecord): Tx {
    tx.(db := tx.db.(schedules := tx.db.schedules[s.id := s]))
  }

  function DeleteSchedule(tx: Tx, id: Id): Tx {
    tx.(db := tx.db.(schedules := tx.db.schedules - {id}))
  }

  /** The key of promise `id` in the index of branch `branch`, without the
      constant prefix of every index key. */
  function BranchKey(branch: string, id: Id): string {
    branch + ['\0'] + id
  }

  function IndexBranch(tx: Tx, r: PromiseRecord): Tx {
    if Branch in r.tags then
      tx.(db := tx.db.(index := tx.db.index + {BranchKey(r.tags[Branch], r.id)}))
    else tx
  }

  function Stage(tx: Tx, job: Job): Tx {
    tx.(staged := tx.staged[tx.queue.nextJob := job],
        queue := tx.queue.(nextJob := tx.queue.nextJob + 1))
  }

  function UnblockJob(m: Message): Job {
    Job(Deliveries(m.address), Unblock(m.promise), 0)
  }

  function SendUnblock(tx: Tx, address: Address, r: PromiseRecord): Tx {
    Stage(tx, UnblockJob(Message(address, r)))
      .(sent := tx.sent[tx.queue.nextJob := Message(address, r)])
  }

  function SendUnblocks(tx: Tx, listeners: seq<Address>, r: PromiseRecord): Tx
    decreases |listeners|
  {
    if listeners == [] then tx
    else SendUnblocks(SendUnblock(tx, listeners[0], r), listeners[1..], r)
  }

  /** Enqueue the dispatch of `t`, at `runAt` when given, and write the task with
      the new job's id. */
  function Dispatch(tx: Tx, t: Task, runAt: Option<int>): Tx {
    var due := if runAt.Some? then Max(runAt.value, 0) else 0;
    Stage(PutTask(tx, t.(job := Some(tx.queue.nextJob))), Job(Deliveries(t.target), Execute(t.id), due))
  }

  function ScheduleTimer(tx: Tx, timer: Payload, at: int): Tx {
    Stage(tx, Job(Timers, timer, Max(at, 0)))
  }

  function Then(tx: Tx, a: After): Tx {
    tx.(after := tx.after + [a])
  }

  /** Whether `claim`'s lease is live. The lease is looked up by job, so a stale
      claim of a job that another claim holds counts as live here. */
  predicate Live(tx: Tx, claim: Claim) {
    claim.job in tx.queue.leases && tx.queue.leases[claim.job].expiry > tx.now
  }

  predicate Holds(tx: Tx, task: Id) {
    task in tx.held && Live(tx, tx.held[task])
  }

  /** A held claim whose lease ended is dropped by the check itself. */
  function AfterHolds(tx: Tx, task: Id): Tx {
    if Holds(tx, task) then tx else tx.(held := tx.held - {task})
  }

  predicate CanRenew(tx: Tx, task: Id) {
    Holds(tx, task) && tx.queue.Current(tx.held[task])
  }

  function Renew(tx: Tx, task: Id, lease: int): Tx {
    if CanRenew(tx, task) then tx.(queue := tx.queue.Renewed(tx.held[task], tx.now + lease))
    else tx.(held := tx.held - {task})
  }

  function ClaimHeld(tx: Tx, task: Id, job: JobId, lease: int): Tx {
    if tx.queue.Claimable(job) then
      tx.(held := tx.held[task := tx.queue.ClaimOf(job)], queue := tx.queue.ClaimById(job, tx.now + lease))
    else tx
  }

  /** Every write and enqueue, as one transaction. */
  function Committed(tx: Tx): Tx {
    tx.(queue := tx.queue.(jobs := AllJobs(tx)), staged := map[])
  }

  /** The commit in the transaction that acknowledges the held claim of `task`. */
  function CommittedAck(tx: Tx, task: Id): Tx
    requires task in tx.held
  {
    Committed(tx.(queue := tx.queue.Ack(tx.held[task]), held := tx.held - {task}))
  }

  /** One step of the work that follows the commit. */
  function RunAfter(tx: Tx, a: After): Tx {
    match a
    case AckClaim(claim) => tx.(queue := tx.queue.Ack(claim))
    case Hold(task, claim) => tx.(held := tx.held[task := claim])
    case Release(task) =>
      if task in tx.held then tx.(queue := tx.queue.Ack(tx.held[task]), held := tx.held - {task}) else tx
    case NackHeld(task) =>
      if task in tx.held then tx.(queue := tx.queue.Nack(tx.held[task]), held := tx.held - {task}) else tx
    case ClaimJob(task, job, lease) => ClaimHeld(tx, task, job, lease)
  }

  /** The first `n` steps of the work that follows the commit. */
  function Finish(tx: Tx, n: nat): Tx
    decreases n
  {
    if n == 0 || tx.after == [] then tx
    else Finish(RunAfter(tx, tx.after[0]).(after := tx.after[1..]), n - 1)
  }
}
