/** The store as a whole: requests, deliveries and timers take turns under one
    lock; claims, lease expiries, clock advances, faults and restarts happen in
    between, in any order (src/store.rs, src/network.rs, src/txn.rs). */
module Worlds {
  import opened Records
  import opened Queues
  import opened Transaction
  import opened Kernel

  /** `inflight`: claims taken by a delivery loop or the timer worker and not yet
      processed. `acking`: claims of timers whose firing is applied and whose
      acknowledgement, made outside the lock, is still to come. */
  datatype World = World(
    now: int, db: Db, queue: Queue, held: map<Id, Claim>, sent: map<JobId, Message>,
    inflight: set<Claim>, acking: set<Claim>)

  function Initial(now: int): World {
    World(now, EMPTY_DB, EMPTY_QUEUE, map[], map[], {}, {})
  }

  function DoneJobs(acking: set<Claim>): set<JobId> {
    set c | c in acking :: c.job
  }

  /** A request's transaction, as it begins. */
  function Begin(w: World): Tx {
    Tx(w.now, w.db, w.queue, w.held, w.sent, DoneJobs(w.acking), map[], [])
  }

  function End(w: World, tx: Tx): World {
    w.(db := tx.db, queue := tx.queue, held := tx.held, sent := tx.sent)
  }

  /** Where the process stops working on a request: nowhere, before its commit, or
      after the commit and some steps of the work that follows it. */
  datatype Fault = NoFault | BeforeCommit | AfterCommit(steps: nat)

  /** What a request leaves when nothing is committed: the claims it took, renewed
      or dropped, and the ids it drew. */
  function Abandon(tx0: Tx, tx: Tx): Tx {
    tx0.(held := tx.held,
         queue := tx0.queue.(leases := tx.queue.leases, nextJob := tx.queue.nextJob, nextToken := tx.queue.nextToken))
  }

  datatype Result = Result(tx: Tx, reply: Reply, committed: bool)

  function StepsBefore(fault: Fault, tx: Tx): nat {
    if fault.AfterCommit? && fault.steps < |tx.after| then fault.steps else |tx.after|
  }

  function ReplyUnder(fault: Fault, reply: Reply): Reply {
    if fault.NoFault? then reply else Err(500)
  }

  /** The end of a handler. A settlement whose claim is lost changes no record. */
  function Resolve(tx0: Tx, out: Outcome, fault: Fault): Result {
    match out.mode
    case Discard => Result(Abandon(tx0, out.tx), out.reply, false)
    case Commit =>
      if fault.BeforeCommit? then Result(Abandon(tx0, out.tx), Err(500), false)
      else Result(Finish(Committed(out.tx), StepsBefore(fault, out.tx)), ReplyUnder(fault, out.reply), true)
    case CommitAck(task) =>
      if !Holds(out.tx, task) || (!fault.BeforeCommit? && !out.tx.queue.Current(out.tx.held[task])) then
        Result(Abandon(tx0, out.tx.(held := out.tx.held - {task})), Err(409), false)
      else if fault.BeforeCommit? then Result(Abandon(tx0, out.tx), Err(500), false)
      else Result(Finish(CommittedAck(out.tx, task), StepsBefore(fault, out.tx)), ReplyUnder(fault, out.reply), true)
  }

  datatype Step =
    | Serve(req: Request, fault: Fault)
    | TakeClaim(job: JobId, lease: int)
    | DeliverClaim(claim: Claim, fault: Fault)
    | FireTimer(claim: Claim, fault: Fault)
    | AckTimer(claim: Claim)
    | GiveBack(claim: Claim)
    | Reap(job: JobId)
    | Tick(to: int)
    | Restart

  predicate IsTimer(p: Payload) {
    p.PromiseTimeout? || p.ScheduleFire?
  }

  predicate Enabled(w: World, step: Step) {
    match step
    case Serve(_, _) => true
    case TakeClaim(job, _) => w.queue.Claimable(job) && w.queue.jobs[job].due <= w.now
    case DeliverClaim(claim, _) => claim in w.inflight && !IsTimer(claim.payload)
    case FireTimer(claim, _) => claim in w.inflight && IsTimer(claim.payload)
    case AckTimer(claim) => claim in w.acking
    case GiveBack(claim) => claim in w.inflight
    case Reap(job) => job in w.queue.leases && w.queue.leases[job].expiry <= w.now
    case Tick(to) => w.now <= to
    case Restart => true
  }

  ghost function Served(env: Env, w: World, req: Request, fault: Fault): Result {
    Resolve(Begin(w), Handle(env, Begin(w), req), fault)
  }

  function Delivered(w: World, claim: Claim, fault: Fault): Result {
    Resolve(Begin(w), Deliver(Begin(w), claim), fault)
  }

  function Fired(env: Env, w: World, claim: Claim, fault: Fault): Result {
    Resolve(Begin(w), Fire(env, Begin(w), claim.payload), fault)
  }

  ghost function Next(env: Env, w: World, step: Step): World {
    match step
    case Serve(req, fault) => End(w, Served(env, w, req, fault).tx)
    case TakeClaim(job, lease) =>
      if job !in w.queue.jobs then w else
        w.(queue := w.queue.ClaimById(job, w.now + lease), inflight := w.inflight + {w.queue.ClaimOf(job)})
    case DeliverClaim(claim, fault) =>
      End(w, Delivered(w, claim, fault).tx).(inflight := w.inflight - {claim})
    case FireTimer(claim, fault) =>
      // A firing that fails is failed by the worker: its job is delivered again.
      var w1 := End(w, Fired(env, w, claim, fault).tx).(inflight := w.inflight - {claim});
      if fault.NoFault? then w1.(acking := w.acking + {claim}) else w1.(queue := w1.queue.Nack(claim))
    case AckTimer(claim) => w.(queue := w.queue.Ack(claim), acking := w.acking - {claim})
    case GiveBack(claim) => w.(queue := w.queue.Nack(claim), inflight := w.inflight - {claim})
    case Reap(job) => w.(queue := w.queue.(leases := w.queue.leases - {job}))
    case Tick(to) => w.(now := to)
    case Restart => w.(held := map[], inflight := {}, acking := {}, queue := w.queue.(leases := map[]))
  }

  /** The reply to a request, as the store sends it. */
  ghost function ReplyTo(env: Env, w: World, req: Request, fault: Fault): Reply {
    Served(env, w, req, fault).reply
  }

  /** A run: every step is possible where it is taken. */
  ghost predicate IsRun(env: Env, worlds: seq<World>, steps: seq<Step>) {
    && |worlds| == |steps| + 1
    && (exists now :: worlds[0] == Initial(now))
    && (forall i :: 0 <= i < |steps| ==> Enabled(worlds[i], steps[i]) && worlds[i + 1] == Next(env, worlds[i], steps[i]))
  }
}
