/** The job queue the protocol runs on, kept as small as the protocol needs: a
    set of jobs, the in-process registry of the leases of claimed jobs, and
    fresh job ids and claim tokens (src/store.rs, src/txn.rs). */
module Queues {
  import opened Records

  /** The payload of a job: a delivery on an address queue or a timer. */
  datatype Payload =
    | Execute(task: Id)
    | Unblock(promise: PromiseRecord)
    | PromiseTimeout(promiseId: Id)
    | ScheduleFire(scheduleId: Id, at: int)

  datatype Lane = Deliveries(address: Address) | Timers

  datatype Job = Job(lane: Lane, payload: Payload, due: int)

  datatype Lease = Lease(token: nat, expiry: int)

  /** What a claimer keeps: it acts on the job only while `token` is current. */
  datatype Claim = Claim(job: JobId, token: nat, payload: Payload)

  /** A job in `leases` is claimed; every other job waits. */
  datatype Queue = Queue(
    jobs: map<JobId, Job>, leases: map<JobId, Lease>, nextJob: JobId, nextToken: nat)
  {
    predicate Current(claim: Claim) {
      claim.job in leases && leases[claim.job].token == claim.token
    }

    /** End the job of a current claim; a stale claim has no effect. */
    function Ack(claim: Claim): Queue {
      if Current(claim) then this.(jobs := jobs - {claim.job}, leases := leases - {claim.job}) else this
    }

    /** Return the job of a current claim to waiting; a stale claim has no effect. */
    function Nack(claim: Claim): Queue {
      if Current(claim) then this.(leases := leases - {claim.job}) else this
    }

    predicate Claimable(job: JobId) { job in jobs && job !in leases }

    function ClaimById(job: JobId, expiry: int): Queue {
      this.(leases := leases[job := Lease(nextToken, expiry)], nextToken := nextToken + 1)
    }

    function ClaimOf(job: JobId): Claim
      requires job in jobs
    {
      Claim(job, nextToken, jobs[job].payload)
    }

    function Renewed(claim: Claim, expiry: int): Queue {
      this.(leases := leases[claim.job := Lease(claim.token, expiry)])
    }
  }

  const EMPTY_QUEUE: Queue := Queue(map[], map[], 0, 0)
}
