/** When the job of a halted or fulfilled task ends. A halt and a settlement end the
    job exactly when the claim of the job is held; a job that still waits, or whose
    claim was lost, stays queued until its delivery ends it. */
module Endings {
  import opened Records
  import opened Queues
  import opened Transaction
  import opened Kernel
  import opened Invariant
  import opened Steps
  import opened Operations
  import opened Handlers
  import opened Worlds
  import opened Commits
  import opened Runs
  import opened Theorems
  import opened Frames
  import opened Wakeups
  import opened Closings
  import opened Fencing

  lemma LiveJobsFor(w: World, id: Id)
    ensures LiveJobs(w, id) == JobsFor(w.queue.jobs, id)
  {
  }

  /** The claim of the task's job is held, and is the claim the queue knows. */
  predicate ClaimHeld(w: World, id: Id) {
    HeldCurrent(w.held, w.queue, id)
  }

  // ---------------------------------------------------------------------- commits

  lemma StagedElsewhere(tx0: Tx, tx: Tx, id: Id)
    requires Evolves(tx0, tx) && NotStaged(tx.staged, id) && tx.staged.Keys !! tx.queue.jobs.Keys
    ensures JobsFor(AllJobs(tx), id) == JobsFor(tx0.queue.jobs, id)
  {
    hide PromisesEvolve, TasksEvolve, NoSuspends, Wakes, Tells, SentGrows, StagedGrows, Posted;
  }

  lemma InvParts(env: Env, tx: Tx)
    requires TxInv(env, tx)
    ensures HeldOk(tx.held, AllJobs(tx), tx.queue.nextJob) && tx.staged.Keys !! tx.queue.jobs.Keys
    ensures tx.queue.leases.Keys <= tx.queue.jobs.Keys
  {
    hide DbInv, HeldOk, AllJobs;
  }

  /** A commit that releases the task, and the work that follows it. */
  lemma CommitEndsJob(env: Env, tx0: Tx, tx: Tx, id: Id)
    requires Fresh(env, tx0) && Keeps(env, tx0, tx) && AftersOk(tx) && Released(tx0, tx, id)
    ensures JobsFor(Finish(Committed(tx), |tx.after|).queue.jobs, id) == {} <==>
              JobsFor(tx0.queue.jobs, id) == {} || HeldCurrent(tx0.held, tx0.queue, id)
  {
    hide TxInv, Evolves, AfterOk, AllJobs, JobsFor, NotStaged, Foreign, Finish;
    CommittedKeeps(env, tx);
    InvParts(env, tx);
    StagedElsewhere(tx0, tx, id);
    NothingStaged(Committed(tx));
    FinishEnds(env, Committed(tx), id);
  }

  /** What a handler that commits with an acknowledgement leaves to finish. */
  lemma AckedOk(env: Env, tx0: Tx, out: Outcome)
    requires Fresh(env, tx0) && HandledOk(env, tx0, out) && out.mode.CommitAck?
    requires out.mode.task in out.tx.held && out.tx.queue.Current(out.tx.held[out.mode.task])
    ensures var a := CommittedAck(out.tx, out.mode.task);
            && TxInv(env, a) && AftersOk(a) && a.staged == map[] && a.after == out.tx.after
            && AllJobs(a) == AllJobs(out.tx) - {out.tx.held[out.mode.task].job}
            && a.held == out.tx.held - {out.mode.task}
            && a.queue.leases == out.tx.queue.leases - {out.tx.held[out.mode.task].job}
    ensures HeldOk(out.tx.held, AllJobs(out.tx), out.tx.queue.nextJob)
    ensures out.tx.queue.leases.Keys <= out.tx.queue.jobs.Keys
    ensures out.tx.staged.Keys !! out.tx.queue.jobs.Keys && out.tx.queue.jobs == tx0.queue.jobs
  {
    hide TxInv, Evolves, AfterOk, AllJobs, Quiet, AftersOk, HeldOk;
    var id := out.mode.task;
    if FulfilSound(env, tx0, out) {
      FulfilCommitKeeps(env, out.tx, id);
      InvParts(env, out.tx);
      EvolvesParts(tx0, out.tx);
    } else {
      var mid :| SuspendSound(env, tx0, mid, out);
      SuspendCommitKeeps(env, mid, id);
      InvParts(env, mid);
      AllJobsOf(mid, out.tx);
      EvolvesParts(tx0, mid);
    }
  }

  /** The acknowledgement of one task's claim leaves another's alone. */
  lemma AckElsewhere(tx: Tx, task: Id, id: Id)
    requires task in tx.held && HeldOk(tx.held, AllJobs(tx), tx.queue.nextJob) && task != id
    requires tx.queue.Current(tx.held[task]) && tx.queue.leases.Keys <= tx.queue.jobs.Keys
    requires tx.staged.Keys !! tx.queue.jobs.Keys
    ensures JobsFor(AllJobs(tx) - {tx.held[task].job}, id) == JobsFor(AllJobs(tx), id)
    ensures HeldCurrent(tx.held - {task}, CommittedAck(tx, task).queue, id) <==> HeldCurrent(tx.held, tx.queue, id)
  {
    assert tx.held[task].job in AllJobs(tx);
    if HeldCurrent(tx.held, tx.queue, id) {
      assert tx.held[id].job in AllJobs(tx);
    }
  }

  /** A task has no job left once its held claim is acknowledged. */
  lemma AckEndsOwn(env: Env, tx: Tx, id: Id)
    requires TxInv(env, tx) && id in tx.held && tx.queue.Current(tx.held[id])
    ensures JobsFor(AllJobs(tx) - {tx.held[id].job}, id) == {}
  {
    hide DbInv;
    OneJob(env, tx, id, tx.held[id].job);
  }

  lemma AckCommitEndsJob(env: Env, tx0: Tx, out: Outcome, id: Id)
    requires Fresh(env, tx0) && HandledOk(env, tx0, out) && out.mode.CommitAck? && Released(tx0, out.tx, id)
    requires out.mode.task in out.tx.held && out.tx.queue.Current(out.tx.held[out.mode.task]) && out.mode.task != id
    requires JobsFor(AllJobs(out.tx), id) == JobsFor(tx0.queue.jobs, id)
    ensures JobsFor(Finish(CommittedAck(out.tx, out.mode.task), |out.tx.after|).queue.jobs, id) == {} <==>
              JobsFor(tx0.queue.jobs, id) == {} || HeldCurrent(tx0.held, tx0.queue, id)
  {
    hide TxInv, Evolves, AfterOk, AllJobs, JobsFor, NotStaged, Foreign, Finish, HandledOk, AftersOk, HeldOk, CommittedAck;
    var a := CommittedAck(out.tx, out.mode.task);
    AckedOk(env, tx0, out);
    NothingStaged(a);
    AckElsewhere(out.tx, out.mode.task, id);
    FinishEnds(env, a, id);
  }

  lemma FulfilEndsJob(env: Env, tx0: Tx, out: Outcome, id: Id, n: nat)
    requires Fresh(env, tx0) && FulfilSound(env, tx0, out) && out.mode.task == id
    requires out.tx.queue.Current(out.tx.held[id])
    ensures JobsFor(Finish(CommittedAck(out.tx, id), n).queue.jobs, id) == {}
  {
    hide TxInv, Evolves, AfterOk, AllJobs, JobsFor, Finish, CommittedAck, AftersOk;
    var a := CommittedAck(out.tx, id);
    FulfilCommitKeeps(env, out.tx, id);
    AckEndsOwn(env, out.tx, id);
    AckedStaged(out.tx, id);
    FinishKeeps(env, a, n);
    NothingStaged(Finish(a, n));
    FewerJobsFor(AllJobs(a), AllJobs(Finish(a, n)), id);
  }

  lemma AckedStaged(tx: Tx, id: Id)
    requires id in tx.held
    ensures CommittedAck(tx, id).staged == map[]
  {
  }

  lemma FewerJobsFor(jobs: Jobs, jobs': Jobs, id: Id)
    requires JobsShrink(jobs, jobs')
    ensures JobsFor(jobs', id) <= JobsFor(jobs, id)
  {
  }

  /** However a transaction that settles the promise of a task ends. */
  lemma ResolvedEndsJob(env: Env, tx0: Tx, out: Outcome, id: Id)
    requires Fresh(env, tx0) && HandledOk(env, tx0, out) && Closes(tx0, out.tx, id)
    requires IsOpen(tx0.db.promises, id) && id in tx0.db.tasks
    requires IsSettled(Resolve(tx0, out, NoFault).tx.db.promises, id)
    ensures JobsFor(Resolve(tx0, out, NoFault).tx.queue.jobs, id) == {} <==>
              JobsFor(tx0.queue.jobs, id) == {} || HeldCurrent(tx0.held, tx0.queue, id)
  {
    hide Fresh, Keeps, AftersOk, JobsFor, Finish, Committed, CommittedAck, NotStaged, Foreign, Abandon;
    CommittedDb(tx0, out, NoFault);
    AbandonDb(tx0, out.tx);
    match out.mode
    case Discard =>
      AbandonDb(tx0, out.tx);
      assert false;
    case Commit => CommitEndsJob(env, tx0, out.tx, id);
    case CommitAck(task) =>
      assert Resolve(tx0, out, NoFault).committed;
      assert task in out.tx.held && out.tx.queue.Current(out.tx.held[task]) by { hide FulfilSound, SuspendSound; }
      if task == id {
        OwnAckEndsJob(env, tx0, out, id);
      } else {
        AckedOk(env, tx0, out);
        StagedAlike(tx0, out.tx, id);
        AckCommitEndsJob(env, tx0, out, id);
      }
  }

  lemma AbandonDb(tx0: Tx, tx: Tx)
    ensures Abandon(tx0, tx).db == tx0.db
  {
  }

  lemma StagedAlike(tx0: Tx, tx: Tx, id: Id)
    requires NotStaged(tx.staged, id) && tx.staged.Keys !! tx.queue.jobs.Keys && tx.queue.jobs == tx0.queue.jobs
    ensures JobsFor(AllJobs(tx), id) == JobsFor(tx0.queue.jobs, id)
  {
  }

  /** A commit that acknowledges the claim of the settled task itself. */
  lemma OwnAckEndsJob(env: Env, tx0: Tx, out: Outcome, id: Id)
    requires Fresh(env, tx0) && HandledOk(env, tx0, out) && Released(tx0, out.tx, id)
    requires out.mode == CommitAck(id) && id in out.tx.held && out.tx.queue.Current(out.tx.held[id])
    ensures JobsFor(Finish(CommittedAck(out.tx, id), |out.tx.after|).queue.jobs, id) == {}
    ensures HeldCurrent(tx0.held, tx0.queue, id)
  {
    hide Fresh, AftersOk, JobsFor, Finish, CommittedAck, NotStaged, Foreign, TxInv, Evolves;
    if FulfilSound(env, tx0, out) {
      FulfilEndsJob(env, tx0, out, id, |out.tx.after|);
    }
  }

  // -------------------------------------------------------------------- deliveries

  lemma {:induction false} FinishedAfter(tx: Tx)
    ensures Finish(tx, |tx.after|).after == []
    decreases |tx.after|
  {
    hide RunAfter;
    if tx.after != [] {
      FinishedAfter(RunAfter(tx, tx.after[0]).(after := tx.after[1..]));
    }
  }

  lemma RunAfterAlike(tx: Tx, a: After, s: seq<After>)
    ensures RunAfter(tx.(after := s), a) == RunAfter(tx, a).(after := s)
  {
  }

  /** The last piece of work after a commit. */
  lemma {:induction false} FinishThen(tx: Tx, a: After)
    ensures Finish(Then(tx, a), |tx.after| + 1) == RunAfter(Finish(tx, |tx.after|), a).(after := [])
    decreases |tx.after|
  {
    hide RunAfter;
    var both := Then(tx, a);
    if tx.after == [] {
      RunAfterAlike(tx, a, [a]);
      assert both.after == [a] && both.after[1..] == [];
      assert Finish(both, 1) == Finish(RunAfter(both, a).(after := []), 0);
    } else {
      var first, rest := tx.after[0], tx.after[1..];
      var tx1 := RunAfter(tx, first).(after := rest);
      RunAfterAlike(tx, first, both.after);
      assert both.after[0] == first && both.after[1..] == rest + [a];
      FinishThen(tx1, a);
    }
  }

  lemma ReleaseKeepsClaim(env: Env, tx: Tx, task: Id, claim: Claim, id: Id)
    requires TxInv(env, tx) && tx.staged == map[] && claim.payload == Execute(id)
    requires ClaimFor(claim, tx.queue.jobs, tx.queue.nextJob, claim.payload)
    ensures tx.queue.Current(claim) ==>
              RunAfter(tx, Release(task)).queue.Current(claim) || JobsFor(RunAfter(tx, Release(task)).queue.jobs, id) == {}
    ensures RunAfter(tx, Release(task)).queue.Current(claim) ==> tx.queue.Current(claim)
  {
    hide DbInv, AllJobs;
    NothingStaged(tx);
    InvParts(env, tx);
    if task == id && HeldCurrent(tx.held, tx.queue, id) {
      ReleaseEnds(env, tx, id);
    }
  }

  /** Releases leave a current claim of the task's job current, or end the job. */
  lemma {:induction false} FinishKeepsClaim(env: Env, tx: Tx, claim: Claim, id: Id)
    requires TxInv(env, tx) && tx.staged == map[] && AftersOk(tx) && OnlyReleases(tx.after) && claim.payload == Execute(id)
    requires ClaimFor(claim, tx.queue.jobs, tx.queue.nextJob, claim.payload)
    ensures var tx' := Finish(tx, |tx.after|);
            && (tx.queue.Current(claim) ==> tx'.queue.Current(claim) || JobsFor(tx'.queue.jobs, id) == {})
            && (tx'.queue.Current(claim) ==> tx.queue.Current(claim))
    decreases |tx.after|
  {
    hide TxInv, AllJobs, AftersOk, RunAfter, JobsFor;
    if tx.after != [] {
      var a, rest := tx.after[0], tx.after[1..];
      var tx1 := RunAfter(tx, a).(after := rest);
      assert a in tx.after && forall b :: b in rest ==> b in tx.after;
      ReleaseKeepsClaim(env, tx, a.task, claim, id);
      FinishStep(env, tx);
      NothingStaged(tx);
      NothingStaged(tx1);
      FinishKeepsClaim(env, tx1, claim, id);
      FinishKeeps(env, tx1, |rest|);
      NothingStaged(Finish(tx1, |rest|));
      FewerJobsFor(tx1.queue.jobs, Finish(tx1, |rest|).queue.jobs, id);
    }
  }

  lemma AckEnds(env: Env, tx: Tx, claim: Claim, id: Id)
    requires TxInv(env, tx) && tx.staged == map[] && claim.payload == Execute(id)
    requires ClaimFor(claim, tx.queue.jobs, tx.queue.nextJob, claim.payload)
    ensures JobsFor(RunAfter(tx, AckClaim(claim)).queue.jobs, id) ==
              if tx.queue.Current(claim) then {} else JobsFor(tx.queue.jobs, id)
  {
    hide DbInv, AllJobs;
    NothingStaged(tx);
    InvParts(env, tx);
    if tx.queue.Current(claim) {
      OneJob(env, tx, id, claim.job);
    }
  }

  /** A delivery that acknowledges its claim, after the deadlines it applied. */
  lemma DroppedEndsJob(env: Env, tx0: Tx, tx1: Tx, claim: Claim, id: Id)
    requires Fresh(env, tx0) && Keeps(env, tx0, tx1) && AftersOk(tx1) && OnlyReleases(tx1.after) && claim.payload == Execute(id)
    requires ClaimFor(claim, tx0.queue.jobs, tx0.queue.nextJob, claim.payload)
    requires tx1.held == tx0.held && tx1.queue.leases == tx0.queue.leases && NotStaged(tx1.staged, id)
    ensures JobsFor(Finish(Committed(Then(tx1, AckClaim(claim))), |tx1.after| + 1).queue.jobs, id) == {} <==>
              || JobsFor(tx0.queue.jobs, id) == {} || tx0.queue.Current(claim)
              || (Release(id) in tx1.after && HeldCurrent(tx0.held, tx0.queue, id))
  {
    hide TxInv, Evolves, AfterOk, AllJobs, JobsFor, NotStaged, Finish, RunAfter;
    var a := Committed(tx1);
    CommittedKeeps(env, tx1);
    InvParts(env, tx1);
    StagedElsewhere(tx0, tx1, id);
    NothingStaged(a);
    assert Committed(Then(tx1, AckClaim(claim))) == Then(a, AckClaim(claim)) by { CommitThen(tx1, AckClaim(claim)); }
    FinishThen(a, AckClaim(claim));
    var b := Finish(a, |a.after|);
    OnlyReleasesAreForeign(tx1.after, id);
    FinishEnds(env, a, id);
    FinishKeeps(env, a, |a.after|);
    assert ClaimFor(claim, a.queue.jobs, a.queue.nextJob, claim.payload) by { ClaimStaysFor(tx0, tx1, claim); }
    FinishKeepsClaim(env, a, claim, id);
    NothingStaged(b);
    assert ClaimFor(claim, b.queue.jobs, b.queue.nextJob, claim.payload);
    AckEnds(env, b, claim, id);
  }

  lemma CommitThen(tx: Tx, a: After)
    ensures Committed(Then(tx, a)) == Then(Committed(tx), a)
  {
  }

  lemma ClaimStaysFor(tx0: Tx, tx: Tx, claim: Claim)
    requires Evolves(tx0, tx) && tx0.staged == map[] && ClaimFor(claim, tx0.queue.jobs, tx0.queue.nextJob, claim.payload)
    ensures ClaimFor(claim, AllJobs(tx), tx.queue.nextJob, claim.payload)
  {
    hide PromisesEvolve, TasksEvolve, NoSuspends, Wakes, Tells, SentGrows, Posted;
  }

  // ---------------------------------------------------------------- the theorems

  lemma HaltShape(tx: Tx, id: Id)
    requires id in tx.db.tasks && tx.db.tasks[id].id == id && !tx.db.tasks[id].state.Halted? && !tx.db.tasks[id].state.Fulfilled?
    requires id in tx.db.promises ==> !tx.db.promises[id].Due(tx.now)
    requires tx.staged == map[] && tx.after == []
    ensures HandleTaskHalt(tx, id) == Kernel.Done(HaltTask(tx, tx.db.tasks[id]), Ok(200, NoBody))
    ensures Released(tx, HaltTask(tx, tx.db.tasks[id]), id)
    ensures id in HaltTask(tx, tx.db.tasks[id]).db.tasks && HaltTask(tx, tx.db.tasks[id]).db.tasks[id].state.Halted?
  {
    NothingDue(tx, [id]);
    hide TryTimeout;
  }

  lemma HaltEnds(env: Env, tx: Tx, id: Id)
    requires env.Ok() && Fresh(env, tx) && id in tx.db.tasks && !tx.db.tasks[id].state.Halted? && !tx.db.tasks[id].state.Fulfilled?
    requires id in tx.db.promises ==> !tx.db.promises[id].Due(tx.now)
    ensures var end := Resolve(tx, HandleTaskHalt(tx, id), NoFault).tx;
            && id in end.db.tasks && end.db.tasks[id].state.Halted?
            && (JobsFor(end.queue.jobs, id) == {} <==> JobsFor(tx.queue.jobs, id) == {} || HeldCurrent(tx.held, tx.queue, id))
  {
    hide TxInv, Released, HeldCurrent, Keeps, AftersOk, HaltTask, JobsFor, HandleTaskHalt, Resolve, Committed, Finish;
    var out := Kernel.Done(HaltTask(tx, tx.db.tasks[id]), Ok(200, NoBody));
    TaskKey(env, tx, id);
    HaltShape(tx, id);
    HaltIsSound(env, tx, id);
    hide Fresh;
    CommitsWhole(tx, out);
    CommitEndsJob(env, tx, out.tx, id);
  }

  lemma HaltIsSound(env: Env, tx: Tx, id: Id)
    requires Fresh(env, tx) && HandleTaskHalt(tx, id).mode.Commit?
    ensures Keeps(env, tx, HandleTaskHalt(tx, id).tx) && AftersOk(HandleTaskHalt(tx, id).tx)
  {
    hide Fresh, Keeps, AftersOk, HandleTaskHalt;
    TaskHaltOk(env, tx, id);
  }

  /** A halt ends the job of its task exactly when the task has none or the claim of
      its job is held: a job that waits for delivery survives. */
  lemma HaltEndsJob(env: Env, w: World, id: Id)
    requires env.Ok() && WorldInv(env, w) && id in w.db.tasks && !w.db.tasks[id].state.Halted? && !w.db.tasks[id].state.Fulfilled?
    requires DeadlineAhead(w, id)
    ensures var w' := Next(env, w, Serve(TaskHalt(id), NoFault));
            && id in w'.db.tasks && w'.db.tasks[id].state.Halted?
            && (LiveJobs(w', id) == {} <==> LiveJobs(w, id) == {} || ClaimHeld(w, id))
  {
    var tx, step := Begin(w), Serve(TaskHalt(id), NoFault);
    var w' := Next(env, w, step);
    LiveJobsFor(w, id);
    LiveJobsFor(w', id);
    hide TxInv, InflightOk, AckingOk, HandleTaskHalt, LiveJobs, HeldCurrent, JobsFor, Resolve;
    HaltEnds(env, tx, id);
  }

  lemma CommitsWhole(tx0: Tx, out: Outcome)
    requires out.mode.Commit?
    ensures Resolve(tx0, out, NoFault).tx == Finish(Committed(out.tx), |out.tx.after|)
    ensures Resolve(tx0, out, NoFault).tx.db == out.tx.db
  {
    FinishDb(Committed(out.tx), |out.tx.after|);
  }

  lemma TaskKey(env: Env, tx: Tx, id: Id)
    requires TxInv(env, tx) && id in tx.db.tasks
    ensures tx.db.tasks[id].id == id
  {
    hide TxInv, TaskJobOk, CanResume;
    TaskFactsOf(env, tx, id);
  }

  /** The same of a settlement, by a request or a timer, whoever settles it. */
  lemma SettlementEndsJob(env: Env, w: World, step: Step, id: Id)
    requires env.Ok() && WorldInv(env, w) && Enabled(w, step) && (step.Serve? || step.FireTimer?)
    requires id in w.db.tasks && IsOpen(w.db.promises, id)
    requires IsSettled(Next(env, w, WithFault(step, NoFault)).db.promises, id)
    ensures var w' := Next(env, w, WithFault(step, NoFault));
            LiveJobs(w', id) == {} <==> LiveJobs(w, id) == {} || ClaimHeld(w, id)
  {
    var tx, out := Begin(w), Decided(env, w, step);
    var w' := Next(env, w, WithFault(step, NoFault));
    hide TxInv, Closes, HandledOk, LiveJobs, HeldCurrent, JobsFor, TimerDue;
    assert HandledOk(env, tx, out) && Closes(tx, out.tx, id) by { WorkCloses(env, w, step, id); }
    hide InflightOk, AckingOk, Decided, Enabled;
    WorkRecords(env, w, step, NoFault);
    WorkJobs(env, w, step);
    hide Next, WithFault, Resolve;
    ResolvedEndsJob(env, tx, out, id);
    LiveJobsFor(w, id);
    LiveJobsFor(w', id);
  }

  lemma WorkCloses(env: Env, w: World, step: Step, id: Id)
    requires env.Ok() && WorldInv(env, w) && Enabled(w, step) && (step.Serve? || step.FireTimer?)
    ensures HandledOk(env, Begin(w), Decided(env, w, step)) && Closes(Begin(w), Decided(env, w, step).tx, id)
  {
    hide TxInv, Closes, Sound, FulfilSound, SuspendSound, Handle, Fire, AckingOk, ClaimFor, TimerDue;
    if step.Serve? {
      HandleOk(env, Begin(w), step.req);
      HandleCloses(env, Begin(w), step.req, id);
    } else {
      InflightClaim(w, step.claim);
      FireOk(env, Begin(w), step.claim.payload);
      FireCloses(env, Begin(w), step.claim.payload, id);
    }
  }

  /** Failing or keeping the timer's own claim ends no job. */
  lemma WorkJobs(env: Env, w: World, step: Step)
    requires IsWork(step)
    ensures Next(env, w, WithFault(step, NoFault)).queue.jobs == Resolve(Begin(w), Decided(env, w, step), NoFault).tx.queue.jobs
  {
    hide Handle, Fire, Deliver, Resolve;
  }

  /** An accepted fulfil always ends the job: the settlement is committed in the
      acknowledgement of its claim. */
  lemma AcceptedFulfilEndsJob(env: Env, w: World, id: Id, version: int, kind: ActionKind, data: SettleData, fault: Fault)
    requires env.Ok() && WorldInv(env, w)
    requires Accepted(env, w, Serve(TaskFulfill(id, version, kind, data), fault), id, version)
    ensures LiveJobs(Next(env, w, Serve(TaskFulfill(id, version, kind, data), fault)), id) == {}
  {
    var tx, req := Begin(w), TaskFulfill(id, version, kind, data);
    var w' := Next(env, w, Serve(req, fault));
    var out := Handle(env, tx, req);
    LiveJobsFor(w', id);
    hide TxInv, InflightOk, AckingOk, LiveJobs, JobsFor, Finish, CommittedAck, Abandon, Keeps, AftersOk, HandleTaskFulfill, Quiet,
      Calm, Holds, ClaimHeld;
    FulfillShape(tx, id, version, kind, data);
    TaskFulfillOk(env, tx, id, version, kind, data);
    FulfillEndsHold(env, tx, id, version, kind, data);
    assert id in out.tx.held && out.tx.queue.Current(out.tx.held[id]);
    FulfilEndsJob(env, tx, out, id, StepsBefore(fault, out.tx));
  }

  /** What the deadline of a task's own promise decides before a delivery. */
  lemma OwnDeadline(env: Env, tx: Tx, id: Id)
    requires Fresh(env, tx) && id in tx.db.tasks
    ensures var tx1 := TryTimeout(tx, [id]);
            && NotStaged(tx1.staged, id) && OnlyReleases(tx1.after)
            && (Release(id) in tx1.after <==> IsOpen(tx.db.promises, id) && IsSettled(tx1.db.promises, id))
  {
    var tx1 := TryTimeout(tx, [id]);
    hide Fresh, TryTimeout, Calm, Evolves, TxInv, Steady, Closing, NotStaged, OnlyReleases;
    if id in tx.db.promises && tx.db.promises[id].Due(tx.now) {
      FreshIsSteady(env, tx);
      DueIsClosing(env, tx, id);
      TimeoutsClose(env, tx, [id], id);
      ClosingParts(tx1, id);
      TimeoutSound(env, tx, [id]);
      assert id in [id];
      EvolvesParts(tx, tx1);
      assert PromiseEvolves(tx.db.promises[id], tx1.db.promises[id], tx.now);
    } else {
      NothingDue(tx, [id]);
      NothingYet(env, tx, id);
    }
  }

  lemma NothingYet(env: Env, tx: Tx, id: Id)
    requires Fresh(env, tx)
    ensures NotStaged(tx.staged, id) && OnlyReleases(tx.after) && Release(id) !in tx.after
  {
    hide TxInv;
  }

  lemma DeadlineKeeps(env: Env, tx: Tx, id: Id)
    requires Fresh(env, tx)
    ensures var tx1 := TryTimeout(tx, [id]);
            && Keeps(env, tx, tx1) && AftersOk(tx1) && tx1.held == tx.held && tx1.queue.leases == tx.queue.leases
  {
    hide TxInv, TryTimeout, Calm, Evolves, Quiet, AftersOk;
    TimeoutSound(env, tx, [id]);
    QuietIsOk(TryTimeout(tx, [id]));
    CalmNow(tx, TryTimeout(tx, [id]));
  }

  lemma DeliverShape(tx: Tx, claim: Claim, id: Id)
    requires claim.payload == Execute(id)
    ensures var tx1 := TryTimeout(tx, [id]);
            && (id in tx1.db.tasks && (tx1.db.tasks[id].state.Halted? || tx1.db.tasks[id].state.Fulfilled?) ==>
                  Deliver(tx, claim) == Kernel.Done(Then(tx1, AckClaim(claim)), Ok(200, NoBody)))
            && (id in Deliver(tx, claim).tx.db.tasks ==>
                  id in tx1.db.tasks && Deliver(tx, claim).mode.Commit? &&
                  (tx1.db.tasks[id].id == id ==>
                     Deliver(tx, claim).tx.db.tasks[id].state ==
                       (if tx1.db.tasks[id].state.Acquired? then TaskState.Pending else tx1.db.tasks[id].state)))
            && Deliver(tx, claim).tx.db.promises == tx1.db.promises && Deliver(tx, claim).mode.Commit?
  {
    hide TryTimeout;
  }

  lemma DropEnds(env: Env, tx: Tx, claim: Claim, id: Id)
    requires Fresh(env, tx) && claim.payload == Execute(id) && ClaimFor(claim, tx.queue.jobs, tx.queue.nextJob, claim.payload)
    requires id in tx.db.tasks
    requires var end := Resolve(tx, Deliver(tx, claim), NoFault).tx;
             id in end.db.tasks && (end.db.tasks[id].state.Halted? || end.db.tasks[id].state.Fulfilled?)
    ensures var end := Resolve(tx, Deliver(tx, claim), NoFault).tx;
            JobsFor(end.queue.jobs, id) == {} <==>
              || JobsFor(tx.queue.jobs, id) == {} || tx.queue.Current(claim)
              || (IsOpen(tx.db.promises, id) && IsSettled(end.db.promises, id) && HeldCurrent(tx.held, tx.queue, id))
  {
    hide Fresh, TryTimeout, Deliver, Keeps, AftersOk, OnlyReleases, NotStaged, JobsFor, HeldCurrent, ClaimFor, Resolve, Finish, Committed;
    var tx1 := TryTimeout(tx, [id]);
    DeliverShape(tx, claim, id);
    CommitsWhole(tx, Deliver(tx, claim));
    OwnDeadline(env, tx, id);
    DeadlineKeeps(env, tx, id);
    TimeoutTaskKey(env, tx, id);
    DroppedEndsJob(env, tx, tx1, claim, id);
  }

  lemma TimeoutTaskKey(env: Env, tx: Tx, id: Id)
    requires Fresh(env, tx)
    ensures id in TryTimeout(tx, [id]).db.tasks ==> TryTimeout(tx, [id]).db.tasks[id].id == id
  {
    hide TxInv, TryTimeout, Calm, Evolves;
    TimeoutSound(env, tx, [id]);
    if id in TryTimeout(tx, [id]).db.tasks {
      TaskKey(env, TryTimeout(tx, [id]), id);
    }
  }

  /** A delivery that finds its task halted or fulfilled, or settles it, ends the job
      exactly when there is none, its claim is current, or it settles a task whose
      claim is held. With a current claim no job is left. */
  lemma DeliveryEndsJob(env: Env, w: World, claim: Claim, id: Id)
    requires WorldInv(env, w) && claim in w.inflight && claim.payload == Execute(id) && id in w.db.tasks
    requires var w' := Next(env, w, DeliverClaim(claim, NoFault));
             id in w'.db.tasks && (w'.db.tasks[id].state.Halted? || w'.db.tasks[id].state.Fulfilled?)
    ensures var w' := Next(env, w, DeliverClaim(claim, NoFault));
            LiveJobs(w', id) == {} <==>
              || LiveJobs(w, id) == {} || w.queue.Current(claim)
              || (IsOpen(w.db.promises, id) && IsSettled(w'.db.promises, id) && ClaimHeld(w, id))
  {
    var step := DeliverClaim(claim, NoFault);
    LiveJobsFor(w, id);
    LiveJobsFor(Next(env, w, step), id);
    WorkRecords(env, w, step, NoFault);
    WorkJobs(env, w, step);
    InflightClaim(w, claim);
    hide TxInv, InflightOk, AckingOk, Deliver, Resolve, LiveJobs, JobsFor, HeldCurrent, ClaimFor, Next;
    DropEnds(env, Begin(w), claim, id);
  }

  // ------------------------------------------------------------------ two witnesses

  lemma CreatedTaskIs(tx: Tx, data: CreateData)
    requires Target in data.tags && tx.now < data.timeoutAt && data.id !in tx.db.promises
    ensures var tx' := CreatePromise(tx, data, None, CreateDispatch);
            && data.id in tx'.db.promises && tx'.db.promises[data.id].IsPending()
            && tx'.db.promises[data.id].record.timeoutAt == data.timeoutAt
            && data.id in tx'.db.tasks && tx'.db.tasks[data.id].state.Pending?
  {
    CreateLeaves(tx, data, None, CreateDispatch);
    var r := CreatedRecord(tx.now, data, None);
    assert r.id == data.id && r.tags == data.tags && r.state.Pending? && r.timeoutAt == data.timeoutAt;
    CreatedTaskState(tx, data);
    hide CreatePromise, CreatedRecord, BranchKey;
  }

  lemma CreatedTaskState(tx: Tx, data: CreateData)
    requires Target in data.tags && tx.now < data.timeoutAt
    ensures var tx' := CreatePromise(tx, data, None, CreateDispatch);
            data.id in tx'.db.tasks && tx'.db.tasks[data.id].state.Pending?
  {
    hide CreateTask, CreateTimer, CreatedJob, StagedGrows, BranchKey;
    var r := CreatedRecord(tx.now, data, None);
    assert r.id == data.id && r.tags == data.tags && r.state.Pending?;
    hide CreatedRecord;
    PlacedIs(tx, r);
    PlacedShape(tx, r);
    hide Placed;
    CreateTaskShape(Placed(tx, r), r, CreateDispatch);
    CreateTimerShape(CreateTask(Placed(tx, r), r, CreateDispatch), r);
  }

  function NewPromise(target: string): CreateData {
    CreateData("p", 10, EMPTY, map[Target := target])
  }

  lemma NewPromiseIsValid(env: Env, target: string)
    requires env.isUrl(target)
    ensures ValidCreate(env, NewPromise(target))
  {
  }

  /** A run to a restarted store with one pending task that waits for delivery. */
  lemma WaitingTask(env: Env, target: string) returns (worlds: seq<World>, steps: seq<Step>)
    requires env.Ok() && env.isUrl(target)
    ensures IsRun(env, worlds, steps) && |worlds| == |steps| + 1
    ensures var w := worlds[|steps|];
            && WorldInv(env, w) && w.held == map[] && w.now == 0
            && "p" in w.db.tasks && w.db.tasks["p"].state.Pending? && LiveJobs(w, "p") != {}
            && "p" in w.db.promises && w.db.promises["p"].IsPending() && w.db.promises["p"].record.timeoutAt == 10
  {
    hide WorldInv, LiveJobs, Enabled, Moves, IsRun, Resolve, HandlePromiseCreate, NewPromise;
    var step := Serve(PromiseCreate(NewPromise(target)), NoFault);
    StartRun(env, 0);
    worlds, steps := [Initial(0)], [];
    InitialInv(env, 0);
    assert Enabled(worlds[0], step) && Enabled(Next(env, worlds[0], step), Restart) by { AlwaysEnabled(worlds[0], step); AlwaysEnabled(Next(env, worlds[0], step), Restart); }
    ExtendRun(env, worlds, steps, step);
    worlds, steps := worlds + [Next(env, worlds[|steps|], step)], steps + [step];
    ExtendRun(env, worlds, steps, Restart);
    worlds, steps := worlds + [Next(env, worlds[|steps|], Restart)], steps + [Restart];
    StepInv(env, worlds[0], step);
    StepInv(env, worlds[1], Restart);
    FirstPromise(env, Initial(0), target);
    WorldJobs(env, worlds[2], "p");
  }

  lemma AlwaysEnabled(w: World, step: Step)
    requires step.Serve? || step.Restart?
    ensures Enabled(w, step)
  {
  }

  lemma FirstPromise(env: Env, w: World, target: string)
    requires env.isUrl(target) && w.now == 0 && w.db == EMPTY_DB
    ensures var w' := Next(env, w, Serve(PromiseCreate(NewPromise(target)), NoFault));
            && w'.now == 0
            && "p" in w'.db.tasks && w'.db.tasks["p"].state.Pending?
            && "p" in w'.db.promises && w'.db.promises["p"].IsPending() && w'.db.promises["p"].record.timeoutAt == 10
  {
    var tx, data := Begin(w), NewPromise(target);
    NewPromiseIsValid(env, target);
    NothingDue(tx, [data.id]);
    CreatedTaskIs(tx, data);
    hide TryTimeout, CreatePromise, ValidCreate, Finish;
    CommittedDb(tx, Handle(env, tx, PromiseCreate(data)), NoFault);
  }

  /** So the job of a halted task can be live. */
  lemma HaltedTaskWithJob(env: Env, target: string) returns (worlds: seq<World>, steps: seq<Step>)
    requires env.Ok() && env.isUrl(target)
    ensures IsRun(env, worlds, steps) && |worlds| == |steps| + 1
    ensures var w := worlds[|steps|]; "p" in w.db.tasks && w.db.tasks["p"].state.Halted? && LiveJobs(w, "p") != {}
  {
    hide WorldInv, LiveJobs, Enabled, IsRun, Next;
    worlds, steps := WaitingTask(env, target);
    var w, step := worlds[|steps|], Serve(TaskHalt("p"), NoFault);
    AlwaysEnabled(w, step);
    ExtendRun(env, worlds, steps, step);
    HaltEndsJob(env, w, "p");
    worlds, steps := worlds + [Next(env, w, step)], steps + [step];
  }

  /** So can the job of a fulfilled task. */
  lemma FulfilledTaskWithJob(env: Env, target: string) returns (worlds: seq<World>, steps: seq<Step>)
    requires env.Ok() && env.isUrl(target)
    ensures IsRun(env, worlds, steps) && |worlds| == |steps| + 1
    ensures var w := worlds[|steps|]; "p" in w.db.tasks && w.db.tasks["p"].state.Fulfilled? && LiveJobs(w, "p") != {}
  {
    hide WorldInv, LiveJobs, Enabled, IsRun, Next, Moves;
    worlds, steps := WaitingTask(env, target);
    var w, step := worlds[|steps|], Serve(PromiseSettle(SettleData("p", SettleState.Resolved, EMPTY)), NoFault);
    AlwaysEnabled(w, step);
    ExtendRun(env, worlds, steps, step);
    SettledNow(env, w, "p");
    SettlementEndsJob(env, w, step, "p");
    StepInv(env, w, step);
    TaskStays(w, Next(env, w, step), "p");
    WorldAgrees(env, Next(env, w, step), "p");
    worlds, steps := worlds + [Next(env, w, step)], steps + [step];
  }

  lemma SettledNow(env: Env, w: World, id: Id)
    requires WorldInv(env, w) && IsOpen(w.db.promises, id) && DeadlineAhead(w, id)
    ensures IsSettled(Next(env, w, Serve(PromiseSettle(SettleData(id, SettleState.Resolved, EMPTY)), NoFault)).db.promises, id)
  {
    var tx, data := Begin(w), SettleData(id, SettleState.Resolved, EMPTY);
    var step := Serve(PromiseSettle(data), NoFault);
    assert tx.db.promises[id].record.id == id by { hide PromiseOk; WorldPromise(env, w, id); }
    WorkRecords(env, w, step, NoFault);
    NothingDue(tx, [id]);
    SettleShape(tx, data);
    hide TxInv, InflightOk, AckingOk, Next, HandlePromiseSettle;
    CommitsWhole(tx, HandlePromiseSettle(tx, data));
    hide Resolve, Finish, Committed;
  }

  lemma SettleShape(tx: Tx, data: SettleData)
    requires TryTimeout(tx, [data.id]) == tx && IsOpen(tx.db.promises, data.id)
    requires tx.db.promises[data.id].record.id == data.id
    ensures HandlePromiseSettle(tx, data).mode.Commit? && IsSettled(HandlePromiseSettle(tx, data).tx.db.promises, data.id)
  {
    hide TryTimeout, SettleChain;
    SettlePromises(tx, tx.db.promises[data.id].(record := tx.db.promises[data.id].record.SettledBy(data.state, data.value, tx.now)));
  }
}
