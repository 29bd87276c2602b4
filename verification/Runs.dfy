/** Every step of the store keeps the invariant, so every state of every run has
    it: under any interleaving of requests, deliveries, timers, lease expiries,
    faults and restarts. With it comes what a step does to the records, the jobs and the
    sent messages, which is what results about two states of a run are made of, and how
    a run is extended by a step. */
module Runs {
  import opened Records
  import opened Queues
  import opened Transaction
  import opened Kernel
  import opened Invariant
  import opened Steps
  import opened Operations
  import opened Handlers
  import opened Worlds
  import opened Commits

  // ------------------------------------------------------------- what a step does

  /** A suspended task that stays suspended is the same task, and no promise it
      awaits settles, unless the task's own deadline has passed. */
  ghost predicate Sleeps(db: Db, db': Db, now: int) {
    && (forall c :: c in db.tasks && c in db'.tasks && db.tasks[c].state.Suspended? && db'.tasks[c].state.Suspended? ==>
          db'.tasks[c] == db.tasks[c])
    && (forall a, c ::
          a in db.promises && a in db'.promises && db.promises[a].IsPending() && c in db.promises[a].callbacks
          && !db'.promises[a].IsPending()
          && c in db.tasks && c in db'.tasks && db.tasks[c].state.Suspended? && db'.tasks[c].state.Suspended? ==>
            c in db.promises && now >= db.promises[c].record.timeoutAt)
  }

  /** What a step does to the records: the two-state part of the invariant. */
  ghost predicate DbMoves(db: Db, sent: Sent, db': Db, sent': Sent, now: int) {
    && SentGrows(sent, sent')
    && PromisesEvolve(db.promises, db'.promises, now)
    && TasksEvolve(db.tasks, db'.tasks)
    && Sleeps(db, db', now)
    && Tells(db.promises, db'.promises, sent')
  }

  /** Job ids are never reused. */
  ghost predicate JobsFresh(jobs: Jobs, n: JobId, jobs': Jobs) {
    forall j :: j in jobs' && j < n ==> j in jobs && jobs'[j] == jobs[j]
  }

  /** Every unblock that is newly sent is a job that the step put on the queue. */
  ghost predicate Queued(sent: Sent, n: JobId, sent': Sent, jobs': Jobs) {
    forall j :: j in sent' && j !in sent ==> n <= j && j in jobs' && jobs'[j] == UnblockJob(sent'[j])
  }

  ghost predicate Moves(w: World, w': World) {
    && w.now <= w'.now && w.queue.nextJob <= w'.queue.nextJob
    && JobsFresh(w.queue.jobs, w.queue.nextJob, w'.queue.jobs)
    && Queued(w.sent, w.queue.nextJob, w'.sent, w'.queue.jobs)
    && DbMoves(w.db, w.sent, w'.db, w'.sent, w.now)
  }

  lemma SameDbMoves(db: Db, sent: Sent, now: int)
    ensures DbMoves(db, sent, db, sent, now)
  {
  }

  lemma EvolvesMoves(tx: Tx, tx': Tx)
    requires Evolves(tx, tx')
    ensures DbMoves(tx.db, tx.sent, tx'.db, tx'.sent, tx.now)
  {
    hide PromisesEvolve, TasksEvolve, Tells, SentGrows, StagedGrows;
    hide DbMoves;
    assert Sleeps(tx.db, tx'.db, tx.now);
    DbMovesOf(tx.db, tx.sent, tx'.db, tx'.sent, tx.now);
  }

  lemma DbMovesOf(db: Db, sent: Sent, db': Db, sent': Sent, now: int)
    requires SentGrows(sent, sent') && PromisesEvolve(db.promises, db'.promises, now)
    requires TasksEvolve(db.tasks, db'.tasks)
    requires Sleeps(db, db', now) && Tells(db.promises, db'.promises, sent')
    ensures DbMoves(db, sent, db', sent', now)
  {
  }

  lemma SuspendMoves(env: Env, tx: Tx, mid: Tx, id: Id)
    requires Evolves(tx, mid) && id in tx.db.tasks && id in mid.db.tasks && mid.db.tasks[id].id == id
    requires tx.db.tasks[id].state.Acquired? && mid.db.tasks[id].state.Acquired?
    ensures DbMoves(tx.db, tx.sent, SuspendTask(mid, mid.db.tasks[id]).db, mid.sent, tx.now)
  {
    hide PromisesEvolve, Tells, SentGrows, StagedGrows;
    hide DbMoves;
    var tx' := SuspendTask(mid, mid.db.tasks[id]);
    assert TasksEvolve(tx.db.tasks, tx'.db.tasks) by { hide Sleeps, Wakes; }
    assert Sleeps(tx.db, tx'.db, tx.now) by { hide TasksEvolve; }
    DbMovesOf(tx.db, tx.sent, tx'.db, tx'.sent, tx.now);
  }

  // --------------------------------------------------------------- one transaction

  /** A transaction's end: the invariant, and what happened to the records. */
  ghost predicate Ends(env: Env, tx0: Tx, tx: Tx) {
    && TxInv(env, tx) && tx.staged == map[] && tx.now == tx0.now && tx.done == tx0.done
    && tx0.queue.nextJob <= tx.queue.nextJob
    && JobsFresh(tx0.queue.jobs, tx0.queue.nextJob, tx.queue.jobs)
    && Queued(tx0.sent, tx0.queue.nextJob, tx.sent, tx.queue.jobs)
    && DbMoves(tx0.db, tx0.sent, tx.db, tx.sent, tx0.now)
  }

  lemma AbandonEnds(env: Env, tx0: Tx, tx: Tx)
    requires Fresh(env, tx0) && Keeps(env, tx0, tx)
    ensures Ends(env, tx0, Abandon(tx0, tx))
  {
    hide TxInv, DbMoves, PromisesEvolve, TasksEvolve, NoSuspends, Wakes, Tells, SentGrows, StagedGrows;
    AbandonKeeps(env, tx0, tx);
    SameDbMoves(tx0.db, tx0.sent, tx0.now);
  }

  lemma FreshJobs(tx0: Tx, tx: Tx, jobs: Jobs)
    requires tx0.staged == map[] && Evolves(tx0, tx) && JobsShrink(AllJobs(tx), jobs)
    ensures JobsFresh(tx0.queue.jobs, tx0.queue.nextJob, jobs)
  {
    hide PromisesEvolve, TasksEvolve, NoSuspends, Wakes, Tells, SentGrows;
  }

  lemma ShrinkTransitive(a: Jobs, b: Jobs, c: Jobs)
    requires JobsShrink(a, b) && JobsShrink(b, c)
    ensures JobsShrink(a, c)
  {
  }

  /** The unblocks a transaction sends. */
  function NewlySent(tx0: Tx, tx: Tx): set<JobId> {
    set j | j in tx.sent && j !in tx0.sent
  }

  lemma NewlySentAreStaged(tx0: Tx, tx: Tx)
    requires Evolves(tx0, tx) && AftersOk(tx)
    ensures forall j :: j in NewlySent(tx0, tx) ==>
              tx0.queue.nextJob <= j && j in tx.staged && tx.staged[j] == UnblockJob(tx.sent[j])
    ensures Spares(AllJobs(tx), tx.after, NewlySent(tx0, tx))
  {
    hide AfterOk, PromisesEvolve, TasksEvolve, NoSuspends, Wakes, Tells, SentGrows, StagedGrows;
  }

  /** What was sent is queued when the work after the commit is done. */
  lemma FinishQueues(env: Env, tx0: Tx, tx: Tx, a: Tx, n: nat)
    requires Evolves(tx0, tx) && AftersOk(tx)
    requires TxInv(env, a) && AftersOk(a) && a.staged == map[] && a.sent == tx.sent && a.after == tx.after
    requires forall j :: j in NewlySent(tx0, tx) ==> j in AllJobs(a)
    requires JobsShrink(AllJobs(tx), AllJobs(a))
    ensures Queued(tx0.sent, tx0.queue.nextJob, Finish(a, n).sent, Finish(a, n).queue.jobs)
  {
    hide TxInv, Evolves, AfterOk, AllJobs, Finish, AftersOk;
    NewlySentAreStaged(tx0, tx);
    NothingStaged(a);
    StagedIsAll(tx);
    FinishSpares(env, a, n, NewlySent(tx0, tx));
    FinishKeeps(env, a, n);
    NothingStaged(Finish(a, n));
  }

  lemma StagedIsAll(tx: Tx)
    ensures forall j :: j in tx.staged ==> j in AllJobs(tx) && AllJobs(tx)[j] == tx.staged[j]
  {
  }

  lemma NewlySentSurviveAck(tx0: Tx, tx: Tx, id: Id)
    requires Evolves(tx0, tx) && AftersOk(tx) && id in tx.held && HeldOk(tx.held, AllJobs(tx), tx.queue.nextJob)
    ensures forall j :: j in NewlySent(tx0, tx) ==> j in AllJobs(tx) - {tx.held[id].job}
  {
    hide Evolves, AftersOk, AllJobs;
    NewlySentAreStaged(tx0, tx);
    StagedIsAll(tx);
  }

  lemma CommitEnds(env: Env, tx0: Tx, tx: Tx, n: nat)
    requires Fresh(env, tx0) && Keeps(env, tx0, tx) && AftersOk(tx)
    ensures Ends(env, tx0, Finish(Committed(tx), n))
  {
    hide TxInv, DbMoves, Evolves, AfterOk, AllJobs;
    CommittedKeeps(env, tx);
    var a := Committed(tx);
    FinishKeeps(env, a, n);
    NothingStaged(Finish(a, n));
    FreshJobs(tx0, tx, Finish(a, n).queue.jobs);
    EvolvesMoves(tx0, tx);
    EvolvesParts(tx0, tx);
    NewlySentAreStaged(tx0, tx) by { hide AftersOk; }
    StagedIsAll(tx);
    FinishQueues(env, tx0, tx, a, n);
  }

  lemma FulfilEnds(env: Env, tx0: Tx, out: Outcome, n: nat)
    requires Fresh(env, tx0) && FulfilSound(env, tx0, out) && out.tx.queue.Current(out.tx.held[out.mode.task])
    ensures Ends(env, tx0, Finish(CommittedAck(out.tx, out.mode.task), n))
  {
    hide TxInv, DbMoves, Evolves, AfterOk, AllJobs;
    var id := out.mode.task;
    FulfilCommitKeeps(env, out.tx, id);
    var a := CommittedAck(out.tx, id);
    FinishKeeps(env, a, n);
    NothingStaged(Finish(a, n));
    ShrinkTransitive(AllJobs(out.tx), AllJobs(a), AllJobs(Finish(a, n)));
    FreshJobs(tx0, out.tx, Finish(a, n).queue.jobs);
    EvolvesMoves(tx0, out.tx);
    EvolvesParts(tx0, out.tx);
    InvHeld(env, out.tx);
    NewlySentSurviveAck(tx0, out.tx, id);
    FinishQueues(env, tx0, out.tx, a, n);
  }

  lemma SuspendEnds(env: Env, tx0: Tx, mid: Tx, out: Outcome, n: nat)
    requires Fresh(env, tx0) && SuspendSound(env, tx0, mid, out) && mid.queue.Current(mid.held[out.mode.task])
    ensures Ends(env, tx0, Finish(CommittedAck(out.tx, out.mode.task), n))
  {
    hide TxInv, DbMoves, Evolves, AfterOk, AllJobs, Quiet;
    var id := out.mode.task;
    SuspendCommitKeeps(env, mid, id);
    var a := CommittedAck(out.tx, id);
    FinishKeeps(env, a, n);
    NothingStaged(Finish(a, n));
    ShrinkTransitive(AllJobs(mid), AllJobs(a), AllJobs(Finish(a, n)));
    FreshJobs(tx0, mid, Finish(a, n).queue.jobs);
    assert mid.db.tasks[id].id == id by { TaskFactsOf(env, mid, id); }
    SuspendMoves(env, tx0, mid, id);
    EvolvesParts(tx0, mid);
    QuietIsOk(mid);
    InvHeld(env, mid);
    NewlySentSurviveAck(tx0, mid, id);
    FinishQueues(env, tx0, mid, a, n);
  }

  /** A drop of the held claim while abandoning. */
  lemma AbandonDropEnds(env: Env, tx0: Tx, tx: Tx, id: Id)
    requires Fresh(env, tx0) && Keeps(env, tx0, tx)
    ensures Ends(env, tx0, Abandon(tx0, tx.(held := tx.held - {id})))
  {
    hide DbInv, HeldOk, Evolves, AllJobs;
    var tx' := tx.(held := tx.held - {id});
    AllJobsOf(tx, tx');
    HeldFewer(tx.held, AllJobs(tx), tx.queue.nextJob, id);
    EvolvesHeld(tx0, tx, tx.held - {id});
    AbandonEnds(env, tx0, tx');
  }

  lemma EvolvesHeld(tx0: Tx, tx: Tx, held: map<Id, Claim>)
    requires Evolves(tx0, tx)
    ensures Evolves(tx0, tx.(held := held))
  {
    hide PromisesEvolve, TasksEvolve, NoSuspends, Wakes, Tells, SentGrows, StagedGrows;
  }

  /** Whatever a handler decided and wherever a fault stopped it. */
  lemma ResolveEnds(env: Env, tx0: Tx, out: Outcome, fault: Fault)
    requires Fresh(env, tx0) && HandledOk(env, tx0, out)
    ensures Ends(env, tx0, Resolve(tx0, out, fault).tx)
  {
    hide Fresh, Ends, Keeps, AftersOk, Quiet;
    match out.mode
    case Discard => AbandonEnds(env, tx0, out.tx);
    case Commit =>
      AbandonEnds(env, tx0, out.tx);
      CommitEnds(env, tx0, out.tx, StepsBefore(fault, out.tx));
    case CommitAck(id) =>
      if FulfilSound(env, tx0, out) {
        AbandonEnds(env, tx0, out.tx);
        AbandonDropEnds(env, tx0, out.tx, id);
        if out.tx.queue.Current(out.tx.held[id]) {
          FulfilEnds(env, tx0, out, StepsBefore(fault, out.tx));
        }
      } else {
        var mid :| SuspendSound(env, tx0, mid, out);
        AbandonEnds(env, tx0, mid);
        AbandonDropEnds(env, tx0, mid, id);
        assert Abandon(tx0, out.tx) == Abandon(tx0, mid);
        if mid.queue.Current(mid.held[id]) {
          SuspendEnds(env, tx0, mid, out, StepsBefore(fault, out.tx));
        }
      }
  }

  // ------------------------------------------------------------------- the store

  /** A claim in flight is a claim of its job, and a timer in flight is due. */
  ghost predicate InflightOk(w: World) {
    forall c :: c in w.inflight ==>
      && ClaimFor(c, w.queue.jobs, w.queue.nextJob, c.payload)
      && (IsTimer(c.payload) ==> TimerDue(w.db, c.payload, w.now))
  }

  ghost predicate AckingOk(w: World) {
    forall c :: c in w.acking ==> ClaimFor(c, w.queue.jobs, w.queue.nextJob, c.payload) && IsTimer(c.payload)
  }

  /** The invariant of the store. */
  ghost predicate WorldInv(env: Env, w: World) {
    TxInv(env, Begin(w)) && InflightOk(w) && AckingOk(w)
  }

  lemma DueStays(db: Db, db': Db, timer: Payload, now: int, now': int)
    requires TimerDue(db, timer, now) && now <= now' && PromisesEvolve(db.promises, db'.promises, now)
    ensures TimerDue(db', timer, now')
  {
    if timer.PromiseTimeout? {
      assert PromiseEvolves(db.promises[timer.promiseId], db'.promises[timer.promiseId], now);
    }
  }

  lemma ClaimsStay(w: World, w': World)
    requires InflightOk(w) && AckingOk(w) && Moves(w, w')
    requires w'.inflight <= w.inflight && w'.acking <= w.acking + w.inflight
    requires forall c :: c in w'.acking ==> IsTimer(c.payload)
    ensures InflightOk(w') && AckingOk(w')
  {
    hide PromisesEvolve, TasksEvolve, Tells, SentGrows, Sleeps, TimerDue;
    forall c | c in w'.inflight
      ensures ClaimFor(c, w'.queue.jobs, w'.queue.nextJob, c.payload)
      ensures IsTimer(c.payload) ==> TimerDue(w'.db, c.payload, w'.now)
    {
      assert c in w.inflight;
      if IsTimer(c.payload) {
        DueStays(w.db, w'.db, c.payload, w.now, w'.now);
      }
    }
  }

  lemma EndInv(env: Env, w: World, tx: Tx)
    requires WorldInv(env, w) && Ends(env, Begin(w), tx)
    ensures TxInv(env, Begin(End(w, tx))) && Moves(w, End(w, tx))
  {
    hide TxInv, InflightOk, AckingOk, DbMoves, JobsFresh;
    DropAfterKeeps(env, tx, []);
    assert Begin(End(w, tx)) == tx.(after := []);
  }

  lemma ServeInv(env: Env, w: World, req: Request, fault: Fault)
    requires env.Ok() && WorldInv(env, w)
    ensures var w' := Next(env, w, Serve(req, fault)); WorldInv(env, w') && Moves(w, w')
  {
    hide TxInv, HandledOk, Ends, Moves, InflightOk, AckingOk, Handle;
    HandleOk(env, Begin(w), req);
    ResolveEnds(env, Begin(w), Handle(env, Begin(w), req), fault);
    EndInv(env, w, Served(env, w, req, fault).tx);
    ClaimsStay(w, End(w, Served(env, w, req, fault).tx)) by { AckingAreTimers(w); }
  }

  lemma AckingAreTimers(w: World)
    requires AckingOk(w)
    ensures forall c :: c in w.acking ==> IsTimer(c.payload)
  {
  }

  lemma DeliverInv(env: Env, w: World, claim: Claim, fault: Fault)
    requires WorldInv(env, w) && claim in w.inflight && !IsTimer(claim.payload)
    ensures var w' := Next(env, w, DeliverClaim(claim, fault)); WorldInv(env, w') && Moves(w, w')
  {
    hide TxInv, Ends, Deliver, Sound, AckingOk, InflightOk, ClaimFor;
    var tx := Begin(w);
    NothingStaged(tx);
    assert ClaimFor(claim, w.queue.jobs, w.queue.nextJob, claim.payload) by { InflightClaim(w, claim); }
    DeliverOk(env, tx, claim);
    ResolveEnds(env, tx, Deliver(tx, claim), fault);
    var w1 := End(w, Delivered(w, claim, fault).tx);
    EndInv(env, w, Delivered(w, claim, fault).tx);
    var w' := Next(env, w, DeliverClaim(claim, fault));
    assert Begin(w') == Begin(w1);
    AckingAreTimers(w);
    ClaimsStay(w, w') by { hide DbMoves, JobsFresh; }
  }

  lemma InflightClaim(w: World, claim: Claim)
    requires InflightOk(w) && claim in w.inflight
    ensures ClaimFor(claim, w.queue.jobs, w.queue.nextJob, claim.payload)
    ensures IsTimer(claim.payload) ==> TimerDue(w.db, claim.payload, w.now)
  {
  }

  /** The job of an applied timer has nothing more to do. */
  ghost predicate Harmless(env: Env, db: Db, timer: Payload) {
    match timer
    case PromiseTimeout(id) => id in db.promises && !db.promises[id].IsPending()
    case ScheduleFire(id, at) => id in db.schedules && db.schedules[id].nextRunAt == at ==> Exhausted(env, db.schedules[id])
    case _ => false
  }

  lemma DoneTimers(env: Env, db: Db, jobs: Jobs, done: set<JobId>, j: JobId, timer: Payload, now: int)
    requires TimersOk(db.promises, jobs, done) && SchedulesOk(env, db.schedules, jobs, done, now)
    requires Harmless(env, db, timer) && (j in jobs ==> jobs[j].payload == timer)
    ensures TimersOk(db.promises, jobs, done + {j}) && SchedulesOk(env, db.schedules, jobs, done + {j}, now)
  {
    hide ScheduleOk;
    forall id | id in db.promises && db.promises[id].IsPending() && db.promises[id].record.IsExternal()
      ensures HasTimer(jobs, done + {j}, PromiseTimeout(id))
    {
      assert HasTimer(jobs, done, PromiseTimeout(id));
      var k :| k in jobs && k !in done && jobs[k].payload == PromiseTimeout(id);
      assert k !in done + {j};
    }
    forall id | id in db.schedules && !Exhausted(env, db.schedules[id])
      ensures HasTimer(jobs, done + {j}, ScheduleFire(id, db.schedules[id].nextRunAt))
    {
      assert HasTimer(jobs, done, ScheduleFire(id, db.schedules[id].nextRunAt));
      var k :| k in jobs && k !in done && jobs[k].payload == ScheduleFire(id, db.schedules[id].nextRunAt);
      assert k !in done + {j};
    }
  }

  lemma DoneMore(env: Env, tx: Tx, claim: Claim)
    requires TxInv(env, tx) && tx.staged == map[] && ClaimFor(claim, tx.queue.jobs, tx.queue.nextJob, claim.payload)
    requires Harmless(env, tx.db, claim.payload)
    ensures TxInv(env, tx.(done := tx.done + {claim.job}))
  {
    hide Keyed, Agree, PromisesOk, CallbacksOk, ResumesOk, JobsOk, TimersOk, SchedulesOk, IndexOk, SentOk, HeldOk,
      AllJobs, Harmless;
    AllJobsOf(tx, tx.(done := tx.done + {claim.job}));
    NothingStaged(tx);
    DoneTimers(env, tx.db, AllJobs(tx), tx.done, claim.job, claim.payload, tx.now);
  }

  /** An applied timer is harmless. */
  lemma FireIsHarmless(env: Env, tx: Tx, timer: Payload)
    requires Fresh(env, tx) && env.Ok() && TimerDue(tx.db, timer, tx.now)
    ensures Harmless(env, Fire(env, tx, timer).tx.db, timer)
  {
    hide TxInv, Evolves, Quiet, ExpirePromise, FireSchedule, FiredPromiseId, CreatedRecord;
    NoAfter(tx);
    match timer {
      case PromiseTimeout(id) =>
        if tx.db.promises[id].IsPending() {
          ExpireKeeps(env, tx, id);
        }
      case ScheduleFire(id, at) =>
        if id in tx.db.schedules && tx.db.schedules[id].nextRunAt == at {
          FireScheduleKeeps(env, tx, id);
          PromiseAdvance(env, tx.db.schedules[id]);
        }
    }
  }

  lemma PromiseAdvance(env: Env, s: ScheduleRecord)
    requires env.Ok()
    ensures Advance(env, s).nextRunAt == s.nextRunAt ==> Exhausted(env, Advance(env, s))
  {
  }

  lemma FiredDb(env: Env, tx0: Tx, out: Outcome)
    requires !out.mode.CommitAck? && (out.mode.Discard? ==> out.tx.db == tx0.db)
    ensures Resolve(tx0, out, NoFault).tx.db == out.tx.db
  {
    FinishDb(Committed(out.tx), StepsBefore(NoFault, out.tx));
  }

  lemma {:induction false} FinishDb(tx: Tx, n: nat)
    ensures Finish(tx, n).db == tx.db && Finish(tx, n).sent == tx.sent
    decreases n
  {
    if n != 0 && tx.after != [] {
      FinishDb(RunAfter(tx, tx.after[0]).(after := tx.after[1..]), n - 1);
    }
  }

  lemma FireDiscards(env: Env, tx: Tx, timer: Payload)
    ensures Fire(env, tx, timer).mode.Discard? ==> Fire(env, tx, timer).tx == tx
  {
  }

  lemma FireInv(env: Env, w: World, claim: Claim, fault: Fault)
    requires env.Ok() && WorldInv(env, w) && claim in w.inflight && IsTimer(claim.payload)
    ensures var w' := Next(env, w, FireTimer(claim, fault)); WorldInv(env, w') && Moves(w, w')
  {
    hide TxInv, Ends, Fire, Sound, AckingOk, InflightOk, ClaimFor, Harmless, TimerDue, DbMoves;
    var tx := Begin(w);
    InflightClaim(w, claim);
    FireOk(env, tx, claim.payload);
    var out := Fire(env, tx, claim.payload);
    ResolveEnds(env, tx, out, fault);
    var res := Fired(env, w, claim, fault).tx;
    EndInv(env, w, res);
    var w1 := End(w, res);
    var w' := Next(env, w, FireTimer(claim, fault));
    AckingAreTimers(w);
    if fault.NoFault? {
      FireIsHarmless(env, tx, claim.payload);
      FireDiscards(env, tx, claim.payload);
      FiredDb(env, tx, out);
      assert ClaimFor(claim, w1.queue.jobs, w1.queue.nextJob, claim.payload) by { ClaimStaysIn(w, w1, claim); }
      DoneMore(env, Begin(w1), claim);
      assert DoneJobs(w'.acking) == DoneJobs(w.acking) + {claim.job} by { DoneJobsAdd(w.acking, claim); }
      assert Begin(w') == Begin(w1).(done := Begin(w1).done + {claim.job});
    } else {
      NackKeeps(env, Begin(w1), claim);
      assert Begin(w') == Begin(w1).(queue := w1.queue.Nack(claim));
    }
    ClaimsStay(w, w') by { hide JobsFresh; }
  }

  lemma DoneJobsAdd(acking: set<Claim>, claim: Claim)
    ensures DoneJobs(acking + {claim}) == DoneJobs(acking) + {claim.job}
  {
    assert forall c :: c in acking ==> c in acking + {claim};
    assert claim in acking + {claim};
  }

  lemma ClaimStaysIn(w: World, w': World, claim: Claim)
    requires Moves(w, w') && ClaimFor(claim, w.queue.jobs, w.queue.nextJob, claim.payload)
    ensures ClaimFor(claim, w'.queue.jobs, w'.queue.nextJob, claim.payload)
  {
    hide DbMoves;
  }

  lemma TakeInv(env: Env, w: World, job: JobId, lease: int)
    requires WorldInv(env, w) && Enabled(w, TakeClaim(job, lease))
    ensures var w' := Next(env, w, TakeClaim(job, lease)); WorldInv(env, w') && Moves(w, w')
  {
    hide DbInv, HeldOk;
    var w' := Next(env, w, TakeClaim(job, lease));
    AllJobsOf(Begin(w), Begin(w'));
    SameDbMoves(w.db, w.sent, w.now);
    hide DbMoves;
    assert IsTimer(w.queue.jobs[job].payload) ==> TimerDue(w.db, w.queue.jobs[job].payload, w.now) by {
      DueJob(env, w, job);
    }
    assert w.queue.jobs[job].payload == w.queue.ClaimOf(job).payload;
    assert job < w.queue.nextJob by { BoundedJob(env, w, job); }
  }

  lemma BoundedJob(env: Env, w: World, job: JobId)
    requires TxInv(env, Begin(w)) && job in w.queue.jobs
    ensures job < w.queue.nextJob
  {
    hide Keyed, Agree, PromisesOk, CallbacksOk, ResumesOk, TimersOk, SchedulesOk, IndexOk, SentOk, HeldOk;
    assert job in AllJobs(Begin(w));
  }

  /** A job is never taken before it is due, so no timer is early. */
  lemma DueJob(env: Env, w: World, job: JobId)
    requires TxInv(env, Begin(w)) && job in w.queue.jobs && w.queue.jobs[job].due <= w.now
    ensures IsTimer(w.queue.jobs[job].payload) ==> TimerDue(w.db, w.queue.jobs[job].payload, w.now)
  {
    hide Keyed, Agree, PromisesOk, CallbacksOk, ResumesOk, JobsOk, SchedulesOk, IndexOk, SentOk, HeldOk, HasTimer;
    assert job in AllJobs(Begin(w)) && AllJobs(Begin(w))[job] == w.queue.jobs[job];
  }

  lemma AckTimerJobs(env: Env, db: Db, jobs: Jobs, n: JobId, done: set<JobId>, done': set<JobId>, sent: Sent,
                     held: map<Id, Claim>, now: int, j: JobId)
    requires DbInv(env, db, jobs, n, sent, done, now) && HeldOk(held, jobs, n)
    requires j in done && done' <= done && (j in jobs ==> IsTimer(jobs[j].payload))
    ensures DbInv(env, db, jobs - {j}, n, sent, done', now) && HeldOk(held, jobs - {j}, n)
    ensures DbInv(env, db, jobs, n, sent, done', now)
  {
    hide Keyed, Agree, PromisesOk, CallbacksOk, ResumesOk, JobsOk, TimersOk, SchedulesOk, IndexOk, SentOk, HeldOk;
    RemoveJobTasks(db.tasks, jobs, n, j) by { KeyedById(db.promises, db.tasks); }
    RemoveJobRest(db.promises, held, jobs, n, sent, j);
    FewerDone(env, db, jobs, jobs - {j}, done, done', now);
    FewerDone(env, db, jobs, jobs, done, done', now);
  }

  lemma FewerDone(env: Env, db: Db, jobs: Jobs, jobs': Jobs, done: set<JobId>, done': set<JobId>, now: int)
    requires TimersOk(db.promises, jobs, done) && SchedulesOk(env, db.schedules, jobs, done, now) && done' <= done
    requires JobsShrink(jobs, jobs') && forall j :: j in jobs && j !in done ==> j in jobs'
    ensures TimersOk(db.promises, jobs', done') && SchedulesOk(env, db.schedules, jobs', done', now)
  {
    hide ScheduleOk, Exhausted;
    forall timer | HasTimer(jobs, done, timer) ensures HasTimer(jobs', done', timer) {
      var k :| k in jobs && k !in done && jobs[k].payload == timer;
      assert k in jobs' && k !in done' && jobs'[k].payload == timer;
    }
    hide HasTimer;
  }

  lemma AckTimerInv(env: Env, w: World, claim: Claim)
    requires WorldInv(env, w) && claim in w.acking
    ensures var w' := Next(env, w, AckTimer(claim)); WorldInv(env, w') && Moves(w, w')
  {
    hide DbInv, HeldOk;
    var w' := Next(env, w, AckTimer(claim));
    SameDbMoves(w.db, w.sent, w.now);
    hide DbMoves;
    NothingStaged(Begin(w));
    NothingStaged(Begin(w'));
    hide AllJobs;
    assert claim.job in DoneJobs(w.acking);
    assert DoneJobs(w'.acking) <= DoneJobs(w.acking);
    AckTimerJobs(env, w.db, w.queue.jobs, w.queue.nextJob, DoneJobs(w.acking), DoneJobs(w'.acking), w.sent, w.held, w.now, claim.job);
    hide DoneJobs;
  }

  lemma LeasesInv(env: Env, w: World, w': World)
    requires WorldInv(env, w) && w'.inflight <= w.inflight && w'.acking <= w.acking && w.now <= w'.now
    requires w' == w.(now := w'.now, held := w'.held, inflight := w'.inflight, acking := w'.acking, queue := w.queue.(leases := w'.queue.leases))
    requires w'.queue.leases.Keys <= w.queue.leases.Keys && (w'.held == w.held || w'.held == map[])
    ensures WorldInv(env, w') && Moves(w, w')
  {
    hide Keyed, Agree, PromisesOk, CallbacksOk, ResumesOk, JobsOk, TimersOk, SchedulesOk, IndexOk, SentOk,
      AllJobs, InflightOk, AckingOk;
    AllJobsOf(Begin(w), Begin(w'));
    SameDbMoves(w.db, w.sent, w.now);
    hide DbMoves;
    LaterIsOk(env, w.db, AllJobs(Begin(w)), DoneJobs(w.acking), w.now, w'.now);
    assert DoneJobs(w'.acking) <= DoneJobs(w.acking);
    FewerDone(env, w.db, AllJobs(Begin(w)), AllJobs(Begin(w)), DoneJobs(w.acking), DoneJobs(w'.acking), w'.now);
    AckingAreTimers(w);
    ClaimsStay(w, w');
  }

  lemma LaterIsOk(env: Env, db: Db, jobs: Jobs, done: set<JobId>, now: int, now': int)
    requires PromisesOk(db.promises, now) && SchedulesOk(env, db.schedules, jobs, done, now) && now <= now'
    ensures PromisesOk(db.promises, now') && SchedulesOk(env, db.schedules, jobs, done, now')
  {
    hide HasTimer, Exhausted, Distinct;
    forall id | id in db.promises ensures PromiseOk(db.promises[id], now') {
      assert PromiseOk(db.promises[id], now);
    }
  }

  /** Every step keeps the invariant of the store. */
  lemma StepInv(env: Env, w: World, step: Step)
    requires env.Ok() && WorldInv(env, w) && Enabled(w, step)
    ensures WorldInv(env, Next(env, w, step)) && Moves(w, Next(env, w, step))
  {
    hide WorldInv, Moves;
    match step
    case Serve(req, fault) => ServeInv(env, w, req, fault);
    case TakeClaim(job, lease) => TakeInv(env, w, job, lease);
    case DeliverClaim(claim, fault) => DeliverInv(env, w, claim, fault);
    case FireTimer(claim, fault) => FireInv(env, w, claim, fault);
    case AckTimer(claim) => AckTimerInv(env, w, claim);
    case GiveBack(claim) => LeasesInv(env, w, Next(env, w, step));
    case Reap(job) => LeasesInv(env, w, Next(env, w, step));
    case Tick(to) => LeasesInv(env, w, Next(env, w, step));
    case Restart => LeasesInv(env, w, Next(env, w, step));
  }

  lemma InitialInv(env: Env, now: int)
    ensures WorldInv(env, Initial(now))
  {
  }

  /** Every state of every run has the invariant. */
  lemma {:induction false} RunInv(env: Env, worlds: seq<World>, steps: seq<Step>, i: nat)
    requires env.Ok() && IsRun(env, worlds, steps) && i < |worlds|
    ensures WorldInv(env, worlds[i])
    ensures i < |steps| ==> Moves(worlds[i], worlds[i + 1])
    decreases i
  {
    hide WorldInv, Moves, Next, Enabled;
    if i == 0 {
      var now :| worlds[0] == Initial(now);
      InitialInv(env, now);
    } else {
      RunInv(env, worlds, steps, i - 1);
      StepInv(env, worlds[i - 1], steps[i - 1]);
    }
    if i < |steps| {
      StepInv(env, worlds[i], steps[i]);
    }
  }

  /** A run goes on with any step that is possible where it ends. */
  lemma ExtendRun(env: Env, worlds: seq<World>, steps: seq<Step>, step: Step)
    requires IsRun(env, worlds, steps) && Enabled(worlds[|steps|], step)
    ensures IsRun(env, worlds + [Next(env, worlds[|steps|], step)], steps + [step])
  {
    hide Next, Enabled;
    var worlds', steps' := worlds + [Next(env, worlds[|steps|], step)], steps + [step];
    assert worlds'[0] == worlds[0];
    forall i | 0 <= i < |steps'| ensures Enabled(worlds'[i], steps'[i]) && worlds'[i + 1] == Next(env, worlds'[i], steps'[i]) {
      if i < |steps| {
        assert worlds'[i + 1] == worlds[i + 1];
      }
    }
  }

  lemma StartRun(env: Env, now: int)
    ensures IsRun(env, [Initial(now)], [])
  {
  }
}
