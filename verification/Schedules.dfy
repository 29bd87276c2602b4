/** Schedules fire at the successive times of their cron expression, without
    gaps, whatever late, repeated or redelivered timers occur. */
module Schedules {
  import opened Records
  import opened Reference
  import opened Queues
  import opened Transaction
  import opened Text
  import opened Kernel
  import opened Invariant
  import opened Steps
  import opened Operations
  import opened Frames
  import opened Handlers
  import opened Worlds
  import opened Commits
  import opened Runs
  import opened Theorems

  // -------------------------------------------------------------------- one step

  /** Schedule `id` fires in this step, at its next time, which has come: its
      promise exists afterwards and the schedule is advanced by one firing. */
  ghost predicate Fires(env: Env, w: World, step: Step, w': World, id: Id)
    requires id in w.db.schedules && id in w'.db.schedules
  {
    var s := w.db.schedules[id];
    && step.FireTimer? && step.claim.payload == ScheduleFire(id, s.nextRunAt)
    && s.nextRunAt <= w.now
    && w'.db.schedules[id] == Advance(env, s)
    && FiredPromiseId(s) in w'.db.promises
    && (FiredPromiseId(s) !in w.db.promises ==>
          w'.db.promises[FiredPromiseId(s)].record == FiredRecord(s, FiredPromiseId(s), w.now))
  }

  /** A schedule that survives a step is unchanged by it, or fires in it. A new one
      has not fired. */
  ghost predicate ScheduleMoves(env: Env, w: World, step: Step, w': World, id: Id) {
    id in w'.db.schedules ==>
      if id in w.db.schedules then w'.db.schedules[id] == w.db.schedules[id] || Fires(env, w, step, w', id)
      else w'.db.schedules[id].lastRunAt == None
  }

  lemma ServeMovesSchedule(env: Env, w: World, req: Request, fault: Fault, id: Id)
    ensures ScheduleMoves(env, w, Serve(req, fault), Next(env, w, Serve(req, fault)), id)
  {
    hide Handle, Resolve, Fires;
    HandleLeaves(env, Begin(w), req);
    CommittedDb(Begin(w), Handle(env, Begin(w), req), fault);
  }

  lemma DeliverMovesSchedule(env: Env, w: World, claim: Claim, fault: Fault, id: Id)
    ensures ScheduleMoves(env, w, DeliverClaim(claim, fault), Next(env, w, DeliverClaim(claim, fault)), id)
  {
    hide Deliver, Resolve, Fires;
    DeliveriesLeave(Begin(w), claim);
    CommittedDb(Begin(w), Deliver(Begin(w), claim), fault);
  }

  lemma FireTimerLeaves(env: Env, tx: Tx, timer: Payload, id: Id)
    requires !timer.ScheduleFire? || timer.scheduleId != id || id !in tx.db.schedules
    requires timer.ScheduleFire? && timer.scheduleId in tx.db.schedules ==>
               tx.db.schedules[timer.scheduleId].id == timer.scheduleId
    ensures id in tx.db.schedules <==> id in Fire(env, tx, timer).tx.db.schedules
    ensures id in tx.db.schedules ==> Fire(env, tx, timer).tx.db.schedules[id] == tx.db.schedules[id]
  {
    hide SettleChain, CreatePromise, FiredPromiseId, FiredData;
    if timer.PromiseTimeout? && timer.promiseId in tx.db.promises {
      var p := tx.db.promises[timer.promiseId];
      SettlementLeaves(tx, p.(record := p.record.Expired()));
    } else if timer.ScheduleFire? && timer.scheduleId in tx.db.schedules {
      var s := tx.db.schedules[timer.scheduleId];
      CreateLeaves(tx, FiredData(s), Some(s.nextRunAt), CreateDispatch);
      FireScheduleTouches(env, tx, s);
    }
  }

  lemma FireScheduleTouches(env: Env, tx: Tx, s: ScheduleRecord)
    ensures FireSchedule(env, tx, s).db.schedules == tx.db.schedules[s.id := Advance(env, s)]
  {
    assert Advance(env, s).id == s.id;
    hide CreatePromise, FiredPromiseId, FiredData, Advance;
    CreateLeaves(tx, FiredData(s), Some(s.nextRunAt), CreateDispatch);
  }

  lemma FireMovesSchedule(env: Env, w: World, claim: Claim, fault: Fault, id: Id)
    requires env.Ok() && WorldInv(env, w) && claim in w.inflight && IsTimer(claim.payload)
    ensures ScheduleMoves(env, w, FireTimer(claim, fault), Next(env, w, FireTimer(claim, fault)), id)
  {
    hide TxInv, AckingOk, InflightOk, ClaimFor, Fire, Resolve, Fires;
    var tx := Begin(w);
    InflightClaim(w, claim);
    CommittedDb(tx, Fire(env, tx, claim.payload), fault);
    if claim.payload.ScheduleFire? && claim.payload.scheduleId == id && id in w.db.schedules {
      FireOwnMovesSchedule(env, w, claim, fault, id);
    } else {
      if claim.payload.ScheduleFire? && claim.payload.scheduleId in w.db.schedules {
        ScheduleKey(env, w, claim.payload.scheduleId);
      }
      FireTimerLeaves(env, tx, claim.payload, id);
    }
  }

  lemma FiredIs(s: ScheduleRecord, now: int)
    ensures CreatedRecord(now, FiredData(s), Some(s.nextRunAt)) == FiredRecord(s, FiredPromiseId(s), now)
  {
    hide FiredPromiseId;
    assert FiredData(s).tags == FiredTags(s, FiredPromiseId(s));
  }

  lemma FireOwnMovesSchedule(env: Env, w: World, claim: Claim, fault: Fault, id: Id)
    requires env.Ok() && TxInv(env, Begin(w)) && claim.payload.ScheduleFire? && claim.payload.scheduleId == id
    requires id in w.db.schedules && TimerDue(w.db, claim.payload, w.now)
    ensures ScheduleMoves(env, w, FireTimer(claim, fault), Next(env, w, FireTimer(claim, fault)), id)
  {
    hide TxInv, Resolve, FireSchedule, Advance, CreatedRecord, FiredData, FiredPromiseId, Keeps, Steady, FiredRecord;
    var tx := Begin(w);
    FiredIs(w.db.schedules[id], w.now);
    CommittedDb(tx, Fire(env, tx, claim.payload), fault);
    if w.db.schedules[id].nextRunAt == claim.payload.at {
      assert Steady(env, tx) by { BeginSteady(env, w); }
      FireScheduleKeeps(env, tx, id);
    }
  }

  lemma BeginSteady(env: Env, w: World)
    requires TxInv(env, Begin(w))
    ensures Steady(env, Begin(w))
  {
    hide TxInv;
  }

  lemma StepMovesSchedule(env: Env, w: World, step: Step, id: Id)
    requires env.Ok() && WorldInv(env, w) && Enabled(w, step)
    ensures ScheduleMoves(env, w, step, Next(env, w, step), id)
  {
    hide WorldInv, Fires, Handle, Resolve, Deliver, Fire;
    match step
    case Serve(req, fault) => ServeMovesSchedule(env, w, req, fault, id);
    case DeliverClaim(claim, fault) => DeliverMovesSchedule(env, w, claim, fault, id);
    case FireTimer(claim, fault) => FireMovesSchedule(env, w, claim, fault, id);
    case _ =>
  }

  // -------------------------------------------------------------------- the runs

  /** The time `n` firings after `t`. */
  function Iterate(env: Env, cron: string, t: int, n: nat): Option<int>
    decreases n
  {
    if n == 0 then Some(t)
    else match env.nextAfter(cron, t)
      case None => None
      case Some(next) => Iterate(env, cron, next, n - 1)
  }

  ghost predicate LivesFrom(worlds: seq<World>, i: nat, k: nat, id: Id)
    requires i <= k < |worlds|
  {
    forall j :: i <= j <= k ==> id in worlds[j].db.schedules
  }

  /** The times schedule `id` fired at from state `i` to state `k`, in order. A
      firing is a step that changes the schedule. */
  ghost function Firings(worlds: seq<World>, i: nat, k: nat, id: Id): seq<int>
    requires i <= k < |worlds| && LivesFrom(worlds, i, k, id)
    decreases k - i
  {
    if i == k then []
    else
      var s := worlds[i].db.schedules[id];
      (if worlds[i + 1].db.schedules[id] == s then [] else [s.nextRunAt]) + Firings(worlds, i + 1, k, id)
  }

  /** `s'` is schedule `s` after it fired at the times `fired`. */
  ghost predicate FiredAt(env: Env, s: ScheduleRecord, fired: seq<int>, s': ScheduleRecord) {
    && s' == s.(lastRunAt := s'.lastRunAt, nextRunAt := s'.nextRunAt)
    && (forall m :: 0 <= m < |fired| ==> Iterate(env, s.cron, s.nextRunAt, m) == Some(fired[m]))
    && s'.lastRunAt == (if fired == [] then s.lastRunAt else Some(fired[|fired| - 1]))
    && match Iterate(env, s.cron, s.nextRunAt, |fired|)
       case Some(next) => s'.nextRunAt == next
       case None => s'.nextRunAt == fired[|fired| - 1] && Exhausted(env, s')
  }

  lemma FiredOnce(env: Env, s: ScheduleRecord, s1: ScheduleRecord, fired: seq<int>, s': ScheduleRecord)
    requires s1 == Advance(env, s) && s1 != s && FiredAt(env, s1, fired, s')
    requires Exhausted(env, s1) ==> fired == []
    ensures FiredAt(env, s, [s.nextRunAt] + fired, s')
  {
    var all := [s.nextRunAt] + fired;
    var next := env.nextAfter(s.cron, s.nextRunAt);
    if next.Some? {
      forall m | 0 <= m < |all| ensures Iterate(env, s.cron, s.nextRunAt, m) == Some(all[m]) {
        if m > 0 {
          assert Iterate(env, s.cron, next.value, m - 1) == Some(fired[m - 1]);
        }
      }
      assert Iterate(env, s.cron, s.nextRunAt, |all|) == Iterate(env, s.cron, next.value, |fired|);
    } else {
      assert all == [s.nextRunAt];
    }
  }

  lemma ExhaustedStays(env: Env, s: ScheduleRecord)
    requires Exhausted(env, s)
    ensures Advance(env, s) == s
  {
  }

  /** While a schedule lives, the times it fires at are the successive times of its
      cron expression from its next time on: none is skipped and none is repeated.
      Its record names the last one and the one after it; when there is none after
      it, the schedule is exhausted and fires no more. */
  lemma {:induction false} FiringsAreSuccessive(env: Env, worlds: seq<World>, steps: seq<Step>, i: nat, k: nat, id: Id)
    requires env.Ok() && IsRun(env, worlds, steps) && i <= k < |worlds| && LivesFrom(worlds, i, k, id)
    ensures FiredAt(env, worlds[i].db.schedules[id], Firings(worlds, i, k, id), worlds[k].db.schedules[id])
    ensures Exhausted(env, worlds[i].db.schedules[id]) ==> Firings(worlds, i, k, id) == []
    decreases k - i
  {
    hide WorldInv, Moves, Next, Enabled, Advance, Exhausted;
    if i < k {
      var s, s1 := worlds[i].db.schedules[id], worlds[i + 1].db.schedules[id];
      RunInv(env, worlds, steps, i);
      StepMovesSchedule(env, worlds[i], steps[i], id);
      assert LivesFrom(worlds, i + 1, k, id);
      FiringsAreSuccessive(env, worlds, steps, i + 1, k, id);
      hide FiredAt;
      if s1 != s {
        FiredOnce(env, s, s1, Firings(worlds, i + 1, k, id), worlds[k].db.schedules[id]);
        if Exhausted(env, s) {
          ExhaustedStays(env, s);
        }
      } else {
        assert Firings(worlds, i, k, id) == Firings(worlds, i + 1, k, id);
      }
    }
  }

  /** A step changes a schedule only by firing it: in a timer step for its next
      time, not before that time, and leaving the promise of that firing. */
  lemma ChangeIsFiring(env: Env, worlds: seq<World>, steps: seq<Step>, i: nat, id: Id)
    requires env.Ok() && IsRun(env, worlds, steps) && i < |steps| && i + 1 < |worlds|
    requires id in worlds[i].db.schedules && id in worlds[i + 1].db.schedules
    requires worlds[i].db.schedules[id] != worlds[i + 1].db.schedules[id]
    ensures Fires(env, worlds[i], steps[i], worlds[i + 1], id)
  {
    hide WorldInv, Moves, Next, Enabled, Fires;
    RunInv(env, worlds, steps, i);
    StepMovesSchedule(env, worlds[i], steps[i], id);
  }

  /** A schedule in any state has an outstanding timer at its next time, unless it
      is exhausted. */
  lemma LiveScheduleHasTimer(env: Env, worlds: seq<World>, steps: seq<Step>, i: nat, id: Id)
    requires env.Ok() && IsRun(env, worlds, steps) && i < |worlds| && id in worlds[i].db.schedules
    ensures var w, s := worlds[i], worlds[i].db.schedules[id];
            Exhausted(env, s) ||
            exists j :: j in w.queue.jobs && w.queue.jobs[j].payload == ScheduleFire(id, s.nextRunAt)
                        && w.queue.jobs[j].due == Max(s.nextRunAt, 0) && j !in DoneJobs(w.acking)
  {
    hide WorldInv, Moves, IsRun, Exhausted;
    RunInv(env, worlds, steps, i);
    WorldSchedule(env, worlds[i], id);
  }

  lemma WorldSchedule(env: Env, w: World, id: Id)
    requires WorldInv(env, w) && id in w.db.schedules
    ensures var s := w.db.schedules[id];
            Exhausted(env, s) ||
            exists j :: j in w.queue.jobs && w.queue.jobs[j].payload == ScheduleFire(id, s.nextRunAt)
                        && w.queue.jobs[j].due == Max(s.nextRunAt, 0) && j !in DoneJobs(w.acking)
  {
    hide Keyed, Agree, PromisesOk, CallbacksOk, ResumesOk, JobsOk, IndexOk, SentOk, HeldOk, AllJobs, InflightOk,
      AckingOk,
      Exhausted, ScheduleOk;
    NothingStaged(Begin(w));
    var s := w.db.schedules[id];
    if !Exhausted(env, s) {
      assert HasTimer(w.queue.jobs, DoneJobs(w.acking), ScheduleFire(id, s.nextRunAt));
      var j :| j in w.queue.jobs && j !in DoneJobs(w.acking) && w.queue.jobs[j].payload == ScheduleFire(id, s.nextRunAt);
      assert w.queue.jobs[j].due == Max(s.nextRunAt, 0);
    }
  }

  /** The promise of an exhausted schedule's last firing exists. */
  lemma {:induction false} LastFiringHasPromise(env: Env, worlds: seq<World>, steps: seq<Step>, i: nat, id: Id)
    requires env.Ok() && IsRun(env, worlds, steps) && i < |worlds| && id in worlds[i].db.schedules
    requires Exhausted(env, worlds[i].db.schedules[id])
    ensures FiredPromiseId(worlds[i].db.schedules[id]) in worlds[i].db.promises
    decreases i
  {
    hide WorldInv, Moves, Next, Enabled, FiredPromiseId, FiredData, CreatedRecord;
    if i > 0 {
      var w, w' := worlds[i - 1], worlds[i];
      RunInv(env, worlds, steps, i - 1);
      StepMovesSchedule(env, w, steps[i - 1], id);
      var s' := w'.db.schedules[id];
      assert id in w.db.schedules;
      var s := w.db.schedules[id];
      if s' == s {
        LastFiringHasPromise(env, worlds, steps, i - 1, id);
        PromiseStays(w, w', FiredPromiseId(s));
      } else {
        LastTimeStays(env, s);
      }
    }
  }

  lemma LastTimeStays(env: Env, s: ScheduleRecord)
    requires env.Ok() && Exhausted(env, Advance(env, s))
    ensures FiredPromiseId(Advance(env, s)) == FiredPromiseId(s)
  {
    hide Replace, IntToString;
  }

  lemma IdleFiring(env: Env, tx: Tx, s: ScheduleRecord)
    requires Exhausted(env, s) && FiredPromiseId(s) in tx.db.promises
    requires s.id in tx.db.schedules && tx.db.schedules[s.id] == s
    ensures FireSchedule(env, tx, s) == tx
  {
    hide FiredPromiseId, FiredData, CreatePromise;
    assert tx.db.schedules[s.id := s] == tx.db.schedules;
  }

  /** Firing an exhausted schedule again, by a repeated or redelivered timer,
      changes no record and enqueues nothing. */
  lemma RepeatedLastFiring(env: Env, worlds: seq<World>, steps: seq<Step>, i: nat, id: Id, claim: Claim, fault: Fault)
    requires env.Ok() && IsRun(env, worlds, steps) && i < |worlds| && id in worlds[i].db.schedules
    requires Exhausted(env, worlds[i].db.schedules[id])
    requires claim.payload == ScheduleFire(id, worlds[i].db.schedules[id].nextRunAt)
    ensures var w' := Next(env, worlds[i], FireTimer(claim, fault));
            w'.db == worlds[i].db && w'.sent == worlds[i].sent && w'.queue.jobs == worlds[i].queue.jobs
  {
    hide WorldInv, Moves, IsRun, Exhausted, FireSchedule, FiredPromiseId;
    var w := worlds[i];
    var tx := Begin(w);
    RunInv(env, worlds, steps, i);
    LastFiringHasPromise(env, worlds, steps, i, id);
    assert w.db.schedules[id].id == id by { ScheduleKey(env, w, id); }
    IdleFiring(env, tx, w.db.schedules[id]);
    NothingStaged(tx);
  }

  lemma ScheduleKey(env: Env, w: World, id: Id)
    requires WorldInv(env, w) && id in w.db.schedules
    ensures w.db.schedules[id].id == id
  {
    hide TxInv, InflightOk, AckingOk, ScheduleOk, Exhausted, HasTimer;
    ScheduleFactsOf(env, Begin(w), id);
  }
}
