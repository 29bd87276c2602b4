/** The protocol's operations as they are carried out (src/kernel.rs, src/timers.rs):
    each reads and writes through its transaction, in loops where the protocol
    loops, and is proved to do what `Kernel` says. */
module Machine {
  import opened Records
  import opened Reference
  import opened Queues
  import opened Transaction
  import opened Text
  import opened Kernel
  import opened Invariant
  import opened Worlds
  import opened Txns

  // ------------------------------------------------------------------ how it ends

  /** Reply after committing. */
  method Done(txn: Txn, reply: Reply, ghost before: Tx) returns (r: Reply)
    modifies txn, txn.store
    ensures txn.Ended(before, Outcome(old(txn.Val()), reply, Commit), r)
  {
    hide Overlay, Transaction.Finish;
    txn.Commit();
    r := reply;
  }

  /** Commit a settlement in the transaction that acknowledges the held claim of
      `id`; a claim whose lease ended leaves the store unchanged. */
  method CommitSettlement(txn: Txn, id: Id, reply: Reply, ghost before: Tx) returns (r: Reply)
    requires before.staged == map[] && before.after == [] && before.now == txn.now
    requires txn.store.Durable() == (before.db, before.queue.jobs, before.sent, before.done)
    modifies txn, txn.store
    ensures txn.Ended(before, Outcome(old(txn.Val()), reply, CommitAck(id)), r)
  {
    hide Overlay, Transaction.Finish, CommittedAck;
    ghost var v := txn.Val();
    var ok := txn.CommitAck(id);
    if ok {
      r := reply;
    } else {
      r := Err(409);
      txn.Dropped(before, r);
    }
  }

  // --------------------------------------------------------- deadlines, settlement

  method ResumeAwaiter(txn: Txn, awaiter: Id, awaited: Id, fanout: bool)
    modifies txn, txn.store
    ensures txn.Val() == Kernel.ResumeAwaiter(old(txn.Val()), awaiter, awaited, fanout)
    ensures txn.store.Durable() == old(txn.store.Durable())
  {
    hide Overlay;
    var found := txn.GetTask(awaiter);
    if found.None? {
      return;
    }
    var task := found.value;
    match task.state {
      case Suspended =>
        task := task.Transition(TaskState.Pending).(resumes := {awaited});
        task := txn.Dispatch(task, None);
      case Pending => txn.PutTask(task.(resumes := task.resumes + {awaited}));
      case Acquired => txn.PutTask(task.(resumes := task.resumes + {awaited}));
      case Halted =>
        if fanout {
          txn.PutTask(task.(resumes := task.resumes + {awaited}));
        }
      case Fulfilled =>
    }
  }

  /** Resume the awaiters whose own deadline is ahead. */
  method ResumeAll(txn: Txn, callbacks: seq<Id>, awaited: Id)
    modifies txn, txn.store
    ensures txn.Val() == Fanout(old(txn.Val()), callbacks, awaited)
    ensures txn.store.Durable() == old(txn.store.Durable())
  {
    hide Overlay, Kernel.ResumeAwaiter;
    for i := 0 to |callbacks|
      invariant Fanout(txn.Val(), callbacks[i..], awaited) == Fanout(old(txn.Val()), callbacks, awaited)
      invariant txn.store.Durable() == old(txn.store.Durable())
    {
      var awaiting := txn.GetPromise(callbacks[i]);
      if awaiting.Some? && awaiting.value.IsPending() && txn.now < awaiting.value.record.timeoutAt {
        ResumeAwaiter(txn, callbacks[i], awaited, true);
      }
      assert callbacks[i..][1..] == callbacks[i + 1..];
    }
    assert callbacks[|callbacks|..] == [];
  }

  method UnblockAll(txn: Txn, listeners: seq<Address>, r: PromiseRecord)
    modifies txn, txn.store
    ensures txn.Val() == SendUnblocks(old(txn.Val()), listeners, r)
    ensures txn.store.Durable() == old(txn.store.Durable())
  {
    hide Overlay, Transaction.SendUnblock;
    for i := 0 to |listeners|
      invariant SendUnblocks(txn.Val(), listeners[i..], r) == SendUnblocks(old(txn.Val()), listeners, r)
      invariant txn.store.Durable() == old(txn.store.Durable())
    {
      txn.SendUnblock(listeners[i], r);
      assert listeners[i..][1..] == listeners[i + 1..];
    }
    assert listeners[|listeners|..] == [];
  }

  /** The consequences of a settlement: the promise's own task is fulfilled, every
      awaiter is resumed and every listener is told. */
  method SettleChain(txn: Txn, p: Promise)
    modifies txn, txn.store
    ensures txn.Val() == Kernel.SettleChain(old(txn.Val()), p)
    ensures txn.store.Durable() == old(txn.store.Durable())
  {
    hide Overlay, Fanout, SendUnblocks;
    var own := txn.GetTask(p.record.id);
    if own.Some? && !own.value.state.Fulfilled? {
      txn.PutTask(own.value.Transition(TaskState.Fulfilled).(resumes := {}));
      txn.FollowWith(Release(p.record.id));
    }
    txn.PutPromise(Promise(p.record, [], []));
    ResumeAll(txn, p.callbacks, p.record.id);
    UnblockAll(txn, p.listeners, p.record);
  }

  method ExpirePromise(txn: Txn, p: Promise) returns (p': Promise)
    modifies txn, txn.store
    ensures txn.Val() == Kernel.ExpirePromise(old(txn.Val()), p) && p' == p.(record := Expiry(p.record))
    ensures txn.store.Durable() == old(txn.store.Durable())
  {
    hide Overlay, Kernel.SettleChain;
    p' := p.(record := p.record.(state := p.record.TimeoutState(), settledAt := Some(p.record.timeoutAt)));
    SettleChain(txn, p');
  }

  method Settle(txn: Txn, p: Promise, state: SettleState, value: Value) returns (p': Promise)
    modifies txn, txn.store
    ensures txn.Val() == Kernel.Settle(old(txn.Val()), p, state, value)
    ensures p' == p.(record := Settlement(p.record, state, value, txn.now))
    ensures txn.store.Durable() == old(txn.store.Durable())
  {
    hide Overlay, Kernel.SettleChain;
    p' := p.(record := p.record.(state := state.ToPromise(), value := value, settledAt := Some(txn.now)));
    SettleChain(txn, p');
  }

  /** Settle every named promise whose deadline has passed. */
  method TryTimeout(txn: Txn, ids: seq<Id>)
    modifies txn, txn.store
    ensures txn.Val() == Kernel.TryTimeout(old(txn.Val()), ids)
    ensures txn.store.Durable() == old(txn.store.Durable())
  {
    hide Overlay, Kernel.ExpirePromise;
    for i := 0 to |ids|
      invariant Kernel.TryTimeout(txn.Val(), ids[i..]) == Kernel.TryTimeout(old(txn.Val()), ids)
      invariant txn.store.Durable() == old(txn.store.Durable())
    {
      var p := txn.GetPromise(ids[i]);
      if p.Some? && p.value.IsPending() && txn.now >= p.value.record.timeoutAt {
        var _ := ExpirePromise(txn, p.value);
      }
      assert ids[i..][1..] == ids[i + 1..];
    }
    assert ids[|ids|..] == [];
  }

  // --------------------------------------------------------------- acquire, create

  /** `acquired` is false when the task's claim is not held or its lease ended. */
  method Acquire(txn: Txn, t: Task, pid: string, ttl: int) returns (acquired: bool, t': Task)
    modifies txn, txn.store
    ensures txn.Val() == Kernel.Acquire(old(txn.Val()), t, pid, ttl)
    ensures acquired == CanRenew(old(txn.Val()), t.id) && t' == (if acquired then AcquiredBy(t, pid, ttl) else t)
    ensures acquired ==>
              && t' == Task(t.id, TaskState.Acquired, t.version + 1, t.target, t.job, Some(pid), Some(ttl), {})
              && t.id in txn.Val().held && txn.Val().held[t.id].job in txn.Val().queue.leases
              && txn.Val().queue.leases[txn.Val().held[t.id].job] ==
                   Lease(txn.Val().held[t.id].token, if ttl > 0 then txn.now + ttl else txn.now)
    ensures txn.store.Durable() == old(txn.store.Durable())
  {
    hide Overlay, Transaction.Renew, CanRenew;
    t' := t;
    ghost var before := txn.Val();
    acquired := txn.Renew(t.id, LeaseOf(ttl));
    if acquired {
      LeaseRenewed(before, t.id, LeaseOf(ttl));
      t' := t.(state := TaskState.Acquired, version := t.version + 1, pid := Some(pid), ttl := Some(ttl), resumes := {});
      txn.PutTask(t');
    }
  }

  lemma LeaseRenewed(tx: Tx, id: Id, lease: int)
    requires CanRenew(tx, id)
    ensures var tx' := Transaction.Renew(tx, id, lease);
            && id in tx'.held && tx'.held[id].job in tx'.queue.leases && tx'.now == tx.now
            && tx'.queue.leases[tx'.held[id].job] == Lease(tx'.held[id].token, tx.now + lease)
  {
  }

  /** The task of a created promise. */
  method StartTask(txn: Txn, r: PromiseRecord, mode: CreateMode)
    modifies txn, txn.store
    ensures txn.Val() == CreateTask(old(txn.Val()), r, mode)
    ensures txn.store.Durable() == old(txn.store.Durable())
  {
    hide Overlay, ParseI64, SaturatingAdd;
    if Target in r.tags {
      var task := NewTask(r.id, r.tags[Target], TaskState.Pending);
      if !r.state.Pending? {
        txn.PutTask(task.(state := TaskState.Fulfilled));
      } else {
        match mode {
          case CreateAcquire(pid, ttl) =>
            task := task.(state := TaskState.Acquired, version := 1, pid := Some(pid), ttl := Some(ttl));
            task := txn.Dispatch(task, Some(SaturatingAdd(txn.now, ttl)));
            txn.FollowWith(ClaimJob(task.id, task.job.value, LeaseOf(ttl)));
          case CreateDispatch =>
            var delay := None;
            if Delay in r.tags {
              var parsed := ParseI64(r.tags[Delay]);
              if parsed.Some? && txn.now < parsed.value {
                delay := parsed;
              }
            }
            task := txn.Dispatch(task, delay);
        }
      }
    }
  }

  /** Create a promise that does not exist; past its deadline it is created in its
      timeout state. */
  method CreatePromise(txn: Txn, data: CreateData, createdAt: Option<int>, mode: CreateMode) returns (p: Promise)
    modifies txn, txn.store
    ensures txn.Val() == Kernel.CreatePromise(old(txn.Val()), data, createdAt, mode)
    ensures p == Promise(CreatedRecord(txn.now, data, createdAt), [], [])
    ensures txn.store.Durable() == old(txn.store.Durable())
  {
    hide Overlay, CreateTask, Transaction.IndexBranch;
    var already := txn.now >= data.timeoutAt;
    var created := if already then data.timeoutAt else match createdAt { case Some(at) => at case None => txn.now };
    var r := PromiseRecord(data.id, PromiseState.Pending, data.param, EMPTY, data.tags, data.timeoutAt, created, None);
    if already {
      r := r.(state := r.TimeoutState(), settledAt := Some(data.timeoutAt));
    }
    p := Promise(r, [], []);
    txn.IndexBranch(r);
    txn.PutPromise(p);
    StartTask(txn, r, mode);
    if r.state.Pending? && r.IsExternal() {
      txn.ScheduleTimer(PromiseTimeout(r.id), r.timeoutAt);
    }
  }

  // --------------------------------------------------------------------- schedules

  /** Fire a schedule at its next time and advance it by one firing. */
  method FireSchedule(txn: Txn, schedule: ScheduleRecord)
    modifies txn, txn.store
    ensures txn.Val() == Kernel.FireSchedule(txn.env, old(txn.Val()), schedule)
    ensures txn.store.Durable() == old(txn.store.Durable())
  {
    hide Overlay, Replace, IntToString, Kernel.CreatePromise, CreatedRecord, SaturatingAdd;
    var s := schedule;
    var firedAt := s.nextRunAt;
    var promiseId := Replace(Replace(s.promiseId, "{{.id}}", s.id), "{{.timestamp}}", IntToString(firedAt));
    var existing := txn.GetPromise(promiseId);
    if existing.None? {
      var tags := s.promiseTags[Schedule := s.id];
      tags := tags[Origin := promiseId][Branch := promiseId][Parent := promiseId][Prefix := promiseId];
      var data := CreateData(promiseId, SaturatingAdd(firedAt, s.promiseTimeout), s.promiseParam, tags);
      var _ := CreatePromise(txn, data, Some(firedAt), CreateDispatch);
    }
    s := s.(lastRunAt := Some(firedAt));
    var next := txn.env.nextAfter(s.cron, firedAt);
    if next.Some? {
      s := s.(nextRunAt := next.value);
      txn.ScheduleTimer(ScheduleFire(s.id, next.value), next.value);
    }
    txn.PutSchedule(s);
  }

  // -------------------------------------------------------------- deliver and fire

  /** Deliver a claimed job. */
  method DeliverJob(txn: Txn, claim: Claim) returns (r: Reply)
    requires txn.IsNew()
    modifies txn, txn.store
    ensures txn.Ended(old(txn.Val()), Deliver(old(txn.Val()), claim), r)
  {
    hide Overlay, Kernel.TryTimeout, Resolve;
    ghost var before := txn.Val();
    txn.NothingWritten();
    match claim.payload {
      case Unblock(record) =>
        txn.FollowWith(AckClaim(claim));
        r := Done(txn, Ok(200, UnblockMessage(record)), before);
      case Execute(id) =>
        TryTimeout(txn, [id]);
        var found := txn.GetTask(id);
        if found.Some? && found.value.state.Acquired? {
          var task := found.value.Transition(TaskState.Pending);
          txn.PutTask(task);
          txn.FollowWith(Hold(id, claim));
          r := Done(txn, Ok(200, ExecuteMessage(id, task.version)), before);
        } else if found.Some? && found.value.state.Pending? {
          txn.FollowWith(Hold(id, claim));
          r := Done(txn, Ok(200, ExecuteMessage(id, found.value.version)), before);
        } else {
          txn.FollowWith(AckClaim(claim));
          r := Done(txn, Ok(200, NoBody), before);
        }
      case _ =>
        r := Err(500);
        txn.Dropped(before, r);
    }
  }

  /** Apply a fired timer. */
  method FireTimer(txn: Txn, timer: Payload) returns (r: Reply)
    requires txn.IsNew()
    modifies txn, txn.store
    ensures txn.Ended(old(txn.Val()), Fire(txn.env, old(txn.Val()), timer), r)
  {
    hide Overlay, Kernel.ExpirePromise, Kernel.FireSchedule, Resolve;
    ghost var before := txn.Val();
    txn.NothingWritten();
    r := Ok(200, NoBody);
    match timer {
      case PromiseTimeout(id) =>
        var p := txn.GetPromise(id);
        if p.None? || !p.value.IsPending() {
          txn.Dropped(before, r);
          return;
        }
        var _ := ExpirePromise(txn, p.value);
      case ScheduleFire(id, at) =>
        var s := txn.GetSchedule(id);
        if s.None? || s.value.nextRunAt != at {
          txn.Dropped(before, r);
          return;
        }
        FireSchedule(txn, s.value);
      case _ =>
        r := Err(500);
        txn.Dropped(before, r);
        return;
    }
    r := Done(txn, r, before);
  }
}
