/** What a registration does: it is kept on a pending promise, and on a settled one it
    wakes the awaiter at once. With what a suspend registers and what the settlement
    of a promise wakes, no awaiter is left asleep. */
module Registrations {
  import opened Records
  import opened Reference
  import opened Queues
  import opened Transaction
  import opened Kernel
  import opened Invariant
  import opened Steps
  import opened Operations
  import opened Handlers
  import opened Worlds
  import opened Commits
  import opened Runs
  import opened Theorems
  import opened Closings
  import opened Endings
  import opened Answers
  import Confluence
  import Frames

  // --------------------------------------------------------------------- callbacks

  predicate ValidAwait(awaited: Id, awaiter: Id) {
    awaited != "" && awaiter != "" && awaited != awaiter && OriginOf(awaited) == OriginOf(awaiter)
  }

  /** The reply to a callback registration depends on the two promises alone. */
  lemma CallbackReply(env: Env, w: World, awaited: Id, awaiter: Id)
    requires WorldInv(env, w)
    ensures var w', reply := Asked(env, w, RegisterCallback(awaited, awaiter)), Answer(env, w, RegisterCallback(awaited, awaiter));
            if !ValidAwait(awaited, awaiter) then reply == Err(400)
            else if awaited !in w.db.promises then reply == Err(404)
            else if awaiter !in w.db.promises || Target !in w.db.promises[awaiter].record.tags || !IsAwaitable(w, awaited) then
              reply == Err(422)
            else
              && reply == Ok(200, PromiseBody(Shown(w, awaited)))
              && awaited in w'.db.promises && w'.db.promises[awaited].record == Shown(w, awaited)
  {
    var tx, ids, req := Begin(w), [awaited, awaiter], RegisterCallback(awaited, awaiter);
    hide WorldInv, TryTimeout, OriginOf, Answer, Asked, Shown, HandleRegisterCallback;
    if ValidAwait(awaited, awaiter) {
      AfterDeadlines(env, w, ids);
      assert awaited in ids && awaiter in ids;
      CallbackIs(tx, awaited, awaiter);
      if awaited in w.db.promises {
        CallbackKeepsRecord(TryTimeout(tx, ids), awaited, awaiter);
      }
      CommittedAnswer(env, w, req);
    } else {
      CallbackMalformed(tx, awaited, awaiter);
      ErrorAnswer(env, w, req);
    }
  }

  lemma CallbackMalformed(tx: Tx, awaited: Id, awaiter: Id)
    requires !ValidAwait(awaited, awaiter)
    ensures HandleRegisterCallback(tx, awaited, awaiter) == Refuse(tx, 400)
  {
    hide OriginOf;
  }

  /** The records and the registrations that a valid registration leaves. */
  function Registered(tx1: Tx, awaited: Id, awaiter: Id): Tx
    requires awaited in tx1.db.promises
  {
    var p := tx1.db.promises[awaited];
    if awaiter !in tx1.db.promises || !tx1.db.promises[awaiter].IsPending() then tx1
    else if !p.IsPending() then ResumeAwaiter(tx1, awaiter, awaited, false)
    else if awaiter in p.callbacks then tx1
    else tx1.(db := tx1.db.(promises := tx1.db.promises[p.record.id := p.(callbacks := p.callbacks + [awaiter])]))
  }

  lemma CallbackIs(tx: Tx, awaited: Id, awaiter: Id)
    requires ValidAwait(awaited, awaiter)
    ensures var tx1, out := TryTimeout(tx, [awaited, awaiter]), HandleRegisterCallback(tx, awaited, awaiter);
            && out.mode.Commit?
            && if awaited !in tx1.db.promises then out.reply == Err(404)
               else if awaiter !in tx1.db.promises || Target !in tx1.db.promises[awaiter].record.tags
                       || !CanBeAwaited(tx1.db.promises[awaited].record.tags) then out.reply == Err(422)
               else out.tx == Registered(tx1, awaited, awaiter) && out.reply == PromiseReply(out.tx, awaited)
  {
    hide TryTimeout, OriginOf, ResumeAwaiter, PromiseReply;
  }

  lemma CallbackKeepsRecord(tx1: Tx, awaited: Id, awaiter: Id)
    requires awaited in tx1.db.promises && tx1.db.promises[awaited].record.id == awaited
    ensures var tx' := Registered(tx1, awaited, awaiter);
            awaited in tx'.db.promises && tx'.db.promises[awaited].record == tx1.db.promises[awaited].record
  {
    hide ResumeAwaiter;
    Frames.ResumeLeaves(tx1, awaited, awaiter);
  }

  /** A registration that both promises are ahead for is kept: the awaited promise lists
      the awaiter, once, and nothing else changes. */
  lemma CallbackIsKept(env: Env, w: World, awaited: Id, awaiter: Id)
    requires WorldInv(env, w) && Answer(env, w, RegisterCallback(awaited, awaiter)).Ok?
    requires IsAhead(w, awaited) && IsAhead(w, awaiter)
    ensures var w', p := Asked(env, w, RegisterCallback(awaited, awaiter)), w.db.promises[awaited];
            var callbacks := if awaiter in p.callbacks then p.callbacks else p.callbacks + [awaiter];
            && w'.db == w.db.(promises := w.db.promises[awaited := Promise(p.record, callbacks, p.listeners)])
            && Awaits(w', awaiter, awaited)
  {
    hide WorldInv, PromiseOk, TryTimeout, Answer, Asked, ResumeAwaiter, CanBeAwaited;
    WorldPromise(env, w, awaited);
    NothingDue(Begin(w), [awaited, awaiter]);
    CallbackDb(env, w, awaited, awaiter);
    assert w.db.promises[awaited := w.db.promises[awaited]] == w.db.promises;
  }

  lemma CallbackDb(env: Env, w: World, awaited: Id, awaiter: Id)
    requires WorldInv(env, w) && Answer(env, w, RegisterCallback(awaited, awaiter)).Ok?
    ensures awaited in w.db.promises && awaited in TryTimeout(Begin(w), [awaited, awaiter]).db.promises
    ensures awaiter in w.db.promises && Target in w.db.promises[awaiter].record.tags
    ensures Asked(env, w, RegisterCallback(awaited, awaiter)).db ==
              Registered(TryTimeout(Begin(w), [awaited, awaiter]), awaited, awaiter).db
  {
    hide WorldInv, TryTimeout, OriginOf, Answer, Asked, HandleRegisterCallback, Registered, Shown, PromiseReply;
    CallbackReply(env, w, awaited, awaiter);
    AfterDeadlines(env, w, [awaited, awaiter]);
    CallbackIs(Begin(w), awaited, awaiter);
    CommittedAnswer(env, w, RegisterCallback(awaited, awaiter));
  }

  /** The awaiter's task after an awaited promise that is settled, or past its deadline,
      is recorded for it. */
  ghost predicate IsResumed(w: World, t: Task, t': Task, awaited: Id) {
    match t.state
    case Suspended =>
      && t' == Task(t.id, TaskState.Pending, t.version, t.target, t'.job, None, None, {awaited})
      && t'.job.Some? && w.queue.nextJob <= t'.job.value
    case Pending => t' == t.(resumes := t.resumes + {awaited})
    case Acquired => t' == t.(resumes := t.resumes + {awaited})
    case Halted => t' == t || (awaited in w.db.promises && w.db.promises[awaited].IsPending() && t' == t.(resumes := t.resumes + {awaited}))
    case Fulfilled => false
  }

  lemma WorldIsKeyed(env: Env, w: World)
    requires WorldInv(env, w)
    ensures Confluence.Keyed(Begin(w)) && forall id :: id in w.db.promises ==> w.db.promises[id].record.id == id
  {
    hide TxInv, InflightOk, AckingOk;
    KeyedTasks(env, Begin(w));
  }

  /** What the deadlines of the two promises leave of the awaiter's task. */
  lemma AwaiterAfterDeadlines(env: Env, w: World, awaited: Id, awaiter: Id)
    requires WorldInv(env, w) && awaited != awaiter && awaiter in w.db.tasks && IsAhead(w, awaiter)
    ensures var tx1 := TryTimeout(Begin(w), [awaited, awaiter]);
            && awaiter in tx1.db.tasks && w.queue.nextJob <= tx1.queue.nextJob
            && (tx1.db.tasks[awaiter] == w.db.tasks[awaiter]
                || (awaited in w.db.promises && w.db.promises[awaited].IsPending()
                    && IsResumed(w, w.db.tasks[awaiter], tx1.db.tasks[awaiter], awaited)))
  {
    var tx, ids := Begin(w), [awaited, awaiter];
    assert !w.db.tasks[awaiter].state.Fulfilled? by { WorldAgrees(env, w, awaiter); }
    WorldIsKeyed(env, w);
    hide WorldInv, TryTimeout, Confluence.IsExpiry, Confluence.Keyed, Confluence.Wakers, Confluence.TaskMatches, Confluence.ExpiredTask,
      Confluence.Dispatches, IsResumed;
    Confluence.TryTimeoutIsExpiry(tx, ids);
    ExpiryOf(tx, Confluence.IdSet(ids), TryTimeout(tx, ids), awaiter);
    OneWaker(tx, ids, awaited, awaiter);
    WokenIs(w, Confluence.IdSet(ids), TryTimeout(tx, ids).db.tasks[awaiter], awaited, awaiter);
  }

  lemma ExpiryOf(tx: Tx, ids: set<Id>, tx1: Tx, id: Id)
    requires Confluence.IsExpiry(tx, ids, tx1) && id in tx.db.tasks
    ensures id in tx1.db.tasks && tx.queue.nextJob <= tx1.queue.nextJob
    ensures Confluence.TaskMatches(tx, tx.db.tasks[id], tx1.db.tasks[id], Confluence.ExpiredTask(tx, ids, id), Confluence.Dispatches(tx, ids, id))
  {
    hide Confluence.NewJobs, Confluence.Enqueued, Confluence.TaskMatches, Confluence.ExpiredTask, Confluence.Dispatches;
  }

  /** The awaiter is not due itself, so only the awaited promise can wake it. */
  lemma OneWaker(tx: Tx, ids: seq<Id>, awaited: Id, awaiter: Id)
    requires ids == [awaited, awaiter] && awaiter in tx.db.promises && !tx.db.promises[awaiter].Due(tx.now)
    ensures var wakers := Confluence.Wakers(tx, Confluence.IdSet(ids), awaiter);
            wakers == {} || (wakers == {awaited} && awaited in tx.db.promises && tx.db.promises[awaited].IsPending())
  {
    var wakers := Confluence.Wakers(tx, Confluence.IdSet(ids), awaiter);
    assert forall a :: a in wakers ==> a == awaited;
  }

  lemma WokenIs(w: World, ids: set<Id>, t': Task, awaited: Id, awaiter: Id)
    requires awaiter in w.db.tasks && IsAhead(w, awaiter) && !w.db.tasks[awaiter].state.Fulfilled?
    requires Confluence.TaskMatches(Begin(w), w.db.tasks[awaiter], t',
                                    Confluence.ExpiredTask(Begin(w), ids, awaiter), Confluence.Dispatches(Begin(w), ids, awaiter))
    requires var wakers := Confluence.Wakers(Begin(w), ids, awaiter);
             wakers == {} || (wakers == {awaited} && awaited in w.db.promises && w.db.promises[awaited].IsPending())
    ensures t' == w.db.tasks[awaiter]
            || (awaited in w.db.promises && w.db.promises[awaited].IsPending() && IsResumed(w, w.db.tasks[awaiter], t', awaited))
  {
    hide Confluence.Wakers;
  }

  /** A registration on a settled promise records it for a task. */
  lemma ResumeIs(tx1: Tx, awaited: Id, awaiter: Id)
    requires awaiter in tx1.db.tasks && tx1.db.tasks[awaiter].id == awaiter
    ensures var tx', t := ResumeAwaiter(tx1, awaiter, awaited, false), tx1.db.tasks[awaiter];
            && awaiter in tx'.db.tasks
            && tx'.db.tasks[awaiter] ==
                 match t.state
                 case Suspended => Task(t.id, TaskState.Pending, t.version, t.target, Some(tx1.queue.nextJob), None, None, {awaited})
                 case Pending => t.(resumes := t.resumes + {awaited})
                 case Acquired => t.(resumes := t.resumes + {awaited})
                 case _ => t
  {
  }

  lemma ResumedTask(w: World, tx1: Tx, awaited: Id, awaiter: Id)
    requires awaiter in w.db.tasks && awaiter in tx1.db.tasks && w.queue.nextJob <= tx1.queue.nextJob
    requires w.db.tasks[awaiter].id == awaiter && !w.db.tasks[awaiter].state.Fulfilled?
    requires tx1.db.tasks[awaiter] == w.db.tasks[awaiter]
             || (awaited in w.db.promises && w.db.promises[awaited].IsPending()
                 && IsResumed(w, w.db.tasks[awaiter], tx1.db.tasks[awaiter], awaited))
    ensures var tx' := ResumeAwaiter(tx1, awaiter, awaited, false);
            awaiter in tx'.db.tasks && IsResumed(w, w.db.tasks[awaiter], tx'.db.tasks[awaiter], awaited)
  {
    var t := w.db.tasks[awaiter];
    assert t.resumes + {awaited} + {awaited} == t.resumes + {awaited};
    ResumeIs(tx1, awaited, awaiter);
    hide ResumeAwaiter;
  }

  /** A registration on a promise that is settled, or past its deadline, wakes the
      awaiter, whose own is ahead: a task that was suspended is pending with one new job
      and resumes with that promise, and one that waits or runs will see it. */
  lemma CallbackWakes(env: Env, w: World, awaited: Id, awaiter: Id)
    requires env.Ok() && WorldInv(env, w) && Answer(env, w, RegisterCallback(awaited, awaiter)).Ok?
    requires !IsAhead(w, awaited) && IsAhead(w, awaiter)
    ensures var w' := Asked(env, w, RegisterCallback(awaited, awaiter));
            && awaiter in w.db.tasks && awaiter in w'.db.tasks
            && var t, t' := w.db.tasks[awaiter], w'.db.tasks[awaiter];
               && IsResumed(w, t, t', awaited)
               && (t.state.Suspended? ==> LiveJobs(w, awaiter) == {} && LiveJobs(w', awaiter) == {t'.job.value})
  {
    var tx, ids, req := Begin(w), [awaited, awaiter], RegisterCallback(awaited, awaiter);
    hide WorldInv, Moves, TryTimeout, OriginOf, Answer, Asked, HandleRegisterCallback, IsResumed, ResumeAwaiter, LiveJobs;
    CallbackReply(env, w, awaited, awaiter);
    WorldAgrees(env, w, awaiter);
    AfterDeadlines(env, w, ids);
    assert awaited in ids && awaiter in ids;
    AwaiterAfterDeadlines(env, w, awaited, awaiter);
    OpenDeadline(env, w, awaiter);
    ResumedTask(w, TryTimeout(tx, ids), awaited, awaiter);
    CallbackIs(tx, awaited, awaiter);
    CommittedAnswer(env, w, req);
    var w' := Asked(env, w, req);
    assert WorldInv(env, w') by { AskedKeeps(env, w, req); }
    WorldJobs(env, w, awaiter);
    WorldJobs(env, w', awaiter);
    ResumedState(w, w.db.tasks[awaiter], w'.db.tasks[awaiter], awaited);
  }

  lemma ResumedState(w: World, t: Task, t': Task, awaited: Id)
    requires IsResumed(w, t, t', awaited)
    ensures t.state.Suspended? ==> t'.state.Pending?
  {
  }

  // ------------------------------------------------------------------- settlements

  /** A task after a promise that lists it settled, while its own deadline is ahead. */
  predicate IsWoken(w: World, t: Task, t': Task, awaited: Id) {
    match t.state
    case Suspended =>
      && t' == Task(t.id, TaskState.Pending, t.version, t.target, t'.job, None, None, {awaited})
      && t'.job.Some? && w.queue.nextJob <= t'.job.value
    case Fulfilled => t' == t
    case _ => t' == t.(resumes := t.resumes + {awaited})
  }

  lemma SettledAside(w: World, tx: Tx, r: PromiseRecord, c: Id)
    requires tx == Begin(w) && Confluence.Keyed(tx) && r.id in tx.db.promises && c in tx.db.tasks && c != r.id
    ensures var a := SettleRecord(tx, r);
            && Confluence.Keyed(a) && a.queue == tx.queue && c in a.db.tasks && a.db.tasks[c] == tx.db.tasks[c]
            && (Confluence.Awake(a, c) <==> IsAhead(w, c))
  {
  }

  /** What a settlement does to the tasks of others. */
  lemma ChainTasks(w: World, tx: Tx, p: Promise, c: Id)
    requires tx == Begin(w) && Confluence.Keyed(tx) && p.record.id in tx.db.promises && c in tx.db.tasks && c != p.record.id
    ensures var tx' := SettleChain(tx, p);
            && c in tx'.db.tasks
            && if c in p.callbacks && IsAhead(w, c) then IsWoken(w, tx.db.tasks[c], tx'.db.tasks[c], p.record.id)
               else tx'.db.tasks[c] == tx.db.tasks[c]
  {
    var id, a := p.record.id, SettleRecord(tx, p.record);
    hide SettleRecord, Confluence.Keyed, IsAhead, Confluence.Awake, Fanout, Confluence.FanoutBag;
    SettledAside(w, tx, p.record, c);
    Confluence.FanoutIs(a, p.callbacks, id, a.queue.nextJob);
    var b := Fanout(a, p.callbacks, id);
    assert Confluence.FanoutTasks(a, p.callbacks, id, b);
    assert Confluence.FanoutTask(a, p.callbacks, id, a.db.tasks[c], b.db.tasks[c], c);
    hide Calm;
    SendUnblocksCalm(b, p.listeners, p.record);
  }

  lemma SettleIs(tx: Tx, data: SettleData)
    requires TryTimeout(tx, [data.id]) == tx && data.id in tx.db.promises && tx.db.promises[data.id].IsPending()
    ensures var p := tx.db.promises[data.id];
            && HandlePromiseSettle(tx, data).mode.Commit?
            && HandlePromiseSettle(tx, data).tx == SettleChain(tx, p.(record := p.record.SettledBy(data.state, data.value, tx.now)))
  {
    hide TryTimeout, SettleChain;
  }

  /** A client that settles a promise wakes every task that it lists and whose own
      deadline is ahead: one that was suspended is pending with a new job and resumes
      with that promise, and any other open one sees it. No other task changes but the
      promise's own. */
  lemma SettlementWakes(env: Env, w: World, data: SettleData, c: Id)
    requires WorldInv(env, w) && IsAhead(w, data.id) && c in w.db.tasks && c != data.id
    ensures var w' := Asked(env, w, PromiseSettle(data));
            && c in w'.db.tasks
            && if c in w.db.promises[data.id].callbacks && IsAhead(w, c) then
                 IsWoken(w, w.db.tasks[c], w'.db.tasks[c], data.id)
               else w'.db.tasks[c] == w.db.tasks[c]
  {
    var p := w.db.promises[data.id];
    hide WorldInv, Asked, SettleChain, IsWoken, Confluence.Keyed;
    WorldIsKeyed(env, w);
    SettleDb(env, w, data);
    ChainTasks(w, Begin(w), p.(record := p.record.SettledBy(data.state, data.value, w.now)), c);
  }

  lemma SettleDb(env: Env, w: World, data: SettleData)
    requires IsAhead(w, data.id)
    ensures var p := w.db.promises[data.id];
            Asked(env, w, PromiseSettle(data)).db ==
              SettleChain(Begin(w), p.(record := p.record.SettledBy(data.state, data.value, w.now))).db
  {
    hide TryTimeout, Answer, Asked, SettleChain, HandlePromiseSettle;
    NothingDue(Begin(w), [data.id]);
    SettleIs(Begin(w), data);
    CommittedAnswer(env, w, PromiseSettle(data));
  }

  // --------------------------------------------------------------------- listeners

  /** The reply to a listener registration, and the listener it leaves: a pending
      promise that is ahead lists the address, once, and nothing else changes. */
  lemma ListenerAnswer(env: Env, w: World, awaited: Id, address: Address)
    requires WorldInv(env, w)
    ensures var w', reply := Asked(env, w, RegisterListener(awaited, address)), Answer(env, w, RegisterListener(awaited, address));
            if !env.isUrl(address) then reply == Err(400)
            else if awaited !in w.db.promises then reply == Err(404)
            else if !IsAwaitable(w, awaited) then reply == Err(422)
            else
              && reply == Ok(200, PromiseBody(Shown(w, awaited)))
              && var p := w.db.promises[awaited];
                 if IsAhead(w, awaited) then
                   var listeners := if address in p.listeners then p.listeners else p.listeners + [address];
                   w'.db == w.db.(promises := w.db.promises[awaited := Promise(p.record, p.callbacks, listeners)])
                 else awaited in w'.db.promises && w'.db.promises[awaited].record == Shown(w, awaited)
  {
    var tx, ids, req := Begin(w), [awaited], RegisterListener(awaited, address);
    hide WorldInv, TryTimeout, Answer, Asked, HandleRegisterListener, Shown, CanBeAwaited, PromiseOk;
    ListenerIs(env, tx, awaited, address);
    if !env.isUrl(address) {
      ErrorAnswer(env, w, req);
    } else {
      CommittedAnswer(env, w, req);
      AfterDeadlines(env, w, ids);
      assert awaited in ids;
      if awaited in w.db.promises && IsAwaitable(w, awaited) {
        if IsAhead(w, awaited) {
          NothingDue(tx, ids);
          ShownAhead(w, awaited);
        }
        assert w.db.promises[awaited := w.db.promises[awaited]] == w.db.promises;
      }
    }
  }

  lemma ShownAhead(w: World, a: Id)
    requires IsAhead(w, a)
    ensures Shown(w, a) == w.db.promises[a].record
  {
  }

  lemma ListenerIs(env: Env, tx: Tx, awaited: Id, address: Address)
    ensures var tx1, out := TryTimeout(tx, [awaited]), HandleRegisterListener(env, tx, awaited, address);
            if !env.isUrl(address) then out == Refuse(tx, 400)
            else
              && out.mode.Commit?
              && if awaited !in tx1.db.promises then out.reply == Err(404)
                 else if !CanBeAwaited(tx1.db.promises[awaited].record.tags) then out.reply == Err(422)
                 else
                   var p := tx1.db.promises[awaited];
                   && out.tx == (if p.IsPending() && address !in p.listeners then
                                   tx1.(db := tx1.db.(promises := tx1.db.promises[p.record.id := p.(listeners := p.listeners + [address])]))
                                 else tx1)
                   && (p.record.id == awaited ==> out.reply == Ok(200, PromiseBody(p.record)))
  {
    hide TryTimeout;
  }
}
