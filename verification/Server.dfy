/** The requests as they are carried out (src/kernel.rs): every handler is proved to
    end as `Kernel` decides, and serving a request keeps the invariant. */
module Server {
  import opened Records
  import opened Queues
  import opened Transaction
  import opened Text
  import opened Kernel
  import opened Invariant
  import opened Steps
  import opened Operations
  import opened Handlers
  import opened Worlds
  import opened Commits
  import opened Txns
  import M = Machine
  import Runs
  import Theorems
  import opened Frames

  // ----------------------------------------------------------- promise operations

  method ServePromiseCreate(txn: Txn, data: CreateData) returns (r: Reply)
    requires txn.IsNew()
    modifies txn, txn.store
    ensures txn.Ended(old(txn.Val()), HandlePromiseCreate(txn.env, old(txn.Val()), data), r)
  {
    hide Overlay, Kernel.TryTimeout, Kernel.CreatePromise, CreatedRecord, ValidCreate, Resolve;
    ghost var before := txn.Val();
    txn.NothingWritten();
    if !ValidCreate(txn.env, data) {
      r := Err(400);
      txn.Dropped(before, r);
      return;
    }
    M.TryTimeout(txn, [data.id]);
    var existing := txn.GetPromise(data.id);
    if existing.Some? {
      r := M.Done(txn, Ok(200, PromiseBody(existing.value.record)), before);
      return;
    }
    CreateLeaves(txn.Val(), data, None, CreateDispatch);
    var p := M.CreatePromise(txn, data, None, CreateDispatch);
    r := M.Done(txn, Ok(200, PromiseBody(p.record)), before);
  }

  method ServePromiseGet(txn: Txn, id: Id) returns (r: Reply)
    requires txn.IsNew()
    modifies txn, txn.store
    ensures txn.Ended(old(txn.Val()), HandlePromiseGet(old(txn.Val()), id), r)
  {
    hide Overlay, Kernel.TryTimeout, Resolve;
    ghost var before := txn.Val();
    M.TryTimeout(txn, [id]);
    var p := txn.GetPromise(id);
    var reply := if p.Some? then Ok(200, PromiseBody(p.value.record)) else Err(404);
    r := M.Done(txn, reply, before);
  }

  /** Settle the promise `data` names, while it is pending. */
  method SettlePending(txn: Txn, p: Promise, data: SettleData) returns (p': Promise)
    requires data.id in txn.Val().db.promises && txn.Val().db.promises[data.id] == p && p.record.id == data.id
    modifies txn, txn.store
    ensures txn.Val() == SettleIfPending(old(txn.Val()), data) && txn.store.Durable() == old(txn.store.Durable())
    ensures PromiseReply(txn.Val(), data.id) == Ok(200, PromiseBody(p'.record))
  {
    hide Overlay, Kernel.SettleChain;
    p' := p;
    if p.IsPending() {
      SettlePromises(txn.Val(), p.(record := p.record.SettledBy(data.state, data.value, txn.now)));
      p' := M.Settle(txn, p, data.state, data.value);
    }
  }

  method ServePromiseSettle(txn: Txn, data: SettleData) returns (r: Reply)
    requires txn.IsNew() && KeyedPromises(txn.Val().db.promises)
    modifies txn, txn.store
    ensures txn.Ended(old(txn.Val()), HandlePromiseSettle(old(txn.Val()), data), r)
  {
    hide Overlay, Kernel.TryTimeout, Kernel.Settle, Resolve;
    ghost var before := txn.Val();
    M.TryTimeout(txn, [data.id]);
    TimeoutsKeepKeyed(before, [data.id]);
    var found := txn.GetPromise(data.id);
    if found.None? {
      r := M.Done(txn, Err(404), before);
      return;
    }
    var p := SettlePending(txn, found.value, data);
    r := M.Done(txn, Ok(200, PromiseBody(p.record)), before);
  }

  /** Add `awaiter` to the callbacks of a pending promise, once. */
  method RegisterCallback(txn: Txn, p: Promise, awaiter: Id)
    modifies txn`promises
    ensures txn.Val() == if awaiter in p.callbacks then old(txn.Val())
                         else PutPromise(old(txn.Val()), p.(callbacks := p.callbacks + [awaiter]))
  {
    hide Overlay;
    if awaiter !in p.callbacks {
      txn.PutPromise(p.(callbacks := p.callbacks + [awaiter]));
    }
  }

  method ServeRegisterCallback(txn: Txn, awaited: Id, awaiter: Id) returns (r: Reply)
    requires txn.IsNew() && KeyedPromises(txn.Val().db.promises)
    modifies txn, txn.store
    ensures txn.Ended(old(txn.Val()), HandleRegisterCallback(old(txn.Val()), awaited, awaiter), r)
  {
    hide Overlay, Kernel.TryTimeout, ValidCallback, Kernel.ResumeAwaiter, Resolve;
    ghost var before := txn.Val();
    txn.NothingWritten();
    if !ValidCallback(awaited, awaiter) {
      r := Err(400);
      txn.Dropped(before, r);
      return;
    }
    M.TryTimeout(txn, [awaited, awaiter]);
    TimeoutsKeepKeyed(before, [awaited, awaiter]);
    var p := txn.GetPromise(awaited);
    if p.None? {
      r := M.Done(txn, Err(404), before);
      return;
    }
    var q := txn.GetPromise(awaiter);
    if q.None? || Target !in q.value.record.tags || !p.value.record.IsExternal() {
      r := M.Done(txn, Err(422), before);
      return;
    }
    if q.value.IsPending() {
      if p.value.IsPending() {
        RegisterCallback(txn, p.value, awaiter);
      } else {
        ResumeLeaves(txn.Val(), awaited, awaiter);
        M.ResumeAwaiter(txn, awaiter, awaited, false);
      }
    }
    r := M.Done(txn, Ok(200, PromiseBody(p.value.record)), before);
  }

  method ServeRegisterListener(txn: Txn, awaited: Id, address: Address) returns (r: Reply)
    requires txn.IsNew() && KeyedPromises(txn.Val().db.promises)
    modifies txn, txn.store
    ensures txn.Ended(old(txn.Val()), HandleRegisterListener(txn.env, old(txn.Val()), awaited, address), r)
  {
    hide Overlay, Kernel.TryTimeout, Resolve;
    ghost var before := txn.Val();
    txn.NothingWritten();
    if !txn.env.isUrl(address) {
      r := Err(400);
      txn.Dropped(before, r);
      return;
    }
    M.TryTimeout(txn, [awaited]);
    TimeoutsKeepKeyed(before, [awaited]);
    var found := txn.GetPromise(awaited);
    if found.None? {
      r := M.Done(txn, Err(404), before);
      return;
    }
    var p := found.value;
    if !p.record.IsExternal() {
      r := M.Done(txn, Err(422), before);
      return;
    }
    if p.IsPending() && address !in p.listeners {
      p := p.(listeners := p.listeners + [address]);
      txn.PutPromise(p);
    }
    r := M.Done(txn, Ok(200, PromiseBody(p.record)), before);
  }

  // -------------------------------------------------------------- task operations

  method TaskView(txn: Txn, t: Task) returns (r: Reply)
    ensures r == Kernel.TaskView(txn.env, txn.Val(), t)
  {
    hide Overlay, Kernel.Preload;
    var p := txn.GetPromise(t.id);
    if p.None? {
      return Panic;
    }
    var preload := [];
    if !t.state.Fulfilled? {
      preload := txn.Preload(p.value.record);
    }
    r := Ok(200, ViewBody(t.Record(), p.value.record, preload));
  }

  /** Acquire a pending task and view it. */
  method AcquireTask(txn: Txn, t: Task, pid: string, ttl: int, ghost before: Tx) returns (r: Reply)
    modifies txn, txn.store
    ensures txn.Ended(before, AcquireAndView(txn.env, old(txn.Val()), t, pid, ttl), r)
  {
    hide Overlay, Kernel.Acquire, Kernel.TaskView, CanRenew, Resolve;
    var acquired, task := M.Acquire(txn, t, pid, ttl);
    if !acquired {
      r := M.Done(txn, Err(409), before);
      return;
    }
    var view := TaskView(txn, task);
    r := M.Done(txn, view, before);
  }

  method ServeTaskAcquire(txn: Txn, id: Id, version: int, pid: string, ttl: int) returns (r: Reply)
    requires txn.IsNew()
    modifies txn, txn.store
    ensures txn.Ended(old(txn.Val()), HandleTaskAcquire(txn.env, old(txn.Val()), id, version, pid, ttl), r)
  {
    hide Overlay, Kernel.TryTimeout, AcquireAndView, Resolve;
    ghost var before := txn.Val();
    M.TryTimeout(txn, [id]);
    var task := txn.GetTask(id);
    if task.None? {
      r := M.Done(txn, Err(404), before);
    } else if !task.value.state.Pending? || task.value.version != version {
      r := M.Done(txn, Err(409), before);
    } else {
      r := AcquireTask(txn, task.value, pid, ttl, before);
    }
  }

  /** The delivered job's claim is held, or the job is claimed by id. */
  method ClaimTask(txn: Txn, t: Task, ttl: int) returns (claimed: bool)
    modifies txn, txn.store
    ensures txn.Val() == ClaimForCreate(old(txn.Val()), t, ttl) && txn.store.Durable() == old(txn.store.Durable())
    ensures claimed == (Transaction.Holds(old(txn.Val()), t.id) || (t.job.Some? && old(txn.store.queue).Claimable(t.job.value)))
  {
    hide Overlay;
    claimed := txn.Holds(t.id);
    if !claimed && t.job.Some? {
      claimed := txn.ClaimJob(t.id, t.job.value, LeaseOf(ttl));
    }
  }

  method ServeTaskCreate(txn: Txn, pid: string, ttl: int, kind: ActionKind, data: CreateData) returns (r: Reply)
    requires txn.IsNew()
    modifies txn, txn.store
    ensures txn.Ended(old(txn.Val()), HandleTaskCreate(txn.env, old(txn.Val()), pid, ttl, kind, data), r)
  {
    hide Overlay, Kernel.TryTimeout, Kernel.CreatePromise, ValidCreate, AcquireAndView, ClaimForCreate,
      Kernel.TaskView, Resolve,
      Transaction.Holds;
    ghost var before := txn.Val();
    txn.NothingWritten();
    if !kind.KindCreate? || pid == "" || ttl < 1 || !ValidCreate(txn.env, data)
       || Target !in data.tags || Delay in data.tags
    {
      r := Err(400);
      txn.Dropped(before, r);
      return;
    }
    M.TryTimeout(txn, [data.id]);
    var found := txn.GetTask(data.id);
    if found.Some? {
      match found.value.state {
        case Pending =>
          var claimed := ClaimTask(txn, found.value, ttl);
          if !claimed {
            r := M.Done(txn, Err(409), before);
          } else {
            r := AcquireTask(txn, found.value, pid, ttl, before);
          }
        case Fulfilled =>
          var view := TaskView(txn, found.value);
          r := M.Done(txn, view, before);
        case _ => r := M.Done(txn, Err(409), before);
      }
      return;
    }
    var existing := txn.GetPromise(data.id);
    if existing.Some? {
      r := M.Done(txn, Err(422), before);
      return;
    }
    var p := M.CreatePromise(txn, data, None, CreateAcquire(pid, ttl));
    var task := txn.GetTask(data.id);
    var view := Panic;
    if task.Some? {
      view := TaskView(txn, task.value);
    }
    r := M.Done(txn, view, before);
  }

  method ServeTaskRelease(txn: Txn, id: Id, version: int) returns (r: Reply)
    requires txn.IsNew()
    modifies txn, txn.store
    ensures txn.Ended(old(txn.Val()), HandleTaskRelease(old(txn.Val()), id, version), r)
  {
    hide Overlay, Kernel.TryTimeout, Resolve;
    ghost var before := txn.Val();
    M.TryTimeout(txn, [id]);
    var found := txn.GetTask(id);
    if found.None? {
      r := M.Done(txn, Err(404), before);
      return;
    }
    if !found.value.IsAcquiredAt(version) {
      r := M.Done(txn, Err(409), before);
      return;
    }
    txn.PutTask(found.value.Transition(TaskState.Pending));
    txn.FollowWith(NackHeld(id));
    r := M.Done(txn, Ok(200, NoBody), before);
  }

  method ServeTaskFulfill(txn: Txn, id: Id, version: int, kind: ActionKind, data: SettleData) returns (r: Reply)
    requires txn.IsNew() && KeyedPromises(txn.Val().db.promises)
    modifies txn, txn.store
    ensures txn.Ended(old(txn.Val()), HandleTaskFulfill(old(txn.Val()), id, version, kind, data), r)
  {
    hide Overlay, Kernel.TryTimeout, SettleIfPending, Transaction.Holds, AfterHolds, Resolve;
    ghost var before := txn.Val();
    txn.NothingWritten();
    if !kind.KindSettle? || data.id != id {
      r := Err(400);
      txn.Dropped(before, r);
      return;
    }
    M.TryTimeout(txn, [id]);
    TimeoutsKeepKeyed(before, [id]);
    var task := txn.GetTask(id);
    if task.None? {
      r := M.Done(txn, Err(404), before);
      return;
    }
    if !task.value.IsAcquiredAt(version) {
      r := M.Done(txn, Err(409), before);
      return;
    }
    var found := txn.GetPromise(id);
    if found.None? {
      r := M.Done(txn, Err(404), before);
      return;
    }
    HeldStays(txn.Val(), id);
    var held := txn.Holds(id);
    if !held {
      r := M.Done(txn, Err(409), before);
      return;
    }
    var p := SettlePending(txn, found.value, data);
    r := M.CommitSettlement(txn, id, Ok(200, PromiseBody(p.record)), before);
  }

  lemma HeldStays(tx: Tx, id: Id)
    ensures Transaction.Holds(tx, id) ==> AfterHolds(tx, id) == tx
  {
  }

  method ServeTaskGet(txn: Txn, id: Id) returns (r: Reply)
    requires txn.IsNew()
    modifies txn, txn.store
    ensures txn.Ended(old(txn.Val()), HandleTaskGet(old(txn.Val()), id), r)
  {
    hide Overlay, Kernel.TryTimeout, Resolve;
    ghost var before := txn.Val();
    M.TryTimeout(txn, [id]);
    var task := txn.GetTask(id);
    var reply := if task.Some? then Ok(200, TaskBody(task.value.Record())) else Err(404);
    r := M.Done(txn, reply, before);
  }

  method ServeTaskHalt(txn: Txn, id: Id) returns (r: Reply)
    requires txn.IsNew()
    modifies txn, txn.store
    ensures txn.Ended(old(txn.Val()), HandleTaskHalt(old(txn.Val()), id), r)
  {
    hide Overlay, Kernel.TryTimeout, Resolve;
    ghost var before := txn.Val();
    M.TryTimeout(txn, [id]);
    var found := txn.GetTask(id);
    if found.None? {
      r := M.Done(txn, Err(404), before);
      return;
    }
    match found.value.state {
      case Fulfilled => r := M.Done(txn, Err(409), before);
      case Halted => r := M.Done(txn, Ok(200, NoBody), before);
      case _ =>
        var task := found.value.Transition(TaskState.Halted);
        txn.PutTask(task);
        txn.FollowWith(Release(task.id));
        r := M.Done(txn, Ok(200, NoBody), before);
    }
  }

  method ServeTaskContinue(txn: Txn, id: Id) returns (r: Reply)
    requires txn.IsNew()
    modifies txn, txn.store
    ensures txn.Ended(old(txn.Val()), HandleTaskContinue(old(txn.Val()), id), r)
  {
    hide Overlay, Kernel.TryTimeout, Resolve;
    ghost var before := txn.Val();
    M.TryTimeout(txn, [id]);
    var found := txn.GetTask(id);
    if found.None? {
      r := M.Done(txn, Err(404), before);
      return;
    }
    if !found.value.state.Halted? {
      r := M.Done(txn, Err(409), before);
      return;
    }
    var task := found.value.Transition(TaskState.Pending);
    txn.PutTask(task);
    var waiting := false;
    if task.job.Some? {
      waiting := txn.JobExists(task.job.value);
    }
    if !waiting {
      task := txn.Dispatch(task, None);
    }
    r := M.Done(txn, Ok(200, NoBody), before);
  }

  method ServeTaskHeartbeat(txn: Txn, pid: string, beats: seq<(Id, int)>) returns (r: Reply)
    requires txn.IsNew()
    modifies txn, txn.store
    ensures txn.Ended(old(txn.Val()), Kernel.Done(Beats(old(txn.Val()), pid, beats), Ok(200, NoBody)), r)
  {
    hide Overlay, Transaction.Renew, Resolve;
    ghost var before := txn.Val();
    for i := 0 to |beats|
      invariant Beats(txn.Val(), pid, beats[i..]) == Beats(before, pid, beats)
    {
      var task := txn.GetTask(beats[i].0);
      if task.Some? && task.value.IsAcquiredAt(beats[i].1) && task.value.pid == Some(pid) && task.value.ttl.Some? {
        var _ := txn.Renew(beats[i].0, LeaseOf(task.value.ttl.value));
      }
      assert beats[i..][1..] == beats[i + 1..];
    }
    assert beats[|beats|..] == [];
    r := M.Done(txn, Ok(200, NoBody), before);
  }

  /** The ids of the promises the actions of a suspend name, or none when they are
      not valid. */
  method CheckActions(id: Id, actions: seq<SuspendAction>) returns (awaited: Option<seq<Id>>)
    ensures awaited == if ValidActions(id, actions) then Some(AwaitedIds(actions)) else None
  {
    hide ValidCallback;
    if actions == [] {
      return None;
    }
    var ids: seq<Id> := [];
    for i := 0 to |actions|
      invariant ids == AwaitedIds(actions)[..i]
      invariant forall k :: 0 <= k < i ==>
                  actions[k].kind.KindRegister? && actions[k].awaiter == id && ValidCallback(actions[k].awaited, id)
      invariant forall k, l :: 0 <= k < l < i ==> actions[k].awaited != actions[l].awaited
    {
      var a := actions[i];
      if !a.kind.KindRegister? || a.awaiter != id || !ValidCallback(a.awaited, a.awaiter) {
        return None;
      }
      if a.awaited in ids {
        var k :| 0 <= k < |ids| && ids[k] == a.awaited;
        assert actions[k].awaited == a.awaited;
        return None;
      }
      forall k | 0 <= k < i ensures actions[k].awaited != a.awaited {
        assert ids[k] == actions[k].awaited;
      }
      ids := ids + [a.awaited];
    }
    assert AwaitedIds(actions)[..|actions|] == AwaitedIds(actions);
    awaited := Some(ids);
  }

  /** `awaited` are the promises `ids` as they are stored. */
  ghost predicate ReadAs(promises: Promises, ids: seq<Id>, awaited: seq<Promise>) {
    |awaited| == |ids| && forall i :: 0 <= i < |ids| ==> ids[i] in promises && awaited[i] == promises[ids[i]]
  }

  /** Read the promises a suspend awaits; none when one is missing or no task can
      await it. */
  method ReadAwaited(txn: Txn, ids: seq<Id>) returns (awaited: Option<seq<Promise>>)
    ensures awaited.Some? <==> forall a :: a in ids ==> Awaitable(txn.Val(), a)
    ensures awaited.Some? ==> ReadAs(txn.Val().db.promises, ids, awaited.value)
  {
    hide Overlay;
    var read: seq<Promise> := [];
    for i := 0 to |ids|
      invariant ReadAs(txn.View().promises, ids[..i], read)
      invariant forall k :: 0 <= k < i ==> Awaitable(txn.Val(), ids[k])
    {
      var p := txn.GetPromise(ids[i]);
      if p.None? || !p.value.record.IsExternal() {
        assert ids[i] in ids && !Awaitable(txn.Val(), ids[i]);
        return None;
      }
      assert ids[..i + 1] == ids[..i] + [ids[i]];
      read := read + [p.value];
    }
    assert ids[..|ids|] == ids;
    awaited := Some(read);
  }

  lemma AllRead(promises: Promises, ids: seq<Id>, awaited: seq<Promise>)
    requires ReadAs(promises, ids, awaited)
    ensures forall a :: a in ids ==> a in promises
  {
  }

  lemma RegisteredOne(tx: Tx, ids: seq<Id>, awaited: seq<Promise>, awaiter: Id)
    requires KeyedPromises(tx.db.promises) && Distinct(ids) && ReadAs(tx.db.promises, ids, awaited) && ids != []
    ensures ids[0] in tx.db.promises
    ensures var tx' := AddCallback(tx, ids[0], awaiter);
            KeyedPromises(tx'.db.promises) && Distinct(ids[1..]) && ReadAs(tx'.db.promises, ids[1..], awaited[1..])
  {
  }

  lemma AddCallbacksStep(tx: Tx, ids: seq<Id>, awaiter: Id)
    requires ids != [] && forall a :: a in ids ==> a in tx.db.promises
    ensures forall a :: a in ids[1..] ==> a in AddCallback(tx, ids[0], awaiter).db.promises
    ensures AddCallbacks(tx, ids, awaiter) == AddCallbacks(AddCallback(tx, ids[0], awaiter), ids[1..], awaiter)
  {
  }

  lemma AddNoCallbacks(tx: Tx, awaiter: Id)
    ensures AddCallbacks(tx, [], awaiter) == tx
  {
  }

  /** Register the task on every promise as it was read: their ids are distinct, so
      no registration changes another's promise. */
  method RegisterAll(txn: Txn, awaited: seq<Promise>, ids: seq<Id>, awaiter: Id)
    requires KeyedPromises(txn.Val().db.promises) && Distinct(ids) && ReadAs(txn.Val().db.promises, ids, awaited)
    modifies txn`promises
    ensures forall a :: a in ids ==> a in old(txn.Val()).db.promises
    ensures txn.Val() == AddCallbacks(old(txn.Val()), ids, awaiter)
  {
    hide Overlay, KeyedPromises, Distinct, AddCallbacks;
    AllRead(txn.Val().db.promises, ids, awaited);
    for i := 0 to |ids|
      invariant KeyedPromises(txn.Val().db.promises) && Distinct(ids[i..])
      invariant ReadAs(txn.Val().db.promises, ids[i..], awaited[i..])
      invariant forall a :: a in ids[i..] ==> a in txn.Val().db.promises
      invariant AddCallbacks(txn.Val(), ids[i..], awaiter) == AddCallbacks(old(txn.Val()), ids, awaiter)
    {
      RegisteredOne(txn.Val(), ids[i..], awaited[i..], awaiter);
      AddCallbacksStep(txn.Val(), ids[i..], awaiter);
      assert ids[i..][1..] == ids[i + 1..] && awaited[i..][1..] == awaited[i + 1..];
      assert awaited[i..][0] == awaited[i];
      RegisterCallback(txn, awaited[i], awaiter);
      AllRead(txn.Val().db.promises, ids[i + 1..], awaited[i + 1..]);
    }
    assert ids[|ids|..] == [];
    AddNoCallbacks(txn.Val(), awaiter);
  }

  /** The rest of a suspend, for a task that is acquired and held. */
  ghost function SuspendOutcome(env: Env, tx: Tx, t: Task, id: Id, ids: seq<Id>): Outcome {
    if exists a :: a in ids && !Awaitable(tx, a) then Kernel.Done(tx, Err(422))
    else if exists a :: a in ids && !tx.db.promises[a].IsPending() then SuspendSettled(env, tx, t, id)
    else Outcome(SuspendTask(AddCallbacks(tx, ids, id), t), Ok(200, NoBody), CommitAck(id))
  }

  ghost function SuspendSettled(env: Env, tx: Tx, t: Task, id: Id): Outcome {
    var tx2 := PutTask(tx, t.(resumes := {}));
    Kernel.Done(tx2, if id !in tx2.db.promises then Panic
                     else Ok(300, PreloadBody(Kernel.Preload(env, tx2.db, tx2.db.promises[id].record))))
  }

  lemma SuspendCases(env: Env, tx: Tx, id: Id, version: int, actions: seq<SuspendAction>)
    requires ValidActions(id, actions)
    ensures var tx1 := Kernel.TryTimeout(tx, [id] + AwaitedIds(actions));
            HandleTaskSuspend(env, tx, id, version, actions) ==
              if id !in tx1.db.tasks then Kernel.Done(tx1, Err(404))
              else if !tx1.db.tasks[id].IsAcquiredAt(version) then Kernel.Done(tx1, Err(409))
              else if !Transaction.Holds(tx1, id) then Kernel.Done(AfterHolds(tx1, id), Err(409))
              else SuspendOutcome(env, tx1, tx1.db.tasks[id], id, AwaitedIds(actions))
  {
    hide Kernel.TryTimeout, ValidActions, AwaitedIds, AddCallbacks, Transaction.Holds, AfterHolds, Kernel.Preload,
      SuspendTask, PutTask;
  }

  lemma AwaitedAreDistinct(id: Id, actions: seq<SuspendAction>)
    requires ValidActions(id, actions)
    ensures Distinct(AwaitedIds(actions))
  {
  }

  method ServeTaskSuspend(txn: Txn, id: Id, version: int, actions: seq<SuspendAction>) returns (r: Reply)
    requires txn.IsNew() && KeyedPromises(txn.Val().db.promises)
    modifies txn, txn.store
    ensures txn.Ended(old(txn.Val()), HandleTaskSuspend(txn.env, old(txn.Val()), id, version, actions), r)
  {
    ghost var before := txn.Val();
    txn.NothingWritten();
    var checked := CheckActions(id, actions);
    if checked.None? {
      hide ValidActions, Resolve, Overlay;
      r := Err(400);
      txn.Dropped(before, r);
      return;
    }
    SuspendCases(txn.env, before, id, version, actions);
    AwaitedAreDistinct(id, actions);
    hide Overlay, Kernel.TryTimeout, HandleTaskSuspend, ValidActions, AwaitedIds, SuspendOutcome, Transaction.Holds,
      AfterHolds,
      Resolve, KeyedPromises, Distinct;
    var ids := checked.value;
    M.TryTimeout(txn, [id] + ids);
    TimeoutsKeepKeyed(before, [id] + ids);
    var found := txn.GetTask(id);
    if found.None? {
      r := M.Done(txn, Err(404), before);
      return;
    }
    if !found.value.IsAcquiredAt(version) {
      r := M.Done(txn, Err(409), before);
      return;
    }
    HeldStays(txn.Val(), id);
    var held := txn.Holds(id);
    if !held {
      r := M.Done(txn, Err(409), before);
      return;
    }
    r := SuspendHeld(txn, found.value, id, ids, before);
  }

  lemma SettledAwaited(tx: Tx, ids: seq<Id>, awaited: seq<Promise>)
    requires ReadAs(tx.db.promises, ids, awaited)
    ensures forall a :: a in ids ==> a in tx.db.promises
    ensures (exists p :: p in awaited && !p.IsPending()) <==> exists a :: a in ids && !tx.db.promises[a].IsPending()
  {
    forall a | a in ids && !tx.db.promises[a].IsPending() ensures exists p :: p in awaited && !p.IsPending() {
      var i :| 0 <= i < |ids| && ids[i] == a;
      assert awaited[i] in awaited;
    }
    forall p | p in awaited && !p.IsPending() ensures exists a :: a in ids && !tx.db.promises[a].IsPending() {
      var i :| 0 <= i < |awaited| && awaited[i] == p;
      assert ids[i] in ids;
    }
  }

  /** A suspend on a promise already settled: the task keeps running. */
  method KeepRunning(txn: Txn, t: Task, id: Id, ghost before: Tx) returns (r: Reply)
    modifies txn, txn.store
    ensures txn.Ended(before, SuspendSettled(txn.env, old(txn.Val()), t, id), r)
  {
    hide Overlay, Kernel.Preload, Resolve;
    txn.PutTask(t.(resumes := {}));
    var own := txn.GetPromise(id);
    var reply := Panic;
    if own.Some? {
      var preload := txn.Preload(own.value.record);
      reply := Ok(300, PreloadBody(preload));
    }
    r := M.Done(txn, reply, before);
  }

  method SuspendHeld(txn: Txn, t: Task, id: Id, ids: seq<Id>, ghost before: Tx) returns (r: Reply)
    requires KeyedPromises(txn.Val().db.promises) && Distinct(ids)
    requires before.staged == map[] && before.after == [] && before.now == txn.now
    requires txn.store.Durable() == (before.db, before.queue.jobs, before.sent, before.done)
    modifies txn, txn.store
    ensures txn.Ended(before, SuspendOutcome(txn.env, old(txn.Val()), t, id, ids), r)
  {
    hide Overlay, AddCallbacks, Resolve, KeyedPromises, Distinct, SuspendSettled, Awaitable, ReadAs;
    var awaited := ReadAwaited(txn, ids);
    if awaited.None? {
      r := M.Done(txn, Err(422), before);
      return;
    }
    SettledAwaited(txn.Val(), ids, awaited.value);
    if exists p | p in awaited.value :: !p.IsPending() {
      r := KeepRunning(txn, t, id, before);
      return;
    }
    RegisterAll(txn, awaited.value, ids, id);
    txn.PutTask(t.Transition(TaskState.Suspended).(resumes := {}));
    r := M.CommitSettlement(txn, id, Ok(200, NoBody), before);
  }

  /** The reply of a fence, with the promises of its task's branch. */
  method ReplyFenced(txn: Txn, id: Id, inner: Reply, ghost before: Tx) returns (r: Reply)
    modifies txn, txn.store
    ensures txn.Ended(before, FenceReply(txn.env, old(txn.Val()), id, inner), r)
  {
    hide Overlay, Kernel.Preload, Resolve;
    var own := txn.GetPromise(id);
    var reply := Panic;
    if own.Some? {
      var preload := txn.Preload(own.value.record);
      reply := Ok(200, FencedBody(inner, preload));
    }
    r := M.Done(txn, reply, before);
  }

  /** The create of a fence, or the promise that exists. */
  method FencedCreate(txn: Txn, data: CreateData) returns (inner: Reply)
    modifies txn, txn.store
    ensures txn.Val() == (if data.id in old(txn.Val()).db.promises then old(txn.Val())
                          else Kernel.CreatePromise(old(txn.Val()), data, None, CreateDispatch))
    ensures inner == PromiseReply(txn.Val(), data.id) && txn.store.Durable() == old(txn.store.Durable())
  {
    hide Overlay, Kernel.CreatePromise, CreatedRecord;
    CreateLeaves(txn.Val(), data, None, CreateDispatch);
    var existing := txn.GetPromise(data.id);
    if existing.Some? {
      return Ok(200, PromiseBody(existing.value.record));
    }
    var p := M.CreatePromise(txn, data, None, CreateDispatch);
    inner := Ok(200, PromiseBody(p.record));
  }

  method FencedSettle(txn: Txn, data: SettleData) returns (inner: Reply)
    requires KeyedPromises(txn.Val().db.promises)
    modifies txn, txn.store
    ensures txn.Val() == SettleIfPending(old(txn.Val()), data)
    ensures inner == PromiseReply(txn.Val(), data.id) && txn.store.Durable() == old(txn.store.Durable())
  {
    hide Overlay, Kernel.Settle;
    var found := txn.GetPromise(data.id);
    if found.None? {
      return Err(404);
    }
    var p := SettlePending(txn, found.value, data);
    inner := Ok(200, PromiseBody(p.record));
  }

  method ServeTaskFence(txn: Txn, id: Id, version: int, actionId: Option<Id>, body: FenceBody) returns (r: Reply)
    requires txn.IsNew() && KeyedPromises(txn.Val().db.promises)
    modifies txn, txn.store
    ensures txn.Ended(old(txn.Val()), HandleTaskFence(txn.env, old(txn.Val()), id, version, actionId, body), r)
  {
    hide Overlay, Kernel.TryTimeout, Kernel.CreatePromise, SettleIfPending, ValidCreate, OriginOf, FenceReply,
      PromiseReply,
      Resolve, KeyedPromises;
    ghost var before := txn.Val();
    txn.NothingWritten();
    if actionId.None? || actionId.value == id || OriginOf(actionId.value) != OriginOf(id) {
      r := Err(400);
      txn.Dropped(before, r);
      return;
    }
    var aid := actionId.value;
    M.TryTimeout(txn, [id, aid]);
    TimeoutsKeepKeyed(before, [id, aid]);
    var task := txn.GetTask(id);
    if task.None? {
      r := M.Done(txn, Err(404), before);
      return;
    }
    if !task.value.IsAcquiredAt(version) {
      r := M.Done(txn, Err(409), before);
      return;
    }
    match body {
      case FenceCreate(timeoutAt, param, tags) =>
        var data := CreateData(aid, timeoutAt, param, tags);
        if !ValidCreate(txn.env, data) {
          r := Err(400);
          txn.Dropped(before, r);
          return;
        }
        var inner := FencedCreate(txn, data);
        r := ReplyFenced(txn, id, inner, before);
      case FenceSettle(state, value) =>
        var inner := FencedSettle(txn, SettleData(aid, state, value));
        r := ReplyFenced(txn, id, inner, before);
      case _ =>
        r := Err(400);
        txn.Dropped(before, r);
    }
  }

  // ---------------------------------------------------------- schedule operations

  method ServeScheduleCreate(txn: Txn, id: Id, cron: string, promiseId: string, promiseTimeout: int,
                             promiseParam: Value, promiseTags: Tags) returns (r: Reply)
    requires txn.IsNew()
    modifies txn, txn.store
    ensures txn.Ended(old(txn.Val()),
                      HandleScheduleCreate(txn.env, old(txn.Val()), id, cron, promiseId, promiseTimeout, promiseParam, promiseTags),
                      r)
  {
    hide Overlay, Resolve;
    ghost var before := txn.Val();
    txn.NothingWritten();
    if id == "" || ':' in id || Target !in promiseTags || !txn.env.isUrl(promiseTags[Target]) || promiseTimeout < 0 {
      r := Err(400);
      txn.Dropped(before, r);
      return;
    }
    var existing := txn.GetSchedule(id);
    if existing.Some? {
      r := Ok(200, ScheduleBody(existing.value));
      txn.Dropped(before, r);
      return;
    }
    var next := txn.env.nextAfter(cron, txn.now);
    if next.None? {
      r := Err(400);
      txn.Dropped(before, r);
      return;
    }
    var s := ScheduleRecord(id, cron, promiseId, promiseTimeout, promiseParam, promiseTags, txn.now, next.value, None);
    txn.PutSchedule(s);
    txn.ScheduleTimer(ScheduleFire(s.id, next.value), next.value);
    r := M.Done(txn, Ok(200, ScheduleBody(s)), before);
  }

  method ServeScheduleGet(txn: Txn, id: Id) returns (r: Reply)
    requires txn.IsNew()
    modifies txn, txn.store
    ensures txn.Ended(old(txn.Val()), HandleScheduleGet(old(txn.Val()), id), r)
  {
    hide Overlay, Resolve;
    txn.NothingWritten();
    var s := txn.GetSchedule(id);
    r := if s.Some? then Ok(200, ScheduleBody(s.value)) else Err(404);
    txn.Dropped(txn.Val(), r);
  }

  method ServeScheduleDelete(txn: Txn, id: Id) returns (r: Reply)
    requires txn.IsNew()
    modifies txn, txn.store
    ensures txn.Ended(old(txn.Val()), HandleScheduleDelete(old(txn.Val()), id), r)
  {
    hide Overlay, Resolve;
    ghost var before := txn.Val();
    txn.NothingWritten();
    var s := txn.GetSchedule(id);
    if s.None? {
      r := Err(404);
      txn.Dropped(before, r);
      return;
    }
    txn.DeleteSchedule(id);
    r := M.Done(txn, Ok(200, NoBody), before);
  }

  // ----------------------------------------------------------------------- search

  method ServePromiseSearch(txn: Txn, state: Option<PromiseState>, filter: Option<Tags>, limit: Option<int>,
                            cursor: Option<Id>) returns (r: Reply)
    requires txn.IsNew()
    modifies txn, txn.store
    ensures txn.Ended(old(txn.Val()),
                      Outcome(old(txn.Val()), SearchReply(old(txn.Val()).db, PromiseSearch(state, filter, limit, cursor)), Discard), r)
  {
    hide Overlay, Resolve, Lookup, Sorted, FilterSeq, Page, PromiseFilter;
    txn.NothingWritten();
    var size := SearchLimit(limit, DEFAULT_SEARCH_LIMIT);
    r := Err(400);
    if size.Some? {
      var all := txn.Promises();
      var (page, next) := Page(FilterSeq(all, PromiseFilter(state, filter)), PromiseIdOf, cursor, size.value);
      r := Ok(200, PromisePage(page, next));
    }
    txn.Dropped(txn.Val(), r);
  }

  method ServeTaskSearch(txn: Txn, state: Option<TaskState>, limit: Option<int>, cursor: Option<Id>) returns (r: Reply)
    requires txn.IsNew()
    modifies txn, txn.store
    ensures txn.Ended(old(txn.Val()),
                      Outcome(old(txn.Val()), SearchReply(old(txn.Val()).db, TaskSearch(state, limit, cursor)), Discard), r)
  {
    hide Overlay, Resolve, LookupTasks, Sorted, FilterSeq, Page, TaskFilter;
    txn.NothingWritten();
    var size := SearchLimit(limit, DEFAULT_SEARCH_LIMIT);
    r := Err(400);
    if size.Some? {
      var all := txn.Tasks();
      var (page, next) := Page(FilterSeq(all, TaskFilter(state)), TaskIdOf, cursor, size.value);
      r := Ok(200, TaskPage(page, next));
    }
    txn.Dropped(txn.Val(), r);
  }

  method ServeScheduleSearch(txn: Txn, filter: Option<Tags>, limit: Option<int>, cursor: Option<Id>) returns (r: Reply)
    requires txn.IsNew()
    modifies txn, txn.store
    ensures txn.Ended(old(txn.Val()),
                      Outcome(old(txn.Val()), SearchReply(old(txn.Val()).db, ScheduleSearch(filter, limit, cursor)), Discard), r)
  {
    hide Overlay, Resolve, LookupSchedules, Sorted, FilterSeq, Page, ScheduleFilter;
    txn.NothingWritten();
    var size := SearchLimit(limit, DEFAULT_SCHEDULE_SEARCH_LIMIT);
    r := Err(400);
    if size.Some? {
      var all := txn.Schedules();
      var (page, next) := Page(FilterSeq(all, ScheduleFilter(filter)), ScheduleIdOf, cursor, size.value);
      r := Ok(200, SchedulePage(page, next));
    }
    txn.Dropped(txn.Val(), r);
  }

  // --------------------------------------------------------------------- dispatch

  method DispatchPromise(txn: Txn, req: Request) returns (r: Reply)
    requires req.PromiseCreate? || req.PromiseGet? || req.PromiseSettle? || req.RegisterCallback? || req.RegisterListener?
    requires txn.IsNew() && KeyedPromises(txn.Val().db.promises)
    modifies txn, txn.store
    ensures txn.Ended(old(txn.Val()), Kernel.Handle(txn.env, old(txn.Val()), req), r)
  {
    hide Txn.Ended, Txn.Val, Txn.IsNew, KeyedPromises, HandlePromiseCreate, HandlePromiseGet, HandlePromiseSettle,
      HandleRegisterCallback, HandleRegisterListener;
    match req
    case PromiseCreate(data) => r := ServePromiseCreate(txn, data);
    case PromiseGet(id) => r := ServePromiseGet(txn, id);
    case PromiseSettle(data) => r := ServePromiseSettle(txn, data);
    case RegisterCallback(awaited, awaiter) => r := ServeRegisterCallback(txn, awaited, awaiter);
    case RegisterListener(awaited, address) => r := ServeRegisterListener(txn, awaited, address);
  }

  method DispatchTask(txn: Txn, req: Request) returns (r: Reply)
    requires req.TaskCreate? || req.TaskAcquire? || req.TaskRelease? || req.TaskHalt? || req.TaskContinue? || req.TaskGet?
             || req.TaskFulfill? || req.TaskSuspend? || req.TaskFence? || req.TaskHeartbeat?
    requires txn.IsNew() && KeyedPromises(txn.Val().db.promises)
    modifies txn, txn.store
    ensures txn.Ended(old(txn.Val()), Kernel.Handle(txn.env, old(txn.Val()), req), r)
  {
    hide Txn.Ended, Txn.Val, Txn.IsNew, KeyedPromises, HandleTaskCreate, HandleTaskAcquire, HandleTaskRelease,
      HandleTaskFulfill, HandleTaskSuspend, HandleTaskFence, HandleTaskGet, HandleTaskHalt, HandleTaskContinue, Beats;
    match req
    case TaskCreate(pid, ttl, kind, data) => r := ServeTaskCreate(txn, pid, ttl, kind, data);
    case TaskAcquire(id, version, pid, ttl) => r := ServeTaskAcquire(txn, id, version, pid, ttl);
    case TaskRelease(id, version) => r := ServeTaskRelease(txn, id, version);
    case TaskFulfill(id, version, kind, data) => r := ServeTaskFulfill(txn, id, version, kind, data);
    case TaskSuspend(id, version, actions) => r := ServeTaskSuspend(txn, id, version, actions);
    case TaskFence(id, version, actionId, body) => r := ServeTaskFence(txn, id, version, actionId, body);
    case TaskHeartbeat(pid, beats) => r := ServeTaskHeartbeat(txn, pid, beats);
    case TaskGet(id) => r := ServeTaskGet(txn, id);
    case TaskHalt(id) => r := ServeTaskHalt(txn, id);
    case TaskContinue(id) => r := ServeTaskContinue(txn, id);
  }

  method DispatchOther(txn: Txn, req: Request) returns (r: Reply)
    requires IsOther(req) && txn.IsNew()
    modifies txn, txn.store
    ensures txn.Ended(old(txn.Val()), Kernel.Handle(txn.env, old(txn.Val()), req), r)
  {
    hide Txn.Ended, Txn.Val, Txn.IsNew, HandleScheduleCreate, HandleScheduleGet, HandleScheduleDelete, SearchReply;
    match req
    case PromiseSearch(state, filter, limit, cursor) => r := ServePromiseSearch(txn, state, filter, limit, cursor);
    case TaskSearch(state, limit, cursor) => r := ServeTaskSearch(txn, state, limit, cursor);
    case ScheduleCreate(id, cron, promiseId, timeout, param, tags) =>
      r := ServeScheduleCreate(txn, id, cron, promiseId, timeout, param, tags);
    case ScheduleGet(id) => r := ServeScheduleGet(txn, id);
    case ScheduleDelete(id) => r := ServeScheduleDelete(txn, id);
    case ScheduleSearch(filter, limit, cursor) => r := ServeScheduleSearch(txn, filter, limit, cursor);
  }

  /** One request, as its handler carries it out. */
  method Dispatch(txn: Txn, req: Request) returns (r: Reply)
    requires txn.IsNew() && KeyedPromises(txn.Val().db.promises)
    modifies txn, txn.store
    ensures txn.Ended(old(txn.Val()), Kernel.Handle(txn.env, old(txn.Val()), req), r)
  {
    hide Txn.Ended, Txn.Val, Txn.IsNew, KeyedPromises, Kernel.Handle;
    if IsOther(req) {
      r := DispatchOther(txn, req);
    } else if req.PromiseCreate? || req.PromiseGet? || req.PromiseSettle? || req.RegisterCallback? || req.RegisterListener? {
      r := DispatchPromise(txn, req);
    } else {
      r := DispatchTask(txn, req);
    }
  }

  lemma InvariantIsKeyed(env: Env, tx: Tx)
    requires TxInv(env, tx)
    ensures KeyedPromises(tx.db.promises)
  {
    hide TxInv;
    KeyedTasks(env, tx);
  }

  /** A store that has the invariant keeps it through a request, which is answered
      without a panic and leaves the store that the request means. */
  method Serve(store: Store, now: int, env: Env, req: Request) returns (r: Reply)
    requires env.Ok() && TxInv(env, store.Val(now))
    modifies store
    ensures TxInv(env, store.Val(now)) && !r.Panic?
    ensures var end := Resolve(old(store.Val(now)), Kernel.Handle(env, old(store.Val(now)), req), NoFault);
            store.Val(now) == end.tx && r == end.reply
  {
    hide TxInv, Kernel.Handle, HandledOk, Resolve, KeyedPromises, Overlay;
    ghost var before := store.Val(now);
    InvariantIsKeyed(env, before);
    var txn := new Txn(store, now, env);
    r := Dispatch(txn, req);
    ServedKeeps(env, before, req);
  }

  lemma ServedKeeps(env: Env, before: Tx, req: Request)
    requires env.Ok() && TxInv(env, before) && before.staged == map[] && before.after == []
    ensures var end := Resolve(before, Kernel.Handle(env, before, req), NoFault);
            TxInv(env, end.tx) && !end.reply.Panic?
  {
    hide TxInv, Kernel.Handle, HandledOk, Runs.DbMoves, Runs.JobsFresh;
    HandleOk(env, before, req);
    Runs.ResolveEnds(env, before, Kernel.Handle(env, before, req), NoFault);
    Theorems.NoPanicIn(env, before, req);
  }

  /** The same for the delivery of a claimed job. */
  method DeliverClaimed(store: Store, now: int, env: Env, claim: Claim) returns (r: Reply)
    requires TxInv(env, store.Val(now)) && !IsTimer(claim.payload)
    requires ClaimFor(claim, store.queue.jobs, store.queue.nextJob, claim.payload)
    modifies store
    ensures TxInv(env, store.Val(now))
    ensures var end := Resolve(old(store.Val(now)), Deliver(old(store.Val(now)), claim), NoFault);
            store.Val(now) == end.tx && r == end.reply
  {
    hide TxInv, Deliver, Sound, Resolve, Overlay, Runs.Ends;
    ghost var before := store.Val(now);
    var txn := new Txn(store, now, env);
    r := M.DeliverJob(txn, claim);
    NothingStaged(before);
    DeliverOk(env, before, claim);
    Runs.ResolveEnds(env, before, Deliver(before, claim), NoFault);
    EndsKeeps(env, before, store.Val(now));
  }

  lemma EndsKeeps(env: Env, tx0: Tx, tx: Tx)
    requires Runs.Ends(env, tx0, tx)
    ensures TxInv(env, tx)
  {
  }

  /** The same for a timer that has come due. */
  method FireClaimed(store: Store, now: int, env: Env, timer: Payload) returns (r: Reply)
    requires env.Ok() && TxInv(env, store.Val(now)) && IsTimer(timer) && TimerDue(store.db, timer, now)
    modifies store
    ensures TxInv(env, store.Val(now))
    ensures var end := Resolve(old(store.Val(now)), Fire(env, old(store.Val(now)), timer), NoFault);
            store.Val(now) == end.tx && r == end.reply
  {
    hide TxInv, Fire, Sound, Resolve, Overlay, Runs.Ends, TimerDue;
    ghost var before := store.Val(now);
    var txn := new Txn(store, now, env);
    r := M.FireTimer(txn, timer);
    FireOk(env, before, timer);
    Runs.ResolveEnds(env, before, Fire(env, before, timer), NoFault);
    EndsKeeps(env, before, store.Val(now));
  }
}
