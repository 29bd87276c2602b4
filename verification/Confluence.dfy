/** Expiry is confluent: the deadlines a request applies one by one, in its order
    and with repeats, have the effect of one simultaneous expiry of the set of
    named promises, up to the ids of the jobs they enqueue. */
module Confluence {
  import opened Records
  import opened Reference
  import opened Queues
  import opened Transaction
  import opened Kernel
  import opened Invariant

  function IdSet(ids: seq<Id>): set<Id> {
    set x | x in ids
  }

  // ------------------------------------------------- the simultaneous expiry

  /** The promises of `ids` whose deadline has passed. */
  predicate Expires(tx: Tx, ids: set<Id>, id: Id) {
    id in ids && id in tx.db.promises && tx.db.promises[id].Due(tx.now)
  }

  /** Whether a registered awaiter may be resumed: its own deadline is ahead. */
  predicate Awake(tx: Tx, id: Id) {
    id in tx.db.promises && tx.db.promises[id].IsPending() && tx.now < tx.db.promises[id].record.timeoutAt
  }

  /** The expiring promises that list `id`. */
  function Wakers(tx: Tx, ids: set<Id>, id: Id): set<Id> {
    set a | a in ids && a in tx.db.promises && tx.db.promises[a].Due(tx.now) && id in tx.db.promises[a].callbacks
  }

  function ExpiredPromise(tx: Tx, ids: set<Id>, id: Id): Promise
    requires id in tx.db.promises
  {
    if Expires(tx, ids, id) then Promise(Expiry(tx.db.promises[id].record), [], []) else tx.db.promises[id]
  }

  /** A task whose awaited promises `wakers` settled: dispatched again if it was
      suspended, and with the resumes recorded unless it is fulfilled. */
  function Woken(t: Task, wakers: set<Id>): Task {
    match t.state
    case Suspended => t.Transition(TaskState.Pending).(resumes := wakers)
    case Fulfilled => t
    case _ => t.(resumes := t.resumes + wakers)
  }

  /** The task after the expiry, its job aside. */
  function ExpiredTask(tx: Tx, ids: set<Id>, id: Id): Task
    requires id in tx.db.tasks
  {
    var t := tx.db.tasks[id];
    if Expires(tx, ids, id) then
      if t.state.Fulfilled? then t else t.Transition(TaskState.Fulfilled).(resumes := {})
    else if Awake(tx, id) && Wakers(tx, ids, id) != {} then Woken(t, Wakers(tx, ids, id))
    else t
  }

  /** Whether the expiry dispatches the task. */
  predicate Dispatches(tx: Tx, ids: set<Id>, id: Id) {
    && id in tx.db.tasks && tx.db.tasks[id].state.Suspended?
    && Awake(tx, id) && Wakers(tx, ids, id) != {}
  }

  function DispatchJob(t: Task): Job {
    Job(Deliveries(t.target), Execute(t.id), 0)
  }

  predicate IsUnblock(v: Job) {
    v.payload.Unblock? && v.lane.Deliveries? && v.due == 0
  }

  /** How often the expiry enqueues the job `v`: once for each task it dispatches
      and once for each listener of each promise it settles. */
  function Enqueued(tx: Tx, ids: set<Id>, v: Job): nat {
    if IsUnblock(v) then
      var r := v.payload.promise;
      if Expires(tx, ids, r.id) && Expiry(tx.db.promises[r.id].record) == r
      then multiset(tx.db.promises[r.id].listeners)[v.lane.address] else 0
    else if v.payload.Execute? && Dispatches(tx, ids, v.payload.task) && v == DispatchJob(tx.db.tasks[v.payload.task]) then 1
    else 0
  }

  // ---------------------------------------------------- what a sequence does

  /** The jobs enqueued under the ids from `lo` to `hi`. */
  function Bag(staged: map<JobId, Job>, lo: JobId, hi: JobId): multiset<Job>
    decreases hi
  {
    if hi <= lo then multiset{}
    else Bag(staged, lo, hi - 1) + (if hi - 1 in staged then multiset{staged[hi - 1]} else multiset{})
  }

  function NewJobs(tx: Tx, tx': Tx): multiset<Job> {
    Bag(tx'.staged, tx.queue.nextJob, tx'.queue.nextJob)
  }

  ghost predicate TaskMatches(tx: Tx, t: Task, t': Task, expected: Task, dispatched: bool) {
    && t' == expected.(job := t'.job)
    && (if dispatched then t'.job.Some? && t'.job.value >= tx.queue.nextJob else t'.job == t.job)
  }

  /** `tx'` is `tx` after the simultaneous expiry of `ids`. */
  ghost predicate IsExpiry(tx: Tx, ids: set<Id>, tx': Tx) {
    && tx'.now == tx.now && tx.queue.nextJob <= tx'.queue.nextJob
    && tx'.db.promises.Keys == tx.db.promises.Keys && tx'.db.tasks.Keys == tx.db.tasks.Keys
    && tx'.db.schedules == tx.db.schedules && tx'.db.index == tx.db.index
    && (forall id :: id in tx.db.promises ==> tx'.db.promises[id] == ExpiredPromise(tx, ids, id))
    && (forall id :: id in tx.db.tasks ==>
          TaskMatches(tx, tx.db.tasks[id], tx'.db.tasks[id], ExpiredTask(tx, ids, id), Dispatches(tx, ids, id)))
    && (forall v :: NewJobs(tx, tx')[v] == Enqueued(tx, ids, v))
  }

  ghost predicate Keyed(tx: Tx) {
    && (forall id :: id in tx.db.promises ==> tx.db.promises[id].record.id == id)
    && (forall id :: id in tx.db.tasks ==> tx.db.tasks[id].id == id)
  }

  lemma {:induction false} BagAgrees(a: map<JobId, Job>, b: map<JobId, Job>, lo: JobId, hi: JobId)
    requires forall j :: lo <= j < hi ==> (j in a <==> j in b) && (j in a ==> a[j] == b[j])
    ensures Bag(a, lo, hi) == Bag(b, lo, hi)
    decreases hi
  {
    if lo < hi {
      BagAgrees(a, b, lo, hi - 1);
    }
  }

  lemma StageBag(tx: Tx, job: Job, lo: JobId)
    requires lo <= tx.queue.nextJob
    ensures var tx' := Stage(tx, job);
            Bag(tx'.staged, lo, tx'.queue.nextJob) == Bag(tx.staged, lo, tx.queue.nextJob) + multiset{job}
  {
    BagAgrees(Stage(tx, job).staged, tx.staged, lo, tx.queue.nextJob);
  }

  // --------------------------------------------------------------------- unblocks

  lemma {:induction false} UnblocksBag(tx: Tx, listeners: seq<Address>, r: PromiseRecord, lo: JobId)
    requires lo <= tx.queue.nextJob
    ensures var tx' := SendUnblocks(tx, listeners, r);
            && tx'.db == tx.db && tx'.now == tx.now && tx.queue.nextJob <= tx'.queue.nextJob
            && (forall v :: Bag(tx'.staged, lo, tx'.queue.nextJob)[v] ==
                  Bag(tx.staged, lo, tx.queue.nextJob)[v]
                  + if IsUnblock(v) && v.payload.promise == r then multiset(listeners)[v.lane.address] else 0)
    decreases |listeners|
  {
    if listeners != [] {
      var mid := SendUnblock(tx, listeners[0], r);
      StageBag(tx, UnblockJob(Message(listeners[0], r)), lo);
      assert mid.staged == Stage(tx, UnblockJob(Message(listeners[0], r))).staged;
      UnblocksBag(mid, listeners[1..], r, lo);
      assert listeners == [listeners[0]] + listeners[1..];
      assert multiset(listeners) == multiset{listeners[0]} + multiset(listeners[1..]);
    }
  }

  // ---------------------------------------------------------------------- fan-out

  /** The effect of a fan-out of `awaited` on the task `id`. */
  ghost predicate FanoutTask(tx: Tx, callbacks: seq<Id>, awaited: Id, t: Task, t': Task, id: Id) {
    if id in callbacks && Awake(tx, id) then TaskMatches(tx, t, t', Woken(t, {awaited}), t.state.Suspended?) else t' == t
  }

  predicate FanoutDispatches(tx: Tx, callbacks: seq<Id>, v: Job) {
    && v.payload.Execute? && v.payload.task in tx.db.tasks && tx.db.tasks[v.payload.task].state.Suspended?
    && v.payload.task in callbacks && Awake(tx, v.payload.task) && v == DispatchJob(tx.db.tasks[v.payload.task])
  }

  /** Only tasks and staged jobs change. */
  predicate FanoutFrame(tx: Tx, tx': Tx) {
    && tx' == tx.(db := tx.db.(tasks := tx'.db.tasks), queue := tx.queue.(nextJob := tx'.queue.nextJob), staged := tx'.staged)
    && tx.queue.nextJob <= tx'.queue.nextJob && tx'.db.tasks.Keys == tx.db.tasks.Keys
  }

  ghost predicate FanoutTasks(tx: Tx, callbacks: seq<Id>, awaited: Id, tx': Tx) {
    forall id :: id in tx.db.tasks ==>
      id in tx'.db.tasks && FanoutTask(tx, callbacks, awaited, tx.db.tasks[id], tx'.db.tasks[id], id)
  }

  ghost predicate FanoutBag(tx: Tx, callbacks: seq<Id>, tx': Tx, lo: JobId) {
    forall v :: Bag(tx'.staged, lo, tx'.queue.nextJob)[v] ==
      Bag(tx.staged, lo, tx.queue.nextJob)[v] + if FanoutDispatches(tx, callbacks, v) then 1 else 0
  }

  ghost predicate IsFanout(tx: Tx, callbacks: seq<Id>, awaited: Id, tx': Tx, lo: JobId) {
    FanoutFrame(tx, tx') && FanoutTasks(tx, callbacks, awaited, tx') && FanoutBag(tx, callbacks, tx', lo)
  }

  /** The task a resumption leaves. */
  function WokenWith(tx: Tx, t: Task, awaited: Id): Task {
    Woken(t, {awaited}).(job := if t.state.Suspended? then Some(tx.queue.nextJob) else t.job)
  }

  lemma ResumeShape(tx: Tx, c: Id, awaited: Id)
    requires c in tx.db.tasks && tx.db.tasks[c].id == c
    ensures var t, tx' := tx.db.tasks[c], ResumeAwaiter(tx, c, awaited, true);
            tx' == if t.state.Suspended? then Stage(PutTask(tx, WokenWith(tx, t, awaited)), DispatchJob(t))
                   else if t.state.Fulfilled? then tx
                   else PutTask(tx, WokenWith(tx, t, awaited))
  {
  }

  lemma FanoutOneShape(tx: Tx, c: Id, awaited: Id)
    requires Keyed(tx)
    ensures var tx' := FanoutOne(tx, c, awaited);
            && FanoutFrame(tx, tx')
            && tx'.db.tasks == if c in tx.db.tasks && Awake(tx, c) then tx.db.tasks[c := WokenWith(tx, tx.db.tasks[c], awaited)] else tx.db.tasks
  {
    if c in tx.db.tasks && Awake(tx, c) {
      hide ResumeAwaiter;
      assert tx.db.tasks[c].id == c;
      ResumeShape(tx, c, awaited);
      hide Keyed;
      assert tx.db.tasks[c := WokenWith(tx, tx.db.tasks[c], awaited)].Keys == tx.db.tasks.Keys;
      assert tx.db.tasks[c].state.Fulfilled? ==> tx.db.tasks[c := tx.db.tasks[c]] == tx.db.tasks;
    }
  }

  lemma FanoutOneFrame(tx: Tx, c: Id, awaited: Id)
    requires Keyed(tx)
    ensures FanoutFrame(tx, FanoutOne(tx, c, awaited)) && Keyed(FanoutOne(tx, c, awaited))
  {
    hide FanoutOne;
    FanoutOneShape(tx, c, awaited);
  }

  lemma FanoutOneTasks(tx: Tx, c: Id, awaited: Id)
    requires Keyed(tx)
    ensures FanoutTasks(tx, [c], awaited, FanoutOne(tx, c, awaited))
  {
    hide FanoutOne;
    FanoutOneShape(tx, c, awaited);
    hide Keyed;
  }

  lemma FanoutOneBag(tx: Tx, c: Id, awaited: Id, lo: JobId)
    requires Keyed(tx) && lo <= tx.queue.nextJob
    ensures FanoutBag(tx, [c], FanoutOne(tx, c, awaited), lo)
  {
    hide Bag;
    if Awake(tx, c) && c in tx.db.tasks && tx.db.tasks[c].state.Suspended? {
      assert tx.db.tasks[c].id == c;
      var t := tx.db.tasks[c].Transition(TaskState.Pending).(resumes := {awaited});
      var mid := PutTask(tx, t.(job := Some(tx.queue.nextJob)));
      StageBag(mid, DispatchJob(t), lo);
      assert FanoutOne(tx, c, awaited) == Stage(mid, DispatchJob(t));
      assert DispatchJob(t) == DispatchJob(tx.db.tasks[c]);
    } else {
      assert FanoutOne(tx, c, awaited).staged == tx.staged && FanoutOne(tx, c, awaited).queue == tx.queue;
      assert forall v :: !FanoutDispatches(tx, [c], v);
    }
  }

  lemma FanoutTaskJoin(tx: Tx, mid: Tx, c: Id, rest: seq<Id>, awaited: Id, t: Task, t1: Task, t2: Task, id: Id)
    requires FanoutFrame(tx, mid)
    requires FanoutTask(tx, [c], awaited, t, t1, id) && FanoutTask(mid, rest, awaited, t1, t2, id)
    ensures FanoutTask(tx, [c] + rest, awaited, t, t2, id)
  {
    assert {awaited} + {awaited} == {awaited};
    assert t.resumes + {awaited} + {awaited} == t.resumes + {awaited};
    assert id in [c] + rest <==> id in [c] || id in rest;
  }

  lemma FanoutJobJoin(tx: Tx, mid: Tx, c: Id, rest: seq<Id>, awaited: Id, v: Job)
    requires FanoutFrame(tx, mid) && FanoutTasks(tx, [c], awaited, mid)
    ensures (if FanoutDispatches(tx, [c] + rest, v) then 1 else 0) ==
            (if FanoutDispatches(tx, [c], v) then 1 else 0) + (if FanoutDispatches(mid, rest, v) then 1 else 0)
  {
    if v.payload.Execute? && v.payload.task in tx.db.tasks {
      var id := v.payload.task;
      assert FanoutTask(tx, [c], awaited, tx.db.tasks[id], mid.db.tasks[id], id);
      assert id in [c] + rest <==> id in [c] || id in rest;
    }
  }

  lemma FanoutJoin(tx: Tx, mid: Tx, tx': Tx, c: Id, rest: seq<Id>, awaited: Id, lo: JobId)
    requires IsFanout(tx, [c], awaited, mid, lo) && IsFanout(mid, rest, awaited, tx', lo)
    ensures IsFanout(tx, [c] + rest, awaited, tx', lo)
  {
    hide FanoutTask, FanoutDispatches, Bag;
    forall id | id in tx.db.tasks ensures FanoutTask(tx, [c] + rest, awaited, tx.db.tasks[id], tx'.db.tasks[id], id) {
      FanoutTaskJoin(tx, mid, c, rest, awaited, tx.db.tasks[id], mid.db.tasks[id], tx'.db.tasks[id], id);
    }
    forall v ensures Bag(tx'.staged, lo, tx'.queue.nextJob)[v] ==
          Bag(tx.staged, lo, tx.queue.nextJob)[v] + if FanoutDispatches(tx, [c] + rest, v) then 1 else 0
    {
      FanoutJobJoin(tx, mid, c, rest, awaited, v);
    }
  }

  lemma {:induction false} FanoutIs(tx: Tx, callbacks: seq<Id>, awaited: Id, lo: JobId)
    requires Keyed(tx) && lo <= tx.queue.nextJob
    ensures IsFanout(tx, callbacks, awaited, Fanout(tx, callbacks, awaited), lo)
    decreases |callbacks|
  {
    if callbacks != [] {
      hide FanoutOne, FanoutTasks, FanoutBag, Keyed;
      var mid := FanoutOne(tx, callbacks[0], awaited);
      FanoutOneFrame(tx, callbacks[0], awaited);
      FanoutOneTasks(tx, callbacks[0], awaited);
      FanoutOneBag(tx, callbacks[0], awaited, lo);
      FanoutIs(mid, callbacks[1..], awaited, lo);
      FanoutJoin(tx, mid, Fanout(mid, callbacks[1..], awaited), callbacks[0], callbacks[1..], awaited, lo);
      assert callbacks == [callbacks[0]] + callbacks[1..];
    }
  }

  // ------------------------------------------------------------- one expiry

  /** The effect of the expiry of `id` alone on the task `t`. */
  ghost predicate ChainTask(tx: Tx, id: Id, t: Id, task: Task, task': Task)
    requires id in tx.db.promises
  {
    if t == id then
      task' == if task.state.Fulfilled? then task else task.Transition(TaskState.Fulfilled).(resumes := {})
    else if t in tx.db.promises[id].callbacks && Awake(tx, t) then
      TaskMatches(tx, task, task', Woken(task, {id}), task.state.Suspended?)
    else task' == task
  }

  /** How often the expiry of `id` alone enqueues `v`. */
  function ChainEnqueued(tx: Tx, id: Id, v: Job): nat
    requires id in tx.db.promises
  {
    if IsUnblock(v) then
      if v.payload.promise == tx.db.promises[id].record.Expired() then multiset(tx.db.promises[id].listeners)[v.lane.address] else 0
    else if FanoutDispatches(tx, tx.db.promises[id].callbacks, v) && v.payload.task != id then 1 else 0
  }

  ghost predicate IsChain(tx: Tx, id: Id, tx': Tx, lo: JobId)
    requires id in tx.db.promises
  {
    && tx'.now == tx.now && tx.queue.nextJob <= tx'.queue.nextJob
    && tx'.db.schedules == tx.db.schedules && tx'.db.index == tx.db.index
    && tx'.db.promises == tx.db.promises[id := Promise(tx.db.promises[id].record.Expired(), [], [])]
    && tx'.db.tasks.Keys == tx.db.tasks.Keys
    && (forall t :: t in tx.db.tasks ==> ChainTask(tx, id, t, tx.db.tasks[t], tx'.db.tasks[t]))
    && (forall v :: Bag(tx'.staged, lo, tx'.queue.nextJob)[v] == Bag(tx.staged, lo, tx.queue.nextJob)[v] + ChainEnqueued(tx, id, v))
  }

  /** The settled record and the fulfilled task of the promise `id`. */
  ghost predicate IsSettled(tx: Tx, id: Id, a: Tx)
    requires id in tx.db.promises
  {
    && a.now == tx.now && a.queue == tx.queue && a.staged == tx.staged
    && a.db.schedules == tx.db.schedules && a.db.index == tx.db.index
    && a.db.promises == tx.db.promises[id := Promise(tx.db.promises[id].record.Expired(), [], [])]
    && a.db.tasks.Keys == tx.db.tasks.Keys
    && (forall t :: t in tx.db.tasks ==>
          a.db.tasks[t] == if t == id && !tx.db.tasks[t].state.Fulfilled?
                           then tx.db.tasks[t].Transition(TaskState.Fulfilled).(resumes := {}) else tx.db.tasks[t])
  }

  lemma FulfilOwnIs(tx: Tx, id: Id)
    requires id in tx.db.tasks ==> tx.db.tasks[id].id == id
    ensures var a := FulfilOwn(tx, id);
            && a == tx.(db := tx.db.(tasks := a.db.tasks), after := a.after)
            && a.db.tasks.Keys == tx.db.tasks.Keys
            && (forall t :: t in tx.db.tasks ==>
                  a.db.tasks[t] == if t == id && !tx.db.tasks[t].state.Fulfilled?
                                   then tx.db.tasks[t].Transition(TaskState.Fulfilled).(resumes := {}) else tx.db.tasks[t])
  {
  }

  lemma SettleRecordIs(tx: Tx, id: Id)
    requires Keyed(tx) && id in tx.db.promises
    ensures IsSettled(tx, id, SettleRecord(tx, tx.db.promises[id].record.Expired()))
  {
    assert tx.db.promises[id].record.id == id && (id in tx.db.tasks ==> tx.db.tasks[id].id == id);
    hide Keyed, FulfilOwn;
    FulfilOwnIs(tx, id);
  }

  lemma SettledKeyed(tx: Tx, id: Id, a: Tx)
    requires Keyed(tx) && id in tx.db.promises && IsSettled(tx, id, a)
    ensures Keyed(a)
  {
  }

  lemma AwakeAfter(tx: Tx, id: Id, a: Tx, t: Id)
    requires id in tx.db.promises && IsSettled(tx, id, a) && tx.db.promises[id].Due(tx.now)
    ensures Awake(a, t) == Awake(tx, t) && !Awake(tx, id)
  {
  }

  lemma ChainTaskIs(tx: Tx, id: Id, a: Tx, tx': Tx, t: Id)
    requires id in tx.db.promises && IsSettled(tx, id, a) && tx.db.promises[id].Due(tx.now)
    requires t in tx.db.tasks && t in tx'.db.tasks
    requires FanoutTask(a, tx.db.promises[id].callbacks, id, a.db.tasks[t], tx'.db.tasks[t], t)
    ensures ChainTask(tx, id, t, tx.db.tasks[t], tx'.db.tasks[t])
  {
    AwakeAfter(tx, id, a, t);
  }

  lemma ChainJobIs(tx: Tx, id: Id, a: Tx, v: Job)
    requires id in tx.db.promises && IsSettled(tx, id, a) && tx.db.promises[id].Due(tx.now)
    ensures FanoutDispatches(a, tx.db.promises[id].callbacks, v) ==
            (FanoutDispatches(tx, tx.db.promises[id].callbacks, v) && v.payload.task != id)
  {
    if v.payload.Execute? {
      AwakeAfter(tx, id, a, v.payload.task);
    }
  }

  lemma ExpireIs(tx: Tx, id: Id, lo: JobId)
    requires Keyed(tx) && id in tx.db.promises && tx.db.promises[id].Due(tx.now) && lo <= tx.queue.nextJob
    ensures IsChain(tx, id, ExpirePromise(tx, tx.db.promises[id]), lo)
  {
    hide Keyed, SettleRecord, FanoutTask, FanoutDispatches, Bag, ChainTask;
    var p := tx.db.promises[id];
    var r := p.record.Expired();
    var a := SettleRecord(tx, r);
    SettleRecordIs(tx, id);
    SettledKeyed(tx, id, a);
    assert r.id == id by { KeyedPromise(tx, id); }
    var b := Fanout(a, p.callbacks, id);
    FanoutIs(a, p.callbacks, id, lo);
    var c := SendUnblocks(b, p.listeners, r);
    UnblocksBag(b, p.listeners, r, lo);
    assert c == ExpirePromise(tx, p);
    forall t | t in tx.db.tasks ensures ChainTask(tx, id, t, tx.db.tasks[t], c.db.tasks[t]) {
      ChainTaskIs(tx, id, a, b, t);
    }
    forall v ensures Bag(c.staged, lo, c.queue.nextJob)[v] == Bag(tx.staged, lo, tx.queue.nextJob)[v] + ChainEnqueued(tx, id, v) {
      ChainEnqueuedIs(tx, id, a, v);
    }
  }

  lemma ChainEnqueuedIs(tx: Tx, id: Id, a: Tx, v: Job)
    requires id in tx.db.promises && IsSettled(tx, id, a) && tx.db.promises[id].Due(tx.now)
    ensures var p := tx.db.promises[id];
            ChainEnqueued(tx, id, v) ==
            (if FanoutDispatches(a, p.callbacks, v) then 1 else 0)
            + if IsUnblock(v) && v.payload.promise == p.record.Expired() then multiset(p.listeners)[v.lane.address] else 0
  {
    ChainJobIs(tx, id, a, v);
  }

  lemma KeyedPromise(tx: Tx, id: Id)
    requires Keyed(tx) && id in tx.db.promises
    ensures tx.db.promises[id].record.id == id
  {
  }

  // ------------------------------------------------- one more named promise

  lemma WakersGrow(tx: Tx, ids: set<Id>, id: Id, t: Id)
    requires id in tx.db.promises && tx.db.promises[id].Due(tx.now)
    ensures Wakers(tx, ids + {id}, t) == Wakers(tx, ids, t) + (if t in tx.db.promises[id].callbacks then {id} else {})
  {
  }

  /** A promise that does not expire adds nothing. */
  lemma NothingToExpire(tx: Tx, ids: set<Id>, id: Id, tx': Tx)
    requires IsExpiry(tx, ids, tx') && (id in ids || id !in tx.db.promises || !tx.db.promises[id].Due(tx.now))
    ensures IsExpiry(tx, ids + {id}, tx')
  {
    if id in ids {
      assert ids + {id} == ids;
    } else {
      hide TaskMatches, Bag, Woken;
      assert forall t :: Wakers(tx, ids + {id}, t) == Wakers(tx, ids, t);
      assert forall x :: Expires(tx, ids + {id}, x) == Expires(tx, ids, x);
      hide Wakers, Expires;
      assert forall t :: t in tx.db.tasks ==> ExpiredTask(tx, ids + {id}, t) == ExpiredTask(tx, ids, t);
      assert forall t :: Dispatches(tx, ids + {id}, t) == Dispatches(tx, ids, t);
      assert forall p :: p in tx.db.promises ==> ExpiredPromise(tx, ids + {id}, p) == ExpiredPromise(tx, ids, p);
      hide ExpiredTask, Dispatches, ExpiredPromise;
      assert forall v :: Enqueued(tx, ids + {id}, v) == Enqueued(tx, ids, v);
    }
  }

  lemma AwakeStays(tx: Tx, ids: set<Id>, mid: Tx, t: Id)
    requires IsExpiry(tx, ids, mid)
    ensures Awake(mid, t) == Awake(tx, t)
  {
    hide TaskMatches, ExpiredTask, Bag, Enqueued, Dispatches;
  }

  lemma TaskStep(tx: Tx, ids: set<Id>, id: Id, mid: Tx, t: Id, t0: Task, t1: Task, t2: Task)
    requires id in tx.db.promises && tx.db.promises[id].Due(tx.now) && id !in ids
    requires id in mid.db.promises && mid.db.promises[id] == tx.db.promises[id]
    requires tx.queue.nextJob <= mid.queue.nextJob && Awake(mid, t) == Awake(tx, t)
    requires t in tx.db.tasks && tx.db.tasks[t] == t0
    requires TaskMatches(tx, t0, t1, ExpiredTask(tx, ids, t), Dispatches(tx, ids, t))
    requires ChainTask(mid, id, t, t1, t2)
    ensures TaskMatches(tx, t0, t2, ExpiredTask(tx, ids + {id}, t), Dispatches(tx, ids + {id}, t))
  {
    WakersGrow(tx, ids, id, t);
    hide Wakers;
    var w, w' := Wakers(tx, ids, t), Wakers(tx, ids + {id}, t);
    assert Expires(tx, ids + {id}, t) == (Expires(tx, ids, t) || t == id);
    if t == id {
      assert !Expires(tx, ids, t) && !Awake(tx, t);
    } else if Expires(tx, ids, t) {
      assert !Awake(tx, t);
    } else if t in tx.db.promises[id].callbacks && Awake(tx, t) {
      assert t0.resumes + w + {id} == t0.resumes + w';
      assert w == {} ==> w' == {id};
    } else {
      assert Awake(tx, t) ==> w' == w;
    }
  }

  lemma UnblockStep(tx: Tx, ids: set<Id>, id: Id, mid: Tx, v: Job)
    requires Keyed(tx) && id in tx.db.promises && tx.db.promises[id].Due(tx.now) && id !in ids
    requires id in mid.db.promises && mid.db.promises[id] == tx.db.promises[id] && IsUnblock(v)
    ensures Enqueued(tx, ids + {id}, v) == Enqueued(tx, ids, v) + ChainEnqueued(mid, id, v)
  {
    assert tx.db.promises[id].record.id == id;
    hide Keyed;
  }

  lemma JobStep(tx: Tx, ids: set<Id>, id: Id, mid: Tx, v: Job)
    requires Keyed(tx) && id in tx.db.promises && tx.db.promises[id].Due(tx.now) && id !in ids
    requires IsExpiry(tx, ids, mid) && id in mid.db.promises && mid.db.promises[id] == tx.db.promises[id]
    ensures Enqueued(tx, ids + {id}, v) == Enqueued(tx, ids, v) + ChainEnqueued(mid, id, v)
  {
    if IsUnblock(v) {
      hide IsExpiry;
      UnblockStep(tx, ids, id, mid, v);
    } else if v.payload.Execute? {
      ExecuteStep(tx, ids, id, mid, v);
    }
  }

  lemma ExecuteStep(tx: Tx, ids: set<Id>, id: Id, mid: Tx, v: Job)
    requires Keyed(tx) && id in tx.db.promises && tx.db.promises[id].Due(tx.now) && id !in ids
    requires IsExpiry(tx, ids, mid) && id in mid.db.promises && mid.db.promises[id] == tx.db.promises[id]
    requires v.payload.Execute?
    ensures Enqueued(tx, ids + {id}, v) == Enqueued(tx, ids, v) + ChainEnqueued(mid, id, v)
  {
    hide Bag, Wakers, ExpiredPromise;
    var t := v.payload.task;
    WakersGrow(tx, ids, id, t);
    AwakeStays(tx, ids, mid, t);
    if t in tx.db.tasks {
      assert TaskMatches(tx, tx.db.tasks[t], mid.db.tasks[t], ExpiredTask(tx, ids, t), Dispatches(tx, ids, t));
      assert mid.db.tasks[t].target == tx.db.tasks[t].target && mid.db.tasks[t].id == tx.db.tasks[t].id;
    }
  }

  /** The expiry of one more promise. */
  lemma ExpireOneMore(tx: Tx, ids: set<Id>, id: Id, mid: Tx, tx': Tx)
    requires Keyed(tx) && id in tx.db.promises && tx.db.promises[id].Due(tx.now) && id !in ids
    requires IsExpiry(tx, ids, mid) && id in mid.db.promises && mid.db.promises[id] == tx.db.promises[id]
    requires IsChain(mid, id, tx', tx.queue.nextJob)
    ensures IsExpiry(tx, ids + {id}, tx')
  {
    hide TaskMatches, Bag, ChainTask, ExpiredTask, Dispatches, Enqueued, ChainEnqueued, Keyed, Awake;
    forall t | t in tx.db.tasks
      ensures TaskMatches(tx, tx.db.tasks[t], tx'.db.tasks[t], ExpiredTask(tx, ids + {id}, t), Dispatches(tx, ids + {id}, t))
    {
      AwakeStays(tx, ids, mid, t);
      TaskStep(tx, ids, id, mid, t, tx.db.tasks[t], mid.db.tasks[t], tx'.db.tasks[t]);
    }
    forall v ensures NewJobs(tx, tx')[v] == Enqueued(tx, ids + {id}, v) {
      JobStep(tx, ids, id, mid, v);
    }
  }

  lemma ExpiryKeyed(tx: Tx, ids: set<Id>, mid: Tx)
    requires Keyed(tx) && IsExpiry(tx, ids, mid)
    ensures Keyed(mid)
  {
    hide Bag, Enqueued, Wakers, Awake;
  }

  lemma NothingExpires(tx: Tx)
    ensures IsExpiry(tx, {}, tx)
  {
    assert forall t :: Wakers(tx, {}, t) == {};
  }

  lemma {:induction false} TryTimeoutFrom(tx: Tx, ids: set<Id>, mid: Tx, rest: seq<Id>)
    requires Keyed(tx) && IsExpiry(tx, ids, mid)
    ensures IsExpiry(tx, ids + IdSet(rest), TryTimeout(mid, rest))
    decreases |rest|
  {
    hide Bag, Enqueued, Wakers, Awake, TaskMatches, Keyed, ExpirePromise;
    if rest == [] {
      assert ids + IdSet(rest) == ids;
    } else {
      var id := rest[0];
      var next := TimeoutOne(mid, id);
      ExpiryKeyed(tx, ids, mid);
      if id in tx.db.promises && tx.db.promises[id].Due(tx.now) && id !in ids {
        ExpireIs(mid, id, tx.queue.nextJob);
        ExpireOneMore(tx, ids, id, mid, next);
      } else {
        assert next == mid;
        NothingToExpire(tx, ids, id, mid);
      }
      TryTimeoutFrom(tx, ids + {id}, next, rest[1..]);
      assert rest == [id] + rest[1..];
      assert ids + {id} + IdSet(rest[1..]) == ids + IdSet(rest);
    }
  }

  // ------------------------------------------------------------------ the theorems

  /** Applying deadlines one by one is the simultaneous expiry of the named set. */
  lemma TryTimeoutIsExpiry(tx: Tx, ids: seq<Id>)
    requires Keyed(tx)
    ensures IsExpiry(tx, IdSet(ids), TryTimeout(tx, ids))
  {
    hide IsExpiry, Keyed;
    NothingExpires(tx);
    TryTimeoutFrom(tx, {}, tx, ids);
    assert {} + IdSet(ids) == IdSet(ids);
  }

  /** Two states with the same records, up to the ids of the jobs tasks name. */
  ghost predicate SameRecords(db: Db, db': Db) {
    && db'.promises == db.promises && db'.schedules == db.schedules && db'.index == db.index
    && db'.tasks.Keys == db.tasks.Keys
    && (forall id :: id in db.tasks ==> db'.tasks[id] == db.tasks[id].(job := db'.tasks[id].job))
  }

  /** Order and repeats do not matter: the same set of named promises gives the
      same records and the same multiset of enqueued jobs, up to fresh job ids. */
  lemma ExpiryIsConfluent(tx: Tx, ids: seq<Id>, ids': seq<Id>)
    requires Keyed(tx) && IdSet(ids) == IdSet(ids')
    ensures SameRecords(TryTimeout(tx, ids).db, TryTimeout(tx, ids').db)
    ensures NewJobs(tx, TryTimeout(tx, ids)) == NewJobs(tx, TryTimeout(tx, ids'))
    ensures forall id :: id in tx.db.tasks && !Dispatches(tx, IdSet(ids), id) ==>
              id in TryTimeout(tx, ids).db.tasks && id in TryTimeout(tx, ids').db.tasks
              && TryTimeout(tx, ids).db.tasks[id] == TryTimeout(tx, ids').db.tasks[id]
  {
    hide Bag, Enqueued, Wakers, Awake, Keyed, TryTimeout, Dispatches, ExpiredTask, ExpiredPromise;
    TryTimeoutIsExpiry(tx, ids);
    TryTimeoutIsExpiry(tx, ids');
    var a, b := TryTimeout(tx, ids), TryTimeout(tx, ids');
    assert NewJobs(tx, a) == NewJobs(tx, b);
  }

  /** A task suspended on expiring promises, whose own deadline is ahead, becomes
      pending with all of them in its resumes and is dispatched exactly once. */
  lemma ExpiryDispatchesOnce(tx: Tx, ids: seq<Id>, id: Id)
    requires Keyed(tx) && Dispatches(tx, IdSet(ids), id)
    ensures var tx' := TryTimeout(tx, ids);
            && id in tx'.db.tasks && tx'.db.tasks[id].state.Pending?
            && tx'.db.tasks[id].resumes == Wakers(tx, IdSet(ids), id)
            && tx'.db.tasks[id].version == tx.db.tasks[id].version
            && NewJobs(tx, tx')[DispatchJob(tx.db.tasks[id])] == 1
  {
    hide Bag, TryTimeout, Wakers;
    TryTimeoutIsExpiry(tx, ids);
  }
}
