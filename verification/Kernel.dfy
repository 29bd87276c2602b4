/** The protocol's transitions (src/kernel.rs, src/timers.rs) as functions of a
    transaction: what every handler reads, writes, enqueues and replies. */
module Kernel {
  import opened Records
  import opened Queues
  import opened Transaction
  import opened Text

  /** What the kernel takes from elsewhere: URL parsing, cron parsing and the
      store's preload limit. */
  datatype Env = Env(
    isUrl: string -> bool, nextAfter: (string, int) -> Option<int>, preloadLimit: nat)
  {
    /** A cron time is strictly after the time it follows, and fits the clock. */
    ghost predicate Ok() {
      forall cron, t :: nextAfter(cron, t).Some? ==> t < nextAfter(cron, t).value <= I64_MAX
    }
  }

  const DEFAULT_SEARCH_LIMIT: nat := 100
  const DEFAULT_SCHEDULE_SEARCH_LIMIT: nat := 10
  const MAX_SEARCH_LIMIT: nat := 1000

  datatype CreateData = CreateData(id: Id, timeoutAt: int, param: Value, tags: Tags)

  datatype SettleData = SettleData(id: Id, state: SettleState, value: Value)

  datatype ActionKind = KindCreate | KindSettle | KindRegister | KindOther

  datatype SuspendAction = SuspendAction(kind: ActionKind, awaited: Id, awaiter: Id)

  /** The action of a fence: its promise id, when present, and its data, which may
      not parse. */
  datatype FenceBody =
    | FenceCreate(timeoutAt: int, param: Value, tags: Tags)
    | FenceSettle(state: SettleState, value: Value)
    | FenceUnparsed
    | FenceOther

  datatype Request =
    | PromiseCreate(create: CreateData)
    | PromiseGet(id: Id)
    | PromiseSettle(settle: SettleData)
    | RegisterCallback(awaited: Id, awaiter: Id)
    | RegisterListener(awaited: Id, address: Address)
    | PromiseSearch(promiseState: Option<PromiseState>, filter: Option<Tags>, limit: Option<int>, cursor: Option<Id>)
    | TaskCreate(pid: string, ttl: int, kind: ActionKind, create: CreateData)
    | TaskAcquire(id: Id, version: int, pid: string, ttl: int)
    | TaskRelease(id: Id, version: int)
    | TaskFulfill(id: Id, version: int, kind: ActionKind, settle: SettleData)
    | TaskSuspend(id: Id, version: int, actions: seq<SuspendAction>)
    | TaskFence(id: Id, version: int, actionId: Option<Id>, body: FenceBody)
    | TaskHeartbeat(pid: string, beats: seq<(Id, int)>)
    | TaskGet(id: Id)
    | TaskHalt(id: Id)
    | TaskContinue(id: Id)
    | TaskSearch(taskState: Option<TaskState>, limit: Option<int>, cursor: Option<Id>)
    | ScheduleCreate(id: Id, cron: string, promiseId: string, promiseTimeout: int, promiseParam: Value, promiseTags: Tags)
    | ScheduleGet(id: Id)
    | ScheduleDelete(id: Id)
    | ScheduleSearch(filter: Option<Tags>, limit: Option<int>, cursor: Option<Id>)

  datatype Body =
    | NoBody
    | PromiseBody(promise: PromiseRecord)
    | TaskBody(task: TaskRecord)
    | ViewBody(task: TaskRecord, promise: PromiseRecord, preload: seq<PromiseRecord>)
    | PreloadBody(preload: seq<PromiseRecord>)
    | FencedBody(inner: Reply, preload: seq<PromiseRecord>)
    | ScheduleBody(schedule: ScheduleRecord)
    | PromisePage(promises: seq<PromiseRecord>, next: Option<Id>)
    | TaskPage(tasks: seq<TaskRecord>, next: Option<Id>)
    | SchedulePage(schedules: seq<ScheduleRecord>, next: Option<Id>)
    | ExecuteMessage(taskId: Id, version: int)
    | UnblockMessage(promise: PromiseRecord)

  /** `Panic` is a failed `expect`. */
  datatype Reply = Ok(status: int, body: Body) | Err(status: int) | Panic

  /** How a handler ends: without a commit, with a commit, or with the commit that
      acknowledges the held claim of a task. */
  datatype Mode = Discard | Commit | CommitAck(task: Id)

  datatype Outcome = Outcome(tx: Tx, reply: Reply, mode: Mode)

  function Done(tx: Tx, reply: Reply): Outcome {
    Outcome(tx, reply, Commit)
  }

  function Refuse(tx: Tx, status: int): Outcome {
    Outcome(tx, Err(status), Discard)
  }

  function LeaseOf(ttl: int): int { Max(ttl, 0) }

  // ---------------------------------------------------------------- validation

  predicate ValidDelay(data: CreateData) {
    Delay in data.tags ==>
      var delay := ParseI64(data.tags[Delay]);
      delay.Some? && 0 <= delay.value < data.timeoutAt && Target in data.tags
  }

  predicate ValidCreate(env: Env, data: CreateData) {
    && data.id != ""
    && '\0' !in data.id
    && data.timeoutAt >= 0
    && (Target in data.tags ==> env.isUrl(data.tags[Target]))
    && (Origin in data.tags ==> ':' !in data.tags[Origin] && OriginOf(data.id) == data.tags[Origin])
    && (Branch in data.tags ==> IsAncestor(data.tags[Branch], data.id))
    && (Parent in data.tags ==> IsAncestor(data.tags[Parent], data.id))
    && (Prefix in data.tags ==> ':' !in data.tags[Prefix])
    && ValidDelay(data)
  }

  predicate ValidCallback(awaited: Id, awaiter: Id) {
    && awaited != "" && awaiter != ""
    && awaited != awaiter
    && OriginOf(awaited) == OriginOf(awaiter)
  }

  // --------------------------------------------------- deadlines and settlement

  /** Record a settled awaited promise against its awaiter's task and dispatch a
      suspended task again. `fanout`: the awaited promise settled while the
      callback was registered. */
  function ResumeAwaiter(tx: Tx, awaiter: Id, awaited: Id, fanout: bool): Tx {
    if awaiter !in tx.db.tasks then tx else
      var t := tx.db.tasks[awaiter];
      match t.state
      case Suspended => Dispatch(tx, t.Transition(TaskState.Pending).(resumes := {awaited}), None)
      case Pending => PutTask(tx, t.(resumes := t.resumes + {awaited}))
      case Acquired => PutTask(tx, t.(resumes := t.resumes + {awaited}))
      case Halted => if fanout then PutTask(tx, t.(resumes := t.resumes + {awaited})) else tx
      case Fulfilled => tx
  }

  /** A registered awaiter is resumed only while its own deadline is ahead. */
  function FanoutOne(tx: Tx, awaiter: Id, awaited: Id): Tx {
    if awaiter in tx.db.promises && tx.db.promises[awaiter].IsPending()
       && tx.now < tx.db.promises[awaiter].record.timeoutAt
    then ResumeAwaiter(tx, awaiter, awaited, true)
    else tx
  }

  function Fanout(tx: Tx, callbacks: seq<Id>, awaited: Id): Tx
    decreases |callbacks|
  {
    if callbacks == [] then tx
    else Fanout(FanoutOne(tx, callbacks[0], awaited), callbacks[1..], awaited)
  }

  /** The promise's own task is fulfilled and its held claim released. */
  function FulfilOwn(tx: Tx, id: Id): Tx {
    if id in tx.db.tasks && !tx.db.tasks[id].state.Fulfilled? then
      Then(PutTask(tx, tx.db.tasks[id].Transition(TaskState.Fulfilled).(resumes := {})), Release(id))
    else tx
  }

  /** The settled record and the fulfilled task, before anyone is told. */
  function SettleRecord(tx: Tx, r: PromiseRecord): Tx {
    PutPromise(FulfilOwn(tx, r.id), Promise(r, [], []))
  }

  /** The consequences of settling `p` with the record it now has. */
  function SettleChain(tx: Tx, p: Promise): Tx {
    SendUnblocks(Fanout(SettleRecord(tx, p.record), p.callbacks, p.record.id), p.listeners, p.record)
  }

  function ExpirePromise(tx: Tx, p: Promise): Tx {
    SettleChain(tx, p.(record := p.record.Expired()))
  }

  function Settle(tx: Tx, p: Promise, state: SettleState, value: Value): Tx {
    SettleChain(tx, p.(record := p.record.SettledBy(state, value, tx.now)))
  }

  function TimeoutOne(tx: Tx, id: Id): Tx {
    if id in tx.db.promises && tx.db.promises[id].Due(tx.now) then ExpirePromise(tx, tx.db.promises[id])
    else tx
  }

  /** Settle every named promise whose deadline has passed. */
  function TryTimeout(tx: Tx, ids: seq<Id>): Tx
    decreases |ids|
  {
    if ids == [] then tx else TryTimeout(TimeoutOne(tx, ids[0]), ids[1..])
  }

  // ------------------------------------------------------------ acquire, create

  function AcquiredBy(t: Task, pid: string, ttl: int): Task {
    t.(state := TaskState.Acquired, version := t.version + 1, pid := Some(pid), ttl := Some(ttl), resumes := {})
  }

  /** The version increments and the held claim's lease is renewed; a claim that
      is not held, or not current, leaves the task as it is. */
  function Acquire(tx: Tx, t: Task, pid: string, ttl: int): Tx {
    var tx1 := Renew(tx, t.id, LeaseOf(ttl));
    if CanRenew(tx, t.id) then PutTask(tx1, AcquiredBy(t, pid, ttl)) else tx1
  }

  datatype CreateMode = CreateDispatch | CreateAcquire(pid: string, ttl: int)

  function CreatedRecord(now: int, data: CreateData, createdAt: Option<int>): PromiseRecord {
    var already := now >= data.timeoutAt;
    var created := if already then data.timeoutAt else if createdAt.Some? then createdAt.value else now;
    var r := PromiseRecord(data.id, PromiseState.Pending, data.param, EMPTY, data.tags, data.timeoutAt, created, None);
    if already then r.Expired() else r
  }

  function DelayOf(now: int, tags: Tags): Option<int> {
    if Delay in tags && ParseI64(tags[Delay]).Some? && now < ParseI64(tags[Delay]).value
    then ParseI64(tags[Delay]) else None
  }

  function CreateTask(tx: Tx, r: PromiseRecord, mode: CreateMode): Tx {
    if Target !in r.tags then tx else
      var t := NewTask(r.id, r.tags[Target], TaskState.Pending);
      if !r.state.Pending? then PutTask(tx, t.(state := TaskState.Fulfilled))
      else match mode
        case CreateAcquire(pid, ttl) =>
          var acquired := t.(state := TaskState.Acquired, version := 1, pid := Some(pid), ttl := Some(ttl));
          Then(Dispatch(tx, acquired, Some(SaturatingAdd(tx.now, ttl))),
               ClaimJob(r.id, tx.queue.nextJob, LeaseOf(ttl)))
        case CreateDispatch => Dispatch(tx, t, DelayOf(tx.now, r.tags))
  }

  function CreateTimer(tx: Tx, r: PromiseRecord): Tx {
    if r.state.Pending? && r.IsExternal() then ScheduleTimer(tx, PromiseTimeout(r.id), r.timeoutAt) else tx
  }

  /** Create a promise that does not exist. A promise whose deadline has passed is
      created in its timeout state. */
  function CreatePromise(tx: Tx, data: CreateData, createdAt: Option<int>, mode: CreateMode): Tx {
    var r := CreatedRecord(tx.now, data, createdAt);
    CreateTimer(CreateTask(PutPromise(IndexBranch(tx, r), Promise(r, [], [])), r, mode), r)
  }

  // ------------------------------------------------------------------ schedules

  function FiredPromiseId(s: ScheduleRecord): Id {
    Replace(Replace(s.promiseId, "{{.id}}", s.id), "{{.timestamp}}", IntToString(s.nextRunAt))
  }

  function FiredData(s: ScheduleRecord): CreateData {
    var id := FiredPromiseId(s);
    CreateData(id, SaturatingAdd(s.nextRunAt, s.promiseTimeout), s.promiseParam,
               s.promiseTags[Schedule := s.id][Origin := id][Branch := id][Parent := id][Prefix := id])
  }

  function CreateFired(tx: Tx, s: ScheduleRecord): Tx {
    if FiredPromiseId(s) in tx.db.promises then tx
    else CreatePromise(tx, FiredData(s), Some(s.nextRunAt), CreateDispatch)
  }

  function Advance(env: Env, s: ScheduleRecord): ScheduleRecord {
    var next := env.nextAfter(s.cron, s.nextRunAt);
    s.(lastRunAt := Some(s.nextRunAt), nextRunAt := if next.Some? then next.value else s.nextRunAt)
  }

  function ScheduleNext(env: Env, tx: Tx, s: ScheduleRecord): Tx {
    var next := env.nextAfter(s.cron, s.nextRunAt);
    if next.Some? then ScheduleTimer(tx, ScheduleFire(s.id, next.value), next.value) else tx
  }

  /** Fire a schedule at its `nextRunAt`: create its promise, unless it exists,
      and advance the schedule by one firing. */
  function FireSchedule(env: Env, tx: Tx, s: ScheduleRecord): Tx {
    PutSchedule(ScheduleNext(env, CreateFired(tx, s), s), Advance(env, s))
  }

  // -------------------------------------------------------------------- preload

  /** The ids of the index entries with the prefix of `branch`. */
  ghost function Indexed(index: set<string>, branch: string): set<Id> {
    set k | k in index && BranchKey(branch, "") <= k :: k[|branch| + 1..]
  }

  function Lookup(promises: map<Id, Promise>, ids: seq<Id>): seq<PromiseRecord> {
    if ids == [] then []
    else (if ids[0] in promises then [promises[ids[0]].record] else []) + Lookup(promises, ids[1..])
  }

  function Truncate<T>(s: seq<T>, limit: nat): seq<T> {
    if |s| <= limit then s else s[..limit]
  }

  /** The promises that share `r`'s branch, other than `r` itself, in id order and
      at most `limit` of them. */
  ghost function Preload(env: Env, db: Db, r: PromiseRecord): seq<PromiseRecord> {
    if Branch !in r.tags then []
    else Lookup(db.promises, Truncate(Sorted(Indexed(db.index, r.tags[Branch]) - {r.id}), env.preloadLimit))
  }

  ghost function TaskView(env: Env, tx: Tx, t: Task): Reply {
    if t.id !in tx.db.promises then Panic else
      var r := tx.db.promises[t.id].record;
      Ok(200, ViewBody(t.Record(), r, if t.state.Fulfilled? then [] else Preload(env, tx.db, r)))
  }

  // --------------------------------------------------------- promise operations

  function PromiseReply(tx: Tx, id: Id): Reply {
    if id in tx.db.promises then Ok(200, PromiseBody(tx.db.promises[id].record)) else Err(404)
  }

  function HandlePromiseCreate(env: Env, tx: Tx, data: CreateData): Outcome {
    if !ValidCreate(env, data) then Refuse(tx, 400) else
      var tx1 := TryTimeout(tx, [data.id]);
      var tx2 := if data.id in tx1.db.promises then tx1 else CreatePromise(tx1, data, None, CreateDispatch);
      Done(tx2, PromiseReply(tx2, data.id))
  }

  function HandlePromiseGet(tx: Tx, id: Id): Outcome {
    var tx1 := TryTimeout(tx, [id]);
    Done(tx1, PromiseReply(tx1, id))
  }

  function SettleIfPending(tx: Tx, data: SettleData): Tx {
    if data.id in tx.db.promises && tx.db.promises[data.id].IsPending()
    then Settle(tx, tx.db.promises[data.id], data.state, data.value) else tx
  }

  function HandlePromiseSettle(tx: Tx, data: SettleData): Outcome {
    var tx1 := SettleIfPending(TryTimeout(tx, [data.id]), data);
    Done(tx1, PromiseReply(tx1, data.id))
  }

  function AddCallback(tx: Tx, awaited: Id, awaiter: Id): Tx
    requires awaited in tx.db.promises
  {
    var p := tx.db.promises[awaited];
    if awaiter in p.callbacks then tx else PutPromise(tx, p.(callbacks := p.callbacks + [awaiter]))
  }

  function HandleRegisterCallback(tx: Tx, awaited: Id, awaiter: Id): Outcome {
    if !ValidCallback(awaited, awaiter) then Refuse(tx, 400) else
      var tx1 := TryTimeout(tx, [awaited, awaiter]);
      if awaited !in tx1.db.promises then Done(tx1, Err(404))
      else if awaiter !in tx1.db.promises then Done(tx1, Err(422))
      else if Target !in tx1.db.promises[awaiter].record.tags then Done(tx1, Err(422))
      else if !tx1.db.promises[awaited].record.IsExternal() then Done(tx1, Err(422))
      else
        var tx2 :=
          if !tx1.db.promises[awaiter].IsPending() then tx1
          else if tx1.db.promises[awaited].IsPending() then AddCallback(tx1, awaited, awaiter)
          else ResumeAwaiter(tx1, awaiter, awaited, false);
        Done(tx2, PromiseReply(tx2, awaited))
  }

  function AddListener(tx: Tx, awaited: Id, address: Address): Tx
    requires awaited in tx.db.promises
  {
    var p := tx.db.promises[awaited];
    if p.IsPending() && address !in p.listeners then PutPromise(tx, p.(listeners := p.listeners + [address])) else tx
  }

  function HandleRegisterListener(env: Env, tx: Tx, awaited: Id, address: Address): Outcome {
    if !env.isUrl(address) then Refuse(tx, 400) else
      var tx1 := TryTimeout(tx, [awaited]);
      if awaited !in tx1.db.promises then Done(tx1, Err(404))
      else if !tx1.db.promises[awaited].record.IsExternal() then Done(tx1, Err(422))
      else
        var tx2 := AddListener(tx1, awaited, address);
        Done(tx2, PromiseReply(tx2, awaited))
  }

  // ------------------------------------------------------------ task operations

  /** A create that names a pending task: the delivered job's claim is held, or
      the job is claimed by id from the queue. */
  function ClaimForCreate(tx: Tx, t: Task, ttl: int): Tx {
    if Holds(tx, t.id) then tx
    else if t.job.Some? then ClaimHeld(AfterHolds(tx, t.id), t.id, t.job.value, LeaseOf(ttl))
    else AfterHolds(tx, t.id)
  }

  ghost function AcquireAndView(env: Env, tx: Tx, t: Task, pid: string, ttl: int): Outcome {
    var tx1 := Acquire(tx, t, pid, ttl);
    Done(tx1, if CanRenew(tx, t.id) then TaskView(env, tx1, AcquiredBy(t, pid, ttl)) else Err(409))
  }

  ghost function HandleTaskCreate(env: Env, tx: Tx, pid: string, ttl: int, kind: ActionKind, data: CreateData): Outcome {
    if !kind.KindCreate? || pid == "" || ttl < 1 || !ValidCreate(env, data)
       || Target !in data.tags || Delay in data.tags
    then Refuse(tx, 400)
    else
      var tx1 := TryTimeout(tx, [data.id]);
      if data.id in tx1.db.tasks then
        var t := tx1.db.tasks[data.id];
        match t.state
        case Pending =>
          var tx2 := ClaimForCreate(tx1, t, ttl);
          if !Holds(tx1, t.id) && !(t.job.Some? && tx1.queue.Claimable(t.job.value)) then Done(tx2, Err(409))
          else AcquireAndView(env, tx2, t, pid, ttl)
        case Fulfilled => Done(tx1, TaskView(env, tx1, t))
        case _ => Done(tx1, Err(409))
      else if data.id in tx1.db.promises then Done(tx1, Err(422))
      else
        var tx2 := CreatePromise(tx1, data, None, CreateAcquire(pid, ttl));
        Done(tx2, if data.id in tx2.db.tasks then TaskView(env, tx2, tx2.db.tasks[data.id]) else Panic)
  }

  ghost function HandleTaskAcquire(env: Env, tx: Tx, id: Id, version: int, pid: string, ttl: int): Outcome {
    var tx1 := TryTimeout(tx, [id]);
    if id !in tx1.db.tasks then Done(tx1, Err(404))
    else if !tx1.db.tasks[id].state.Pending? || tx1.db.tasks[id].version != version then Done(tx1, Err(409))
    else AcquireAndView(env, tx1, tx1.db.tasks[id], pid, ttl)
  }

  function HandleTaskRelease(tx: Tx, id: Id, version: int): Outcome {
    var tx1 := TryTimeout(tx, [id]);
    if id !in tx1.db.tasks then Done(tx1, Err(404))
    else if !tx1.db.tasks[id].IsAcquiredAt(version) then Done(tx1, Err(409))
    else Done(Then(PutTask(tx1, tx1.db.tasks[id].Transition(TaskState.Pending)), NackHeld(id)), Ok(200, NoBody))
  }

  function HandleTaskFulfill(tx: Tx, id: Id, version: int, kind: ActionKind, data: SettleData): Outcome {
    if !kind.KindSettle? || data.id != id then Refuse(tx, 400) else
      var tx1 := TryTimeout(tx, [id]);
      if id !in tx1.db.tasks then Done(tx1, Err(404))
      else if !tx1.db.tasks[id].IsAcquiredAt(version) then Done(tx1, Err(409))
      else if id !in tx1.db.promises then Done(tx1, Err(404))
      else if !Holds(tx1, id) then Done(AfterHolds(tx1, id), Err(409))
      else
        var tx2 := SettleIfPending(tx1, data);
        Outcome(tx2, PromiseReply(tx2, id), CommitAck(id))
  }

  function AwaitedIds(actions: seq<SuspendAction>): seq<Id> {
    seq(|actions|, i requires 0 <= i < |actions| => actions[i].awaited)
  }

  predicate ValidActions(id: Id, actions: seq<SuspendAction>) {
    && actions != []
    && (forall i | 0 <= i < |actions| ::
          && actions[i].kind.KindRegister? && actions[i].awaiter == id
          && ValidCallback(actions[i].awaited, id))
    && (forall i, j | 0 <= i < j < |actions| :: actions[i].awaited != actions[j].awaited)
  }

  predicate Awaitable(tx: Tx, id: Id) {
    id in tx.db.promises && tx.db.promises[id].record.IsExternal()
  }

  function AddCallbacks(tx: Tx, awaited: seq<Id>, awaiter: Id): Tx
    requires forall a | a in awaited :: a in tx.db.promises
    decreases |awaited|
  {
    if awaited == [] then tx
    else AddCallbacks(AddCallback(tx, awaited[0], awaiter), awaited[1..], awaiter)
  }

  function SuspendTask(tx: Tx, t: Task): Tx {
    PutTask(tx, t.Transition(TaskState.Suspended).(resumes := {}))
  }

  ghost function HandleTaskSuspend(env: Env, tx: Tx, id: Id, version: int, actions: seq<SuspendAction>): Outcome {
    if !ValidActions(id, actions) then Refuse(tx, 400) else
      var awaited := AwaitedIds(actions);
      var tx1 := TryTimeout(tx, [id] + awaited);
      if id !in tx1.db.tasks then Done(tx1, Err(404))
      else if !tx1.db.tasks[id].IsAcquiredAt(version) then Done(tx1, Err(409))
      else if !Holds(tx1, id) then Done(AfterHolds(tx1, id), Err(409))
      else if exists a | a in awaited :: !Awaitable(tx1, a) then Done(tx1, Err(422))
      else
        var t := tx1.db.tasks[id];
        if exists a | a in awaited :: !tx1.db.promises[a].IsPending() then
          var tx2 := PutTask(tx1, t.(resumes := {}));
          Done(tx2, if id !in tx2.db.promises then Panic
                    else Ok(300, PreloadBody(Preload(env, tx2.db, tx2.db.promises[id].record))))
        else
          Outcome(SuspendTask(AddCallbacks(tx1, awaited, id), t), Ok(200, NoBody), CommitAck(id))
  }

  ghost function FenceReply(env: Env, tx: Tx, id: Id, inner: Reply): Outcome {
    Done(tx, if id !in tx.db.promises then Panic
             else Ok(200, FencedBody(inner, Preload(env, tx.db, tx.db.promises[id].record))))
  }

  ghost function HandleTaskFence(env: Env, tx: Tx, id: Id, version: int, actionId: Option<Id>, body: FenceBody): Outcome {
    if actionId.None? || actionId.value == id || OriginOf(actionId.value) != OriginOf(id) then Refuse(tx, 400)
    else
      var aid := actionId.value;
      var tx1 := TryTimeout(tx, [id, aid]);
      if id !in tx1.db.tasks then Done(tx1, Err(404))
      else if !tx1.db.tasks[id].IsAcquiredAt(version) then Done(tx1, Err(409))
      else match body
        case FenceCreate(timeoutAt, param, tags) =>
          var data := CreateData(aid, timeoutAt, param, tags);
          if !ValidCreate(env, data) then Refuse(tx1, 400) else
            var tx2 := if aid in tx1.db.promises then tx1 else CreatePromise(tx1, data, None, CreateDispatch);
            FenceReply(env, tx2, id, PromiseReply(tx2, aid))
        case FenceSettle(state, value) =>
          var tx2 := SettleIfPending(tx1, SettleData(aid, state, value));
          FenceReply(env, tx2, id, PromiseReply(tx2, aid))
        case _ => Refuse(tx1, 400)
  }

  function Beat(tx: Tx, pid: string, id: Id, version: int): Tx {
    if id in tx.db.tasks && tx.db.tasks[id].IsAcquiredAt(version)
       && tx.db.tasks[id].pid == Some(pid) && tx.db.tasks[id].ttl.Some?
    then Renew(tx, id, LeaseOf(tx.db.tasks[id].ttl.value)) else tx
  }

  function Beats(tx: Tx, pid: string, beats: seq<(Id, int)>): Tx
    decreases |beats|
  {
    if beats == [] then tx else Beats(Beat(tx, pid, beats[0].0, beats[0].1), pid, beats[1..])
  }

  function HandleTaskGet(tx: Tx, id: Id): Outcome {
    var tx1 := TryTimeout(tx, [id]);
    Done(tx1, if id in tx1.db.tasks then Ok(200, TaskBody(tx1.db.tasks[id].Record())) else Err(404))
  }

  function HaltTask(tx: Tx, t: Task): Tx {
    Then(PutTask(tx, t.Transition(TaskState.Halted)), Release(t.id))
  }

  function HandleTaskHalt(tx: Tx, id: Id): Outcome {
    var tx1 := TryTimeout(tx, [id]);
    if id !in tx1.db.tasks then Done(tx1, Err(404))
    else match tx1.db.tasks[id].state
      case Fulfilled => Done(tx1, Err(409))
      case Halted => Done(tx1, Ok(200, NoBody))
      case _ => Done(HaltTask(tx1, tx1.db.tasks[id]), Ok(200, NoBody))
  }

  /** A job still waiting for delivery dispatches the task; otherwise a new one. */
  function ContinueTask(tx: Tx, t: Task): Tx {
    var t1 := t.Transition(TaskState.Pending);
    var tx1 := PutTask(tx, t1);
    if t1.job.Some? && t1.job.value in tx1.queue.jobs then tx1 else Dispatch(tx1, t1, None)
  }

  function HandleTaskContinue(tx: Tx, id: Id): Outcome {
    var tx1 := TryTimeout(tx, [id]);
    if id !in tx1.db.tasks then Done(tx1, Err(404))
    else if !tx1.db.tasks[id].state.Halted? then Done(tx1, Err(409))
    else Done(ContinueTask(tx1, tx1.db.tasks[id]), Ok(200, NoBody))
  }

  // -------------------------------------------------------- schedule operations

  function HandleScheduleCreate(env: Env, tx: Tx, id: Id, cron: string, promiseId: string,
                                promiseTimeout: int, promiseParam: Value, promiseTags: Tags): Outcome {
    if id == "" || ':' in id || Target !in promiseTags || !env.isUrl(promiseTags[Target]) || promiseTimeout < 0
    then Refuse(tx, 400)
    else if id in tx.db.schedules then Outcome(tx, Ok(200, ScheduleBody(tx.db.schedules[id])), Discard)
    else
      var next := env.nextAfter(cron, tx.now);
      if next.None? then Refuse(tx, 400) else
        var s := ScheduleRecord(id, cron, promiseId, promiseTimeout, promiseParam, promiseTags, tx.now, next.value, None);
        Done(ScheduleTimer(PutSchedule(tx, s), ScheduleFire(id, next.value), next.value), Ok(200, ScheduleBody(s)))
  }

  function HandleScheduleGet(tx: Tx, id: Id): Outcome {
    Outcome(tx, if id in tx.db.schedules then Ok(200, ScheduleBody(tx.db.schedules[id])) else Err(404), Discard)
  }

  function HandleScheduleDelete(tx: Tx, id: Id): Outcome {
    if id !in tx.db.schedules then Refuse(tx, 404) else Done(DeleteSchedule(tx, id), Ok(200, NoBody))
  }

  // --------------------------------------------------------------------- search

  function SearchLimit(limit: Option<int>, default: nat): Option<nat> {
    if limit.None? then Some(default)
    else if 1 <= limit.value <= MAX_SEARCH_LIMIT then Some(limit.value) else None
  }

  predicate TagsMatch(tags: Tags, filter: Option<Tags>) {
    filter.Some? ==> forall k | k in filter.value :: k in tags && tags[k] == filter.value[k]
  }

  function FilterSeq<T>(items: seq<T>, keep: T -> bool): (r: seq<T>)
    ensures forall x | x in r :: x in items && keep(x)
    ensures forall x | x in items && keep(x) :: x in r
    ensures |r| <= |items|
  {
    if items == [] then [] else (if keep(items[0]) then [items[0]] else []) + FilterSeq(items[1..], keep)
  }

  /** One page of `items`, which are in id order: the items after `cursor`, at most
      `limit` of them, and the cursor of the next page when more remain. */
  function Page<T>(items: seq<T>, idOf: T -> Id, cursor: Option<Id>, limit: nat): (seq<T>, Option<Id>)
    requires limit > 0
  {
    var rest := FilterSeq(items, x => cursor.None? || Below(cursor.value, idOf(x)));
    if |rest| > limit then (rest[..limit], Some(idOf(rest[limit - 1]))) else (rest, None)
  }

  function LookupTasks(tasks: map<Id, Task>, ids: seq<Id>): seq<TaskRecord> {
    if ids == [] then []
    else (if ids[0] in tasks then [tasks[ids[0]].Record()] else []) + LookupTasks(tasks, ids[1..])
  }

  function LookupSchedules(schedules: map<Id, ScheduleRecord>, ids: seq<Id>): seq<ScheduleRecord> {
    if ids == [] then []
    else (if ids[0] in schedules then [schedules[ids[0]]] else []) + LookupSchedules(schedules, ids[1..])
  }

  function PromiseIdOf(p: PromiseRecord): Id { p.id }

  function TaskIdOf(t: TaskRecord): Id { t.id }

  function ScheduleIdOf(s: ScheduleRecord): Id { s.id }

  predicate PromiseMatches(p: PromiseRecord, state: Option<PromiseState>, filter: Option<Tags>) {
    (state.None? || p.state == state.value) && TagsMatch(p.tags, filter)
  }

  predicate TaskMatches(t: TaskRecord, state: Option<TaskState>) {
    state.None? || t.state == state.value
  }

  predicate ScheduleMatches(s: ScheduleRecord, filter: Option<Tags>) {
    TagsMatch(s.promiseTags, filter)
  }

  function PromiseFilter(state: Option<PromiseState>, filter: Option<Tags>): PromiseRecord -> bool {
    p => PromiseMatches(p, state, filter)
  }

  function TaskFilter(state: Option<TaskState>): TaskRecord -> bool {
    t => TaskMatches(t, state)
  }

  function ScheduleFilter(filter: Option<Tags>): ScheduleRecord -> bool {
    s => ScheduleMatches(s, filter)
  }

  /** The promises a search lists, in id order; no deadline is applied. */
  ghost function MatchingPromises(db: Db, state: Option<PromiseState>, filter: Option<Tags>): seq<PromiseRecord> {
    FilterSeq(Lookup(db.promises, Sorted(db.promises.Keys)), PromiseFilter(state, filter))
  }

  ghost function MatchingTasks(db: Db, state: Option<TaskState>): seq<TaskRecord> {
    FilterSeq(LookupTasks(db.tasks, Sorted(db.tasks.Keys)), TaskFilter(state))
  }

  ghost function MatchingSchedules(db: Db, filter: Option<Tags>): seq<ScheduleRecord> {
    FilterSeq(LookupSchedules(db.schedules, Sorted(db.schedules.Keys)), ScheduleFilter(filter))
  }

  ghost function SearchReply(db: Db, req: Request): Reply
    requires req.PromiseSearch? || req.TaskSearch? || req.ScheduleSearch?
  {
    var limit := SearchLimit(req.limit, if req.ScheduleSearch? then DEFAULT_SCHEDULE_SEARCH_LIMIT else DEFAULT_SEARCH_LIMIT);
    if limit.None? then Err(400)
    else match req
      case PromiseSearch(state, filter, _, cursor) =>
        var (page, next) := Page(MatchingPromises(db, state, filter), PromiseIdOf, cursor, limit.value);
        Ok(200, PromisePage(page, next))
      case TaskSearch(state, _, cursor) =>
        var (page, next) := Page(MatchingTasks(db, state), TaskIdOf, cursor, limit.value);
        Ok(200, TaskPage(page, next))
      case ScheduleSearch(filter, _, cursor) =>
        var (page, next) := Page(MatchingSchedules(db, filter), ScheduleIdOf, cursor, limit.value);
        Ok(200, SchedulePage(page, next))
  }

  // ------------------------------------------------------------------- dispatch

  /** One request. */
  ghost function Handle(env: Env, tx: Tx, req: Request): Outcome {
    match req
    case PromiseCreate(data) => HandlePromiseCreate(env, tx, data)
    case PromiseGet(id) => HandlePromiseGet(tx, id)
    case PromiseSettle(data) => HandlePromiseSettle(tx, data)
    case RegisterCallback(awaited, awaiter) => HandleRegisterCallback(tx, awaited, awaiter)
    case RegisterListener(awaited, address) => HandleRegisterListener(env, tx, awaited, address)
    case TaskCreate(pid, ttl, kind, data) => HandleTaskCreate(env, tx, pid, ttl, kind, data)
    case TaskAcquire(id, version, pid, ttl) => HandleTaskAcquire(env, tx, id, version, pid, ttl)
    case TaskRelease(id, version) => HandleTaskRelease(tx, id, version)
    case TaskFulfill(id, version, kind, data) => HandleTaskFulfill(tx, id, version, kind, data)
    case TaskSuspend(id, version, actions) => HandleTaskSuspend(env, tx, id, version, actions)
    case TaskFence(id, version, actionId, body) => HandleTaskFence(env, tx, id, version, actionId, body)
    case TaskHeartbeat(pid, beats) => Done(Beats(tx, pid, beats), Ok(200, NoBody))
    case TaskGet(id) => HandleTaskGet(tx, id)
    case TaskHalt(id) => HandleTaskHalt(tx, id)
    case TaskContinue(id) => HandleTaskContinue(tx, id)
    case ScheduleCreate(id, cron, promiseId, timeout, param, tags) =>
      HandleScheduleCreate(env, tx, id, cron, promiseId, timeout, param, tags)
    case ScheduleGet(id) => HandleScheduleGet(tx, id)
    case ScheduleDelete(id) => HandleScheduleDelete(tx, id)
    case PromiseSearch(_, _, _, _) => Outcome(tx, SearchReply(tx.db, req), Discard)
    case TaskSearch(_, _, _) => Outcome(tx, SearchReply(tx.db, req), Discard)
    case ScheduleSearch(_, _, _) => Outcome(tx, SearchReply(tx.db, req), Discard)
  }

  /** Deliver a claimed job. An execute job's claim is held for the task, and a
      task that was acquired when its job came back returns to pending. */
  function Deliver(tx: Tx, claim: Claim): Outcome {
    match claim.payload
    case Unblock(r) => Done(Then(tx, AckClaim(claim)), Ok(200, UnblockMessage(r)))
    case Execute(id) =>
      var tx1 := TryTimeout(tx, [id]);
      if id in tx1.db.tasks && tx1.db.tasks[id].state.Acquired? then
        Done(Then(PutTask(tx1, tx1.db.tasks[id].Transition(TaskState.Pending)), Hold(id, claim)),
             Ok(200, ExecuteMessage(id, tx1.db.tasks[id].version)))
      else if id in tx1.db.tasks && tx1.db.tasks[id].state.Pending? then
        Done(Then(tx1, Hold(id, claim)), Ok(200, ExecuteMessage(id, tx1.db.tasks[id].version)))
      else Done(Then(tx1, AckClaim(claim)), Ok(200, NoBody))
    case _ => Outcome(tx, Err(500), Discard)
  }

  /** Apply a fired timer. */
  function Fire(env: Env, tx: Tx, timer: Payload): Outcome {
    match timer
    case PromiseTimeout(id) =>
      if id in tx.db.promises && tx.db.promises[id].IsPending()
      then Done(ExpirePromise(tx, tx.db.promises[id]), Ok(200, NoBody))
      else Outcome(tx, Ok(200, NoBody), Discard)
    case ScheduleFire(id, at) =>
      if id in tx.db.schedules && tx.db.schedules[id].nextRunAt == at
      then Done(FireSchedule(env, tx, tx.db.schedules[id]), Ok(200, NoBody))
      else Outcome(tx, Ok(200, NoBody), Discard)
    case _ => Outcome(tx, Err(500), Discard)
  }
}
