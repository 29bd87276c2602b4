/** What the requests of a client leave and reply, in terms of the request and the
    records it found: creations, settlements, reads and the state of tasks. */
module Answers {
  import opened Records
  import opened Reference
  import opened Queues
  import opened Transaction
  import opened Text
  import opened Kernel
  import opened Invariant
  import opened Steps
  import opened Operations
  import opened Handlers
  import opened Worlds
  import opened Commits
  import opened Runs
  import opened Theorems
  import opened Closings
  import opened Endings
  import Confluence
  import Lineage

  // -------------------------------------------------------- requests and replies

  /** The store after a request that runs to its end, and its reply. */
  ghost function Asked(env: Env, w: World, req: Request): World {
    Next(env, w, Serve(req, NoFault))
  }

  ghost function Answer(env: Env, w: World, req: Request): Reply {
    ReplyTo(env, w, req, NoFault)
  }

  /** A request that commits and leaves no work for later. */
  lemma PlainCommit(env: Env, w: World, req: Request)
    requires var out := Handle(env, Begin(w), req); out.mode.Commit? && out.tx.after == []
    ensures var out := Handle(env, Begin(w), req);
            && Answer(env, w, req) == out.reply
            && Asked(env, w, req) ==
                 w.(db := out.tx.db, queue := out.tx.queue.(jobs := AllJobs(out.tx)), held := out.tx.held, sent := out.tx.sent)
  {
    hide Handle;
  }

  /** The reply and the records of a request that commits. */
  lemma CommittedAnswer(env: Env, w: World, req: Request)
    requires Handle(env, Begin(w), req).mode.Commit?
    ensures Answer(env, w, req) == Handle(env, Begin(w), req).reply
    ensures Asked(env, w, req).db == Handle(env, Begin(w), req).tx.db
  {
    hide Handle;
    CommitsWhole(Begin(w), Handle(env, Begin(w), req));
    hide Finish, Committed;
  }

  lemma AskedKeeps(env: Env, w: World, req: Request)
    requires env.Ok() && WorldInv(env, w)
    ensures WorldInv(env, Asked(env, w, req))
  {
    hide WorldInv, Moves, Next;
    StepInv(env, w, Serve(req, NoFault)) by { assert Enabled(w, Serve(req, NoFault)); }
  }

  /** The deadline of a task that is not fulfilled is ahead, or its promise is due. */
  lemma OpenDeadline(env: Env, w: World, id: Id)
    requires WorldInv(env, w) && id in w.db.tasks && !w.db.tasks[id].state.Fulfilled?
    ensures id in w.db.promises && w.db.promises[id].IsPending() && w.db.tasks[id].id == id
    ensures w.db.promises[id].Due(w.now) <==> !DeadlineAhead(w, id)
  {
    assert id in w.db.promises && w.db.promises[id].IsPending() by { WorldAgrees(env, w, id); }
    hide TxInv, InflightOk, AckingOk;
    TaskKey(env, Begin(w), id);
  }

  lemma OpenOrClosed(env: Env, w: World, id: Id)
    requires WorldInv(env, w) && id in w.db.tasks
    ensures id in w.db.promises
    ensures w.db.tasks[id].state.Fulfilled? || DeadlineAhead(w, id) || w.db.promises[id].Due(w.now)
  {
    hide WorldInv;
    WorldAgrees(env, w, id);
  }

  /** A task is fulfilled after the deadlines of a request that names it, if it was or
      if its deadline has passed. */
  lemma ClosedIsFulfilled(env: Env, tx: Tx, ids: seq<Id>, id: Id)
    requires Fresh(env, tx) && id in ids && id in tx.db.tasks && id in tx.db.promises
    requires tx.db.tasks[id].state.Fulfilled? || tx.db.promises[id].Due(tx.now)
    ensures id in TryTimeout(tx, ids).db.tasks && TryTimeout(tx, ids).db.tasks[id].state.Fulfilled?
  {
    hide TxInv, TryTimeout, Calm, Evolves, Steady;
    var tx1 := TryTimeout(tx, ids);
    TimeoutSound(env, tx, ids);
    EvolvesParts(tx, tx1);
    assert PromiseEvolves(tx.db.promises[id], tx1.db.promises[id], tx.now);
    OpenTask(env, tx, id);
    CalmTask(tx, tx1, id);
    SettledTask(env, tx, ids, id);
  }

  lemma NoTaskAfter(env: Env, tx: Tx, ids: seq<Id>, id: Id)
    requires Fresh(env, tx) && id !in tx.db.tasks
    ensures id !in TryTimeout(tx, ids).db.tasks
  {
    hide TxInv, TryTimeout, Evolves, Steady;
    TimeoutSound(env, tx, ids);
    CalmTask(tx, TryTimeout(tx, ids), id);
  }

  /** A request that commits, and then does the work it left for later. */
  lemma CommitIs(env: Env, w: World, req: Request)
    requires Handle(env, Begin(w), req).mode.Commit?
    ensures var out := Handle(env, Begin(w), req);
            var end := Finish(Committed(out.tx), |out.tx.after|);
            && Answer(env, w, req) == out.reply
            && Asked(env, w, req) == w.(db := out.tx.db, queue := end.queue, held := end.held, sent := end.sent)
  {
    hide Handle;
    CommitsWhole(Begin(w), Handle(env, Begin(w), req));
    hide Finish, Committed;
  }

  lemma LeasesAreOfJobs(env: Env, w: World)
    requires WorldInv(env, w)
    ensures w.queue.leases.Keys <= w.queue.jobs.Keys && forall j :: j in w.queue.jobs ==> j < w.queue.nextJob
  {
    hide Keyed, Agree, PromisesOk, CallbacksOk, ResumesOk, TimersOk, SchedulesOk, IndexOk, SentOk, HeldOk,
      AllJobs, InflightOk, AckingOk, TaskJobOk;
    NothingStaged(Begin(w));
  }

  // --------------------------------------------------------------------- deadlines

  /** Promise `a` exists and a task can await it. */
  predicate IsAwaitable(w: World, a: Id) {
    a in w.db.promises && CanBeAwaited(w.db.promises[a].record.tags)
  }

  /** Promise `a` is pending and its deadline is ahead. */
  predicate IsAhead(w: World, a: Id) {
    a in w.db.promises && w.db.promises[a].record.state.Pending? && w.now < w.db.promises[a].record.timeoutAt
  }

  /** The record of promise `a` as a request that names it finds it. */
  function Shown(w: World, a: Id): PromiseRecord
    requires a in w.db.promises
  {
    var r := w.db.promises[a].record;
    if r.state.Pending? && w.now >= r.timeoutAt then Expiry(r) else r
  }

  /** What the deadlines of a request leave of the promises it names and of the task
      of a pending promise. */
  lemma AfterDeadlines(env: Env, w: World, ids: seq<Id>)
    requires WorldInv(env, w)
    ensures var tx1 := TryTimeout(Begin(w), ids);
            && tx1.now == w.now && tx1.held == w.held && tx1.queue.leases == w.queue.leases
            && tx1.db.promises.Keys == w.db.promises.Keys && tx1.db.tasks.Keys == w.db.tasks.Keys
            && (forall a :: a in w.db.promises ==>
                  && tx1.db.promises[a].record.id == a && tx1.db.promises[a].record.tags == w.db.promises[a].record.tags
                  && (a in ids ==> (tx1.db.promises[a].IsPending() <==> IsAhead(w, a)))
                  && (a in ids ==> tx1.db.promises[a].record == Shown(w, a))
                  && (IsAhead(w, a) ==> tx1.db.promises[a] == w.db.promises[a]))
            && (forall t :: t in w.db.tasks && w.db.tasks[t].state.Acquired? && IsAhead(w, t) ==>
                  tx1.db.tasks[t] == w.db.tasks[t].(resumes := tx1.db.tasks[t].resumes))
  {
    hide TxInv, InflightOk, AckingOk, TryTimeout, Calm, Evolves, Steady, Confluence.Bag, Confluence.Enqueued, Confluence.Wakers;
    var tx := Begin(w);
    TimeoutSound(env, tx, ids);
    CalmNow(tx, TryTimeout(tx, ids));
    assert Confluence.Keyed(tx) by { KeyedTasks(env, tx); }
    Confluence.TryTimeoutIsExpiry(tx, ids);
  }

  /** A task that is not acquired at the version, or whose deadline has passed, is not
      acquired at it after the deadlines of a request that names it. */
  lemma NotAcquired(env: Env, w: World, ids: seq<Id>, id: Id, version: int)
    requires WorldInv(env, w) && id in ids
    requires !(id in w.db.tasks && w.db.tasks[id].IsAcquiredAt(version) && DeadlineAhead(w, id))
    ensures var tx1 := TryTimeout(Begin(w), ids); !(id in tx1.db.tasks && tx1.db.tasks[id].IsAcquiredAt(version))
  {
    if id in w.db.tasks && w.db.tasks[id].IsAcquiredAt(version) {
      OpenDeadline(env, w, id);
    }
    hide TxInv, InflightOk, AckingOk, TryTimeout;
    NotAcquiredAfter(env, Begin(w), ids, id, version);
  }

  lemma NotAcquiredAfter(env: Env, tx: Tx, ids: seq<Id>, id: Id, version: int)
    requires Fresh(env, tx) && id in ids
    requires id in tx.db.tasks && tx.db.tasks[id].IsAcquiredAt(version) ==> id in tx.db.promises && tx.db.promises[id].Due(tx.now)
    ensures var tx1 := TryTimeout(tx, ids); !(id in tx1.db.tasks && tx1.db.tasks[id].IsAcquiredAt(version))
  {
    hide Fresh, TryTimeout, Evolves, Calm, Steady;
    var tx1 := TryTimeout(tx, ids);
    TimeoutSound(env, tx, ids);
    if id in tx1.db.tasks && tx1.db.tasks[id].IsAcquiredAt(version) {
      AcquiredStays(tx, tx1, id);
      ClosedIsFulfilled(env, tx, ids, id);
    }
  }

  // ------------------------------------------------------------------- settlements

  /** What the settlement of an open promise leaves of its record, and the reply. */
  ghost predicate SettlesTo(w: World, w': World, reply: Reply, data: SettleData)
    requires data.id in w.db.promises
  {
    var r := Settlement(w.db.promises[data.id].record, data.state, data.value, w.now);
    w'.db.promises == w.db.promises[data.id := Promise(r, [], [])] && reply == Ok(200, PromiseBody(r))
  }

  lemma SettledAs(env: Env, w: World, data: SettleData)
    requires WorldInv(env, w) && data.id in w.db.promises && w.db.promises[data.id].IsPending()
    ensures var tx' := SettleIfPending(Begin(w), data);
            var r := Settlement(w.db.promises[data.id].record, data.state, data.value, w.now);
            && tx'.db.promises == w.db.promises[data.id := Promise(r, [], [])]
            && PromiseReply(tx', data.id) == Ok(200, PromiseBody(r))
            && tx'.now == w.now && tx'.held == w.held && tx'.queue.leases == w.queue.leases
  {
    var tx, id := Begin(w), data.id;
    hide TxInv, InflightOk, AckingOk, SettleChain, KeyedBy, Calm;
    KeyedTasks(env, tx);
    var p := tx.db.promises[id].(record := tx.db.promises[id].record.SettledBy(data.state, data.value, tx.now));
    SettleChainCalm(tx, p);
    CalmNow(tx, SettleChain(tx, p));
  }

  lemma SettledIsFulfilled(env: Env, w: World, req: Request, id: Id)
    requires env.Ok() && WorldInv(env, w) && id in w.db.tasks
    ensures var w' := Asked(env, w, req);
            id in w'.db.promises && !w'.db.promises[id].IsPending() ==> id in w'.db.tasks && w'.db.tasks[id].state.Fulfilled?
  {
    hide WorldInv, Moves, Next;
    StepInv(env, w, Serve(req, NoFault)) by { assert Enabled(w, Serve(req, NoFault)); }
    WorldAgrees(env, Asked(env, w, req), id);
    TaskStays(w, Asked(env, w, req), id);
  }

  // --------------------------------------------------------------------- creations

  lemma CreatedIs(now: int, data: CreateData, createdAt: Option<int>)
    ensures CreatedRecord(now, data, createdAt) ==
              Creation(data.id, data.timeoutAt, data.param, data.tags, if createdAt.Some? then createdAt.value else now, now)
  {
  }

  /** The task a new promise starts with, and the due time of its job. */
  function StartedTask(data: CreateData, mode: CreateMode, open: bool, n: JobId): Task
    requires Target in data.tags
  {
    var target := data.tags[Target];
    if !open then Task(data.id, TaskState.Fulfilled, 0, target, None, None, None, {})
    else match mode
      case CreateDispatch => Task(data.id, TaskState.Pending, 0, target, Some(n), None, None, {})
      case CreateAcquire(pid, ttl) => Task(data.id, TaskState.Acquired, 1, target, Some(n), Some(pid), Some(ttl), {})
  }

  function StartedDue(tags: Tags, mode: CreateMode, now: int): int {
    match mode
    case CreateAcquire(_, ttl) => Max(Clamp(now + ttl), 0)
    case CreateDispatch =>
      if Delay in tags && ParseI64(tags[Delay]).Some? && now < ParseI64(tags[Delay]).value
      then Max(ParseI64(tags[Delay]).value, 0) else 0
  }

  lemma StartedIs(now: int, n: JobId, data: CreateData, r: PromiseRecord, mode: CreateMode)
    requires Target in data.tags && r.id == data.id && r.tags == data.tags && (r.state.Pending? <==> now < data.timeoutAt)
    ensures CreatedTask(now, n, r, mode) == StartedTask(data, mode, now < data.timeoutAt, n)
    ensures CreatedJob(now, r, mode) == Job(Deliveries(data.tags[Target]), Execute(data.id), StartedDue(data.tags, mode, now))
  {
    hide ParseI64;
  }

  /** The whole of a creation: the record, the task, its job and the work that follows
      the commit. */
  lemma CreatePromiseIs(tx: Tx, data: CreateData, mode: CreateMode)
    ensures var tx', n, open := CreatePromise(tx, data, None, mode), tx.queue.nextJob, tx.now < data.timeoutAt;
            var r := Creation(data.id, data.timeoutAt, data.param, data.tags, tx.now, tx.now);
            && tx'.db.promises == tx.db.promises[data.id := Promise(r, [], [])] && tx'.now == tx.now && tx'.held == tx.held
            && tx'.queue == tx.queue.(nextJob := tx'.queue.nextJob) && n <= tx'.queue.nextJob
            && StagedGrows(tx.staged, n, tx'.staged)
            && (if Target !in data.tags then tx'.db.tasks == tx.db.tasks
                else tx'.db.tasks == tx.db.tasks[data.id := StartedTask(data, mode, open, n)])
            && (if Target in data.tags && open then
                  && n in tx'.staged
                  && tx'.staged[n] == Job(Deliveries(data.tags[Target]), Execute(data.id), StartedDue(data.tags, mode, tx.now))
                  && tx'.after == tx.after + (if mode.CreateAcquire? then [ClaimJob(data.id, n, LeaseOf(mode.ttl))] else [])
                else tx'.after == tx.after)
  {
    var r := CreatedRecord(tx.now, data, None);
    CreatedIs(tx.now, data, None);
    assert r.id == data.id && r.tags == data.tags && (r.state.Pending? <==> tx.now < data.timeoutAt);
    PlacedIs(tx, r);
    PlacedShape(tx, r);
    if Target in data.tags {
      StartedIs(tx.now, tx.queue.nextJob, data, r, mode);
    }
    hide BranchKey, Placed, CreatedRecord, Creation, CreateTask, CreateTimer, CreatedTask, CreatedJob, StartedTask, StartedDue, StagedGrows;
    var a := Placed(tx, r);
    var b := CreateTask(a, r, mode);
    CreateTaskShape(a, r, mode);
    CreateTimerShape(b, r);
    StagedOnce(tx.staged, tx.queue.nextJob, b.staged, b.queue.nextJob, CreateTimer(b, r).staged);
  }

  /** At most one job is staged, and then others under later ids. */
  lemma StagedOnce(staged: Jobs, n: JobId, staged1: Jobs, n1: JobId, staged2: Jobs)
    requires (staged1 == staged && n1 == n) || (n in staged1 && staged1 == staged[n := staged1[n]] && n1 == n + 1)
    requires StagedGrows(staged1, n1, staged2)
    ensures StagedGrows(staged, n, staged2)
    ensures n1 > n ==> n in staged2 && n in staged1 && staged2[n] == staged1[n]
  {
  }

  // -------------------------------------------------------------------- validation

  /** `o` is `id`, or all of it before its first colon. */
  predicate IsOrigin(o: string, id: Id) {
    ':' !in o && (id == o || o + ":" <= id)
  }

  /** `a` is `id`, or a prefix of it up to a separator: a colon after an origin and a
      dot after any other. */
  predicate IsAbove(a: string, id: Id) {
    id == a || (if ':' in a then a + "." <= id else a + ":" <= id)
  }

  /** The requests a create accepts. */
  predicate WellFormed(env: Env, data: CreateData) {
    && data.id != "" && '\0' !in data.id && 0 <= data.timeoutAt
    && (Target in data.tags ==> env.isUrl(data.tags[Target]))
    && (Origin in data.tags ==> IsOrigin(data.tags[Origin], data.id))
    && (Branch in data.tags ==> IsAbove(data.tags[Branch], data.id))
    && (Parent in data.tags ==> IsAbove(data.tags[Parent], data.id))
    && (Prefix in data.tags ==> ':' !in data.tags[Prefix])
    && (Delay in data.tags ==>
          && Target in data.tags
          && ParseI64(data.tags[Delay]).Some? && 0 <= ParseI64(data.tags[Delay]).value < data.timeoutAt)
  }

  lemma OriginIs(o: string, id: Id)
    ensures IsOrigin(o, id) <==> ':' !in o && OriginOf(id) == o
  {
    Lineage.OriginIsPrefix(id);
    hide OriginOf;
    if IsOrigin(o, id) {
      Lineage.OriginIsUnique(id, o);
    }
  }

  lemma AboveIs(a: string, id: Id)
    ensures IsAbove(a, id) <==> IsAncestor(a, id)
  {
    var separator := if ':' in a then '.' else ':';
    assert (a + [separator] <= id) <==> (|a| < |id| && id[..|a|] == a && id[|a|] == separator);
  }

  lemma ValidationIs(env: Env, data: CreateData)
    ensures ValidCreate(env, data) <==> WellFormed(env, data)
  {
    hide OriginOf, IsAncestor, IsOrigin, IsAbove, ParseI64;
    if Origin in data.tags {
      OriginIs(data.tags[Origin], data.id);
    }
    if Branch in data.tags {
      AboveIs(data.tags[Branch], data.id);
    }
    if Parent in data.tags {
      AboveIs(data.tags[Parent], data.id);
    }
  }

  /** A create is refused exactly when its request is not well-formed, and is answered
      with a record of its id otherwise. */
  lemma CreateIsValidated(env: Env, w: World, data: CreateData)
    requires WorldInv(env, w)
    ensures var reply := Answer(env, w, PromiseCreate(data));
            if WellFormed(env, data) then reply.Ok? && reply.status == 200 && reply.body.PromiseBody? && reply.body.promise.id == data.id
            else reply == Err(400)
  {
    ValidationIs(env, data);
    hide WorldInv, ValidCreate, WellFormed, TryTimeout, Answer, Asked, HandlePromiseCreate, Creation, Shown;
    if !ValidCreate(env, data) {
      CreateRefused(env, Begin(w), data);
      ErrorAnswer(env, w, PromiseCreate(data));
    } else {
      AfterDeadlines(env, w, [data.id]);
      CreateShows(env, Begin(w), data);
      CommittedAnswer(env, w, PromiseCreate(data));
    }
  }

  lemma CreateRefused(env: Env, tx: Tx, data: CreateData)
    requires !ValidCreate(env, data)
    ensures HandlePromiseCreate(env, tx, data) == Refuse(tx, 400)
  {
    hide ValidCreate;
  }

  lemma CreateShows(env: Env, tx: Tx, data: CreateData)
    requires ValidCreate(env, data)
    requires forall a :: a in TryTimeout(tx, [data.id]).db.promises ==> TryTimeout(tx, [data.id]).db.promises[a].record.id == a
    ensures var out := HandlePromiseCreate(env, tx, data);
            && out.mode.Commit? && out.reply.Ok? && out.reply.status == 200
            && out.reply.body.PromiseBody? && out.reply.body.promise.id == data.id
  {
    hide ValidCreate, TryTimeout, CreatePromise, Creation, StartedTask, StartedDue;
    CreatePromiseIs(TryTimeout(tx, [data.id]), data, CreateDispatch);
    CreationId(data, tx.now);
    assert Creation(data.id, data.timeoutAt, data.param, data.tags, TryTimeout(tx, [data.id]).now, TryTimeout(tx, [data.id]).now).id == data.id by {
      CreationId(data, TryTimeout(tx, [data.id]).now);
    }
  }

  lemma CreationId(data: CreateData, now: int)
    ensures Creation(data.id, data.timeoutAt, data.param, data.tags, now, now).id == data.id
  {
  }

  // -------------------------------------------------------------- promise requests

  /** A get applies the deadline of the promise, and shows the record it leaves. */
  lemma PromiseGetAnswer(env: Env, w: World, id: Id)
    requires WorldInv(env, w)
    ensures var w' := Asked(env, w, PromiseGet(id));
            if id in w.db.promises then
              && Answer(env, w, PromiseGet(id)) == Ok(200, PromiseBody(Shown(w, id)))
              && id in w'.db.promises && w'.db.promises[id].record == Shown(w, id)
            else Answer(env, w, PromiseGet(id)) == Err(404)
  {
    hide WorldInv, TryTimeout, Answer, Asked, Shown, IsAhead;
    AfterDeadlines(env, w, [id]);
    assert id in [id];
    CommittedAnswer(env, w, PromiseGet(id));
  }

  /** A settle of a pending promise before its deadline stores and shows the requested
      state and value, at the current time; any other shows the settled record, which
      is the one of the deadline where that has passed. */
  lemma PromiseSettleAnswer(env: Env, w: World, data: SettleData)
    requires WorldInv(env, w)
    ensures var w', reply := Asked(env, w, PromiseSettle(data)), Answer(env, w, PromiseSettle(data));
            if data.id !in w.db.promises then reply == Err(404)
            else if IsAhead(w, data.id) then SettlesTo(w, w', reply, data)
            else
              && reply == Ok(200, PromiseBody(Shown(w, data.id)))
              && data.id in w'.db.promises && w'.db.promises[data.id].record == Shown(w, data.id)
  {
    var tx, req, id := Begin(w), PromiseSettle(data), data.id;
    hide WorldInv, TryTimeout, Answer, Asked, SettleIfPending, Shown;
    if IsAhead(w, id) {
      NothingDue(tx, [id]);
      SettledAs(env, w, data);
    } else {
      AfterDeadlines(env, w, [id]);
      assert id in [id];
      NothingToSettle(TryTimeout(tx, [id]), data);
    }
    CommittedAnswer(env, w, req);
  }

  lemma NothingToSettle(tx: Tx, data: SettleData)
    requires data.id in tx.db.promises ==> !tx.db.promises[data.id].IsPending()
    ensures SettleIfPending(tx, data) == tx
  {
    hide SettleChain;
  }

  /** A create of a new promise stores and shows the requested record, pending or, past
      its deadline, settled by it. A targeted promise gets a task at version 0, pending
      with one job, due at the requested delay; or fulfilled without one. */
  lemma PromiseCreateAnswer(env: Env, w: World, data: CreateData)
    requires WorldInv(env, w) && WellFormed(env, data) && data.id !in w.db.promises
    ensures var w', open := Asked(env, w, PromiseCreate(data)), w.now < data.timeoutAt;
            var r := Creation(data.id, data.timeoutAt, data.param, data.tags, w.now, w.now);
            && Answer(env, w, PromiseCreate(data)) == Ok(200, PromiseBody(r))
            && w'.db.promises == w.db.promises[data.id := Promise(r, [], [])]
            && w'.db.tasks == (if Target !in data.tags then w.db.tasks
                               else w.db.tasks[data.id := StartedTask(data, CreateDispatch, open, w.queue.nextJob)])
            && (Target in data.tags && open ==>
                  HasJob(w', w.queue.nextJob, Job(Deliveries(data.tags[Target]), Execute(data.id), StartedDue(data.tags, CreateDispatch, w.now))))
  {
    var tx, req := Begin(w), PromiseCreate(data);
    ValidationIs(env, data);
    hide WorldInv, TryTimeout, Answer, Asked, CreatePromise, ValidCreate, WellFormed, Creation, StartedTask, StartedDue;
    NothingDue(tx, [data.id]);
    CreatePromiseIs(tx, data, CreateDispatch);
    PlainCommit(env, w, req);
  }

  // ----------------------------------------------------------------- task requests

  /** A task get shows the task as it leaves it: as it was, or fulfilled by its
      deadline. */
  lemma TaskGetAnswer(env: Env, w: World, id: Id)
    requires WorldInv(env, w)
    ensures var w' := Asked(env, w, TaskGet(id));
            if id in w.db.tasks then
              && id in w'.db.tasks
              && (if w.db.tasks[id].state.Fulfilled? || DeadlineAhead(w, id) then w'.db.tasks[id] == w.db.tasks[id]
                  else w'.db.tasks[id].state.Fulfilled?)
              && var t := w'.db.tasks[id];
                 Answer(env, w, TaskGet(id)) == Ok(200, TaskBody(TaskRecord(t.id, t.state, t.version, |t.resumes|, t.ttl, t.pid)))
            else Answer(env, w, TaskGet(id)) == Err(404)
  {
    var tx := Begin(w);
    hide TxInv, InflightOk, AckingOk, TryTimeout, Answer, Asked;
    if id !in w.db.tasks {
      NoTaskAfter(env, tx, [id], id);
    } else {
      OpenOrClosed(env, w, id);
      if w.db.tasks[id].state.Fulfilled? || !DeadlineAhead(w, id) {
        ClosedIsFulfilled(env, tx, [id], id);
        if w.db.tasks[id].state.Fulfilled? {
          FulfilledStays(env, tx, [id], id);
        }
      } else {
        NothingDue(tx, [id]);
      }
    }
    hide WorldInv;
    CommittedAnswer(env, w, TaskGet(id));
  }

  lemma FulfilledStays(env: Env, tx: Tx, ids: seq<Id>, id: Id)
    requires Fresh(env, tx) && id in tx.db.tasks && tx.db.tasks[id].state.Fulfilled?
    ensures id in TryTimeout(tx, ids).db.tasks && TryTimeout(tx, ids).db.tasks[id] == tx.db.tasks[id]
  {
    hide TxInv, TryTimeout, Calm, Steady;
    TimeoutSound(env, tx, ids);
    hide PromisesEvolve, NoSuspends, Wakes, Tells, SentGrows, StagedGrows, Posted;
  }

  /** The task `t` without a holder, in another state. */
  function Unheld(t: Task, to: TaskState): Task {
    Task(t.id, to, t.version, t.target, t.job, None, None, t.resumes)
  }

  /** A halt keeps the version and the resumes of the task. */
  lemma HaltAnswer(env: Env, w: World, id: Id)
    requires WorldInv(env, w)
    ensures var w', reply := Asked(env, w, TaskHalt(id)), Answer(env, w, TaskHalt(id));
            if id !in w.db.tasks then reply == Err(404)
            else if w.db.tasks[id].state.Fulfilled? || !DeadlineAhead(w, id) then reply == Err(409)
            else
              && reply == Ok(200, NoBody)
              && w'.db == (if w.db.tasks[id].state.Halted? then w.db
                           else w.db.(tasks := w.db.tasks[id := Unheld(w.db.tasks[id], TaskState.Halted)]))
  {
    var tx := Begin(w);
    hide TxInv, InflightOk, AckingOk, TryTimeout, Answer, Asked;
    if id !in w.db.tasks {
      NoTaskAfter(env, tx, [id], id);
    } else {
      OpenOrClosed(env, w, id);
      if w.db.tasks[id].state.Fulfilled? || !DeadlineAhead(w, id) {
        ClosedIsFulfilled(env, tx, [id], id);
      } else {
        OpenDeadline(env, w, id);
        NothingDue(tx, [id]);
      }
    }
    hide WorldInv;
    CommittedAnswer(env, w, TaskHalt(id));
  }

  /** A continue of a halted task keeps its version and resumes. The job it names goes
      on if it still exists; otherwise the task has one new job, which waits. */
  lemma ContinueAnswer(env: Env, w: World, id: Id)
    requires WorldInv(env, w)
    ensures var w', reply := Asked(env, w, TaskContinue(id)), Answer(env, w, TaskContinue(id));
            if id !in w.db.tasks then reply == Err(404)
            else if !w.db.tasks[id].state.Halted? || !DeadlineAhead(w, id) then reply == Err(409)
            else
              var t, n := Unheld(w.db.tasks[id], TaskState.Pending), w.queue.nextJob;
              && reply == Ok(200, NoBody)
              && if IsLive(w.db.tasks[id], w.queue.jobs) then
                   w'.db == w.db.(tasks := w.db.tasks[id := t]) && w'.queue == w.queue
                 else
                   && w'.db == w.db.(tasks := w.db.tasks[id := t.(job := Some(n))])
                   && w'.queue == w.queue.(jobs := w.queue.jobs[n := Job(Deliveries(t.target), Execute(id), 0)], nextJob := n + 1)
                   && w'.queue.Claimable(n)
  {
    var tx, req := Begin(w), TaskContinue(id);
    hide TxInv, InflightOk, AckingOk, TryTimeout, Answer, Asked;
    if id in w.db.tasks && w.db.tasks[id].state.Halted? && DeadlineAhead(w, id) {
      OpenDeadline(env, w, id);
      NothingDue(tx, [id]);
      LeasesAreOfJobs(env, w);
      ContinueNow(env, w, id);
    } else {
      if id in w.db.tasks {
        OpenOrClosed(env, w, id);
        NotHaltedAfter(env, w, id);
      } else {
        NoTaskAfter(env, tx, [id], id);
      }
      hide WorldInv;
      CommittedAnswer(env, w, req);
    }
  }

  lemma NotHaltedAfter(env: Env, w: World, id: Id)
    requires WorldInv(env, w) && id in w.db.tasks && id in w.db.promises && !(w.db.tasks[id].state.Halted? && DeadlineAhead(w, id))
    ensures id in TryTimeout(Begin(w), [id]).db.tasks && !TryTimeout(Begin(w), [id]).db.tasks[id].state.Halted?
  {
    var tx := Begin(w);
    hide TxInv, InflightOk, AckingOk, TryTimeout;
    OpenOrClosed(env, w, id);
    if w.db.tasks[id].state.Fulfilled? || !DeadlineAhead(w, id) {
      ClosedIsFulfilled(env, tx, [id], id);
    } else {
      NothingDue(tx, [id]);
    }
  }

  lemma ContinueIs(tx: Tx, id: Id)
    requires TryTimeout(tx, [id]) == tx && id in tx.db.tasks && tx.db.tasks[id].state.Halted? && tx.db.tasks[id].id == id
    ensures var out, t, n := HandleTaskContinue(tx, id), Unheld(tx.db.tasks[id], TaskState.Pending), tx.queue.nextJob;
            && out.mode.Commit? && out.reply == Ok(200, NoBody)
            && out.tx ==
                 if IsLive(tx.db.tasks[id], tx.queue.jobs) then tx.(db := tx.db.(tasks := tx.db.tasks[id := t]))
                 else tx.(db := tx.db.(tasks := tx.db.tasks[id := t.(job := Some(n))]), queue := tx.queue.(nextJob := n + 1),
                          staged := tx.staged[n := Job(Deliveries(t.target), Execute(id), 0)])
  {
    hide TryTimeout;
    var t, n := Unheld(tx.db.tasks[id], TaskState.Pending), tx.queue.nextJob;
    assert tx.db.tasks[id].Transition(TaskState.Pending) == t;
    assert tx.db.tasks[id := t][id := t.(job := Some(n))] == tx.db.tasks[id := t.(job := Some(n))];
    assert HandleTaskContinue(tx, id) == Kernel.Done(ContinueTask(tx, tx.db.tasks[id]), Ok(200, NoBody));
    hide HandleTaskContinue;
  }

  lemma OneMoreJob(tx: Tx, n: JobId)
    ensures tx.staged == map[] ==> AllJobs(tx) == tx.queue.jobs
    ensures n in tx.staged && tx.staged == map[n := tx.staged[n]] ==> AllJobs(tx) == tx.queue.jobs[n := tx.staged[n]]
  {
  }

  lemma ContinueNow(env: Env, w: World, id: Id)
    requires TryTimeout(Begin(w), [id]) == Begin(w)
    requires w.queue.leases.Keys <= w.queue.jobs.Keys && forall j :: j in w.queue.jobs ==> j < w.queue.nextJob
    requires id in w.db.tasks && w.db.tasks[id].state.Halted? && w.db.tasks[id].id == id
    ensures var w', t, n := Asked(env, w, TaskContinue(id)), Unheld(w.db.tasks[id], TaskState.Pending), w.queue.nextJob;
            && Answer(env, w, TaskContinue(id)) == Ok(200, NoBody)
            && if IsLive(w.db.tasks[id], w.queue.jobs) then
                 w'.db == w.db.(tasks := w.db.tasks[id := t]) && w'.queue == w.queue
               else
                 && w'.db == w.db.(tasks := w.db.tasks[id := t.(job := Some(n))])
                 && w'.queue == w.queue.(jobs := w.queue.jobs[n := Job(Deliveries(t.target), Execute(id), 0)], nextJob := n + 1)
                 && w'.queue.Claimable(n)
  {
    hide TryTimeout, Answer, Asked, HandleTaskContinue, Unheld, AllJobs;
    ContinueIs(Begin(w), id);
    PlainCommit(env, w, TaskContinue(id));
    OneMoreJob(HandleTaskContinue(Begin(w), id).tx, w.queue.nextJob);
  }

  // ------------------------------------------------------------------------- fence

  /** The request that a fence carries. */
  function Fenced(aid: Id, body: FenceBody): Option<Request> {
    match body
    case FenceCreate(timeoutAt, param, tags) => Some(PromiseCreate(CreateData(aid, timeoutAt, param, tags)))
    case FenceSettle(state, value) => Some(PromiseSettle(SettleData(aid, state, value)))
    case _ => None
  }

  predicate CanFence(env: Env, w: World, id: Id, version: int, actionId: Option<Id>, body: FenceBody) {
    && actionId.Some? && actionId.value != id && OriginOf(actionId.value) == OriginOf(id)
    && id in w.db.tasks && w.db.tasks[id].IsAcquiredAt(version) && DeadlineAhead(w, id)
    && (body.FenceSettle?
        || (body.FenceCreate? && ValidCreate(env, CreateData(actionId.value, body.timeoutAt, body.param, body.tags))))
  }

  /** A fence is accepted exactly for a well-formed action on another promise of the
      origin, while the task is acquired at the version and its deadline is ahead. It
      does what the action does as a request of its own, and shows its reply. */
  lemma FenceAnswer(env: Env, w: World, id: Id, version: int, actionId: Option<Id>, body: FenceBody)
    requires env.Ok() && WorldInv(env, w)
    ensures var req := TaskFence(id, version, actionId, body);
            var w', reply := Asked(env, w, req), Answer(env, w, req);
            if CanFence(env, w, id, version, actionId, body) then
              var inner := Fenced(actionId.value, body).value;
              && w'.db == Asked(env, w, inner).db && id in w'.db.promises
              && reply == Ok(200, FencedBody(Answer(env, w, inner), Preload(env, w'.db, w'.db.promises[id].record)))
            else reply.Err?
  {
    hide WorldInv, TryTimeout, Answer, Asked, OriginOf, ValidCreate, Preload;
    if actionId.Some? && actionId.value != id && OriginOf(actionId.value) == OriginOf(id) {
      if CanFence(env, w, id, version, actionId, body) {
        FenceActs(env, w, id, version, actionId.value, body);
      } else {
        FenceRefused(env, w, id, version, actionId.value, body);
      }
    } else {
      FenceMalformed(env, w, id, version, actionId, body);
    }
  }

  lemma FenceMalformed(env: Env, w: World, id: Id, version: int, actionId: Option<Id>, body: FenceBody)
    requires !(actionId.Some? && actionId.value != id && OriginOf(actionId.value) == OriginOf(id))
    ensures Answer(env, w, TaskFence(id, version, actionId, body)).Err?
  {
    hide OriginOf;
  }

  /** The reply to a request that its handler refuses. */
  lemma ErrorAnswer(env: Env, w: World, req: Request)
    requires Handle(env, Begin(w), req).reply.Err? && !Handle(env, Begin(w), req).mode.CommitAck?
    ensures Answer(env, w, req) == Handle(env, Begin(w), req).reply
  {
    hide Handle, Finish, Committed;
  }

  lemma FenceRefused(env: Env, w: World, id: Id, version: int, aid: Id, body: FenceBody)
    requires WorldInv(env, w) && aid != id && OriginOf(aid) == OriginOf(id)
    requires !CanFence(env, w, id, version, Some(aid), body)
    ensures Answer(env, w, TaskFence(id, version, Some(aid), body)).Err?
  {
    hide WorldInv, TryTimeout, OriginOf, ValidCreate, HandleTaskFence, Answer;
    if !(id in w.db.tasks && w.db.tasks[id].IsAcquiredAt(version) && DeadlineAhead(w, id)) {
      NotAcquired(env, w, [id, aid], id, version);
    }
    FenceRefusedIs(env, Begin(w), id, version, aid, body);
    ErrorAnswer(env, w, TaskFence(id, version, Some(aid), body));
  }

  lemma FenceRefusedIs(env: Env, tx: Tx, id: Id, version: int, aid: Id, body: FenceBody)
    requires var tx1 := TryTimeout(tx, [id, aid]);
             !(id in tx1.db.tasks && tx1.db.tasks[id].IsAcquiredAt(version))
             || !(body.FenceSettle? || (body.FenceCreate? && ValidCreate(env, CreateData(aid, body.timeoutAt, body.param, body.tags))))
    ensures var out := HandleTaskFence(env, tx, id, version, Some(aid), body); out.reply.Err? && !out.mode.CommitAck?
  {
    hide TryTimeout, OriginOf, CreatePromise, ValidCreate, SettleIfPending, FenceReply;
  }

  /** The deadlines of a promise whose own is ahead and of another are those of the
      other. */
  lemma OtherDeadline(tx: Tx, id: Id, aid: Id)
    requires id in tx.db.promises && !tx.db.promises[id].Due(tx.now)
    ensures TryTimeout(tx, [id, aid]) == TryTimeout(tx, [aid])
  {
    assert [id, aid][1..] == [aid];
    hide ExpirePromise;
  }

  /** The handler's part of an accepted fence. */
  lemma FenceIs(env: Env, tx: Tx, id: Id, version: int, aid: Id, body: FenceBody)
    requires TryTimeout(tx, [id, aid]) == TryTimeout(tx, [aid]) && aid != id && OriginOf(aid) == OriginOf(id)
    requires var tx1 := TryTimeout(tx, [id, aid]); id in tx1.db.tasks && tx1.db.tasks[id].IsAcquiredAt(version)
    requires body.FenceSettle? || (body.FenceCreate? && ValidCreate(env, CreateData(aid, body.timeoutAt, body.param, body.tags)))
    ensures var out, inner := Handle(env, tx, TaskFence(id, version, Some(aid), body)), Handle(env, tx, Fenced(aid, body).value);
            && out.mode.Commit? && inner.mode.Commit? && out.tx == inner.tx
            && (id in out.tx.db.promises ==>
                  out.reply == Ok(200, FencedBody(inner.reply, Preload(env, out.tx.db, out.tx.db.promises[id].record))))
  {
    hide TryTimeout, OriginOf, CreatePromise, ValidCreate, SettleIfPending, Preload, PromiseReply;
  }

  lemma FenceActs(env: Env, w: World, id: Id, version: int, aid: Id, body: FenceBody)
    requires env.Ok() && WorldInv(env, w) && CanFence(env, w, id, version, Some(aid), body)
    ensures var req := TaskFence(id, version, Some(aid), body);
            var w', reply, inner := Asked(env, w, req), Answer(env, w, req), Fenced(aid, body).value;
            && w'.db == Asked(env, w, inner).db && id in w'.db.promises
            && reply == Ok(200, FencedBody(Answer(env, w, inner), Preload(env, w'.db, w'.db.promises[id].record)))
  {
    var req, inner := TaskFence(id, version, Some(aid), body), Fenced(aid, body).value;
    hide WorldInv, Moves, TryTimeout, Answer, Asked, OriginOf, ValidCreate, Preload, Handle;
    StillAcquired(env, w, id, version, aid);
    FenceIs(env, Begin(w), id, version, aid, body);
    CommittedAnswer(env, w, req);
    CommittedAnswer(env, w, inner);
    PromiseRemains(env, w, req, id);
  }

  lemma StillAcquired(env: Env, w: World, id: Id, version: int, aid: Id)
    requires WorldInv(env, w) && id in w.db.tasks && w.db.tasks[id].IsAcquiredAt(version) && DeadlineAhead(w, id)
    ensures id in w.db.promises && TryTimeout(Begin(w), [id, aid]) == TryTimeout(Begin(w), [aid])
    ensures var tx1 := TryTimeout(Begin(w), [id, aid]); id in tx1.db.tasks && tx1.db.tasks[id].IsAcquiredAt(version)
  {
    hide WorldInv, TryTimeout, Shown;
    OpenDeadline(env, w, id);
    AfterDeadlines(env, w, [id, aid]);
    OtherDeadline(Begin(w), id, aid);
  }

  lemma PromiseRemains(env: Env, w: World, req: Request, id: Id)
    requires env.Ok() && WorldInv(env, w) && id in w.db.promises
    ensures id in Asked(env, w, req).db.promises
  {
    hide WorldInv, Moves, Next;
    StepInv(env, w, Serve(req, NoFault)) by { assert Enabled(w, Serve(req, NoFault)); }
    PromiseStays(w, Asked(env, w, req), id);
  }

  // --------------------------------------------------------------------- schedules

  /** A create of a new schedule stores and shows the request with the first time after
      now, and puts the timer of that time on the queue. */
  lemma ScheduleCreateAnswer(env: Env, w: World, id: Id, cron: string, promiseId: string, timeout: int, param: Value, tags: Tags)
    requires WorldInv(env, w)
    ensures var req := ScheduleCreate(id, cron, promiseId, timeout, param, tags);
            var w', reply, next := Asked(env, w, req), Answer(env, w, req), env.nextAfter(cron, w.now);
            if id == "" || ':' in id || Target !in tags || !env.isUrl(tags[Target]) || timeout < 0 then reply == Err(400) && w'.db == w.db
            else if id in w.db.schedules then reply == Ok(200, ScheduleBody(w.db.schedules[id])) && w'.db == w.db
            else if next.None? then reply == Err(400) && w'.db == w.db
            else
              var s := ScheduleRecord(id, cron, promiseId, timeout, param, tags, w.now, next.value, None);
              && reply == Ok(200, ScheduleBody(s))
              && w'.db == w.db.(schedules := w.db.schedules[id := s])
              && HasJob(w', w.queue.nextJob, Job(Timers, ScheduleFire(id, next.value), Max(next.value, 0)))
  {
    var tx, req := Begin(w), ScheduleCreate(id, cron, promiseId, timeout, param, tags);
    hide WorldInv, Finish;
    if Handle(env, tx, req).mode.Commit? {
      hide Answer, Asked;
      PlainCommit(env, w, req);
    }
  }

  lemma ScheduleGetAnswer(env: Env, w: World, id: Id)
    ensures Asked(env, w, ScheduleGet(id)).db == w.db
    ensures Answer(env, w, ScheduleGet(id)) == if id in w.db.schedules then Ok(200, ScheduleBody(w.db.schedules[id])) else Err(404)
  {
  }

  /** A delete of a schedule removes it and nothing else. */
  lemma ScheduleDeleteAnswer(env: Env, w: World, id: Id)
    ensures Asked(env, w, ScheduleDelete(id)).db == w.db.(schedules := w.db.schedules - {id})
    ensures Answer(env, w, ScheduleDelete(id)) == if id in w.db.schedules then Ok(200, NoBody) else Err(404)
  {
    hide Finish;
    if id in w.db.schedules {
      hide Asked, Answer;
      CommittedAnswer(env, w, ScheduleDelete(id));
    } else {
      assert w.db.schedules - {id} == w.db.schedules;
    }
  }
}
