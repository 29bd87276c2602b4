/** Timer placement is invisible to promise requests: the lazy deadlines and the
    timer jobs of the store refine a machine that applies every deadline the
    moment it passes and has no timers at all. */
module Invisible {
  import opened Records
  import opened Reference
  import opened Queues
  import opened Transaction
  import opened Kernel
  import opened Invariant
  import opened Steps
  import opened Operations
  import opened Handlers
  import opened Worlds
  import opened Commits
  import opened Runs
  import opened Theorems
  import Confluence
  import Frames

  type PromiseTable = map<Id, PromiseRecord>

  // -------------------------------------------------------- the eager machine

  function Eager(r: PromiseRecord, now: int): PromiseRecord {
    if r.state.Pending? && now >= r.timeoutAt then Expiry(r) else r
  }

  /** Every deadline that has passed is applied. */
  function Lapse(table: PromiseTable, now: int): PromiseTable {
    map id | id in table :: Eager(table[id], now)
  }

  predicate IsPromiseRequest(req: Request) {
    req.PromiseCreate? || req.PromiseGet? || req.PromiseSettle? || req.RegisterCallback? || req.RegisterListener?
  }

  function Show(table: PromiseTable, id: Id): Reply {
    if id in table then Ok(200, PromiseBody(table[id])) else Err(404)
  }

  function IdealTable(env: Env, table: PromiseTable, req: Request, now: int): PromiseTable
    requires IsPromiseRequest(req)
  {
    match req
    case PromiseCreate(data) =>
      if ValidCreate(env, data) && data.id !in table
      then table[data.id := Creation(data.id, data.timeoutAt, data.param, data.tags, now, now)]
      else table
    case PromiseSettle(data) =>
      if data.id in table && table[data.id].state.Pending?
      then table[data.id := Settlement(table[data.id], data.state, data.value, now)] else table
    case _ => table
  }

  function IdealReply(env: Env, table: PromiseTable, req: Request, now: int): Reply
    requires IsPromiseRequest(req)
  {
    match req
    case PromiseCreate(data) =>
      if ValidCreate(env, data) then Show(IdealTable(env, table, req, now), data.id) else Err(400)
    case PromiseGet(id) => Show(table, id)
    case PromiseSettle(data) => Show(IdealTable(env, table, req, now), data.id)
    case RegisterCallback(awaited, awaiter) =>
      if !ValidCallback(awaited, awaiter) then Err(400)
      else if awaited !in table then Err(404)
      else if awaiter !in table || Target !in table[awaiter].tags || !CanBeAwaited(table[awaited].tags) then Err(422)
      else Show(table, awaited)
    case RegisterListener(awaited, address) =>
      if !env.isUrl(address) then Err(400)
      else if awaited !in table then Err(404)
      else if !CanBeAwaited(table[awaited].tags) then Err(422)
      else Show(table, awaited)
  }

  /** The replies of the eager machine to requests at given times. */
  function IdealReplies(env: Env, table: PromiseTable, requests: seq<(int, Request)>): seq<Reply>
    requires forall i :: 0 <= i < |requests| ==> IsPromiseRequest(requests[i].1)
    decreases |requests|
  {
    if requests == [] then []
    else
      var (now, req) := requests[0];
      var lapsed := Lapse(table, now);
      [IdealReply(env, lapsed, req, now)] + IdealReplies(env, IdealTable(env, lapsed, req, now), requests[1..])
  }

  lemma LapseTwice(table: PromiseTable, now: int, now': int)
    requires now <= now'
    ensures Lapse(Lapse(table, now), now') == Lapse(table, now')
  {
  }

  // ---------------------------------------------------------- what clients see

  /** The promise records as any request would find them at `now`. */
  function Seen(promises: Promises, now: int): PromiseTable {
    map id | id in promises :: Eager(promises[id].record, now)
  }

  lemma SeenIsLapsed(promises: Promises, now: int, now': int)
    requires now <= now'
    ensures Lapse(Seen(promises, now), now') == Seen(promises, now')
  {
  }

  /** The deadlines a request applies change nothing a client sees, and the named
      promises are then stored as they are seen. */
  lemma TimeoutSeen(env: Env, tx: Tx, ids: seq<Id>)
    requires Fresh(env, tx)
    ensures var tx1 := TryTimeout(tx, ids);
            && Seen(tx1.db.promises, tx.now) == Seen(tx.db.promises, tx.now) && tx1.now == tx.now
            && KeyedBy(tx1.db.tasks)
            && (forall id :: id in tx1.db.promises ==> tx1.db.promises[id].record.id == id)
            && (forall id :: id in ids && id in tx1.db.promises ==>
                  id in Seen(tx1.db.promises, tx.now) && Seen(tx1.db.promises, tx.now)[id] == tx1.db.promises[id].record)
  {
    hide TxInv, Calm, Evolves, Quiet, TryTimeout;
    var tx1 := TryTimeout(tx, ids);
    TimeoutSound(env, tx, ids);
    KeyedTasks(env, tx);
    KeyedTasks(env, tx1);
    Confluence.TryTimeoutIsExpiry(tx, ids);
    ExpirySeen(tx, Confluence.IdSet(ids), tx1);
    assert forall id :: id in ids && id in tx1.db.promises ==> !tx1.db.promises[id].Due(tx1.now);
    assert tx1.now == tx.now by { EvolvesParts(tx, tx1); }
  }

  lemma ExpirySeen(tx: Tx, ids: set<Id>, tx': Tx)
    requires Confluence.IsExpiry(tx, ids, tx')
    ensures Seen(tx'.db.promises, tx.now) == Seen(tx.db.promises, tx.now)
  {
    forall id | id in tx.db.promises
      ensures id in tx'.db.promises
      ensures Eager(tx'.db.promises[id].record, tx.now) == Eager(tx.db.promises[id].record, tx.now)
    {
      assert tx'.db.promises[id] == Confluence.ExpiredPromise(tx, ids, id);
    }
  }

  lemma RecordSeen(promises: Promises, r: PromiseRecord, now: int)
    requires !(r.state.Pending? && now >= r.timeoutAt)
    ensures Seen(promises[r.id := Promise(r, [], [])], now) == Seen(promises, now)[r.id := r]
  {
  }

  // ------------------------------------------------------------- the refinement

  /** What a handler must do to refine the eager machine. */
  ghost predicate RefinesAt(env: Env, tx: Tx, req: Request, out: Outcome)
    requires IsPromiseRequest(req)
  {
    && !out.mode.CommitAck?
    && out.reply == IdealReply(env, Seen(tx.db.promises, tx.now), req, tx.now)
    && Seen((if out.mode.Discard? then tx else out.tx).db.promises, tx.now) ==
         IdealTable(env, Seen(tx.db.promises, tx.now), req, tx.now)
  }

  lemma CreateRefines(env: Env, tx: Tx, data: CreateData)
    requires Fresh(env, tx)
    ensures RefinesAt(env, tx, PromiseCreate(data), HandlePromiseCreate(env, tx, data))
  {
    hide TxInv, TryTimeout, CreatePromise, ValidCreate, KeyedBy, Seen;
    if ValidCreate(env, data) {
      TimeoutSeen(env, tx, [data.id]);
      var tx1 := TryTimeout(tx, [data.id]);
      assert data.id in [data.id];
      assert data.id in Seen(tx1.db.promises, tx.now) <==> data.id in tx1.db.promises by { SeenKeys(tx1.db.promises, tx.now); }
      Frames.CreateLeaves(tx1, data, None, CreateDispatch);
      RecordSeen(tx1.db.promises, CreatedRecord(tx.now, data, None), tx.now);
    }
  }

  lemma SeenKeys(promises: Promises, now: int)
    ensures Seen(promises, now).Keys == promises.Keys
  {
  }

  lemma GetRefines(env: Env, tx: Tx, id: Id)
    requires Fresh(env, tx)
    ensures RefinesAt(env, tx, PromiseGet(id), HandlePromiseGet(tx, id))
  {
    hide TxInv, TryTimeout, KeyedBy, Seen;
    TimeoutSeen(env, tx, [id]);
    assert id in [id];
    SeenKeys(TryTimeout(tx, [id]).db.promises, tx.now);
  }

  lemma SettleRefines(env: Env, tx: Tx, data: SettleData)
    requires Fresh(env, tx)
    ensures RefinesAt(env, tx, PromiseSettle(data), HandlePromiseSettle(tx, data))
  {
    hide TxInv, TryTimeout, KeyedBy, Seen, SettleChain;
    TimeoutSeen(env, tx, [data.id]);
    var tx1 := TryTimeout(tx, [data.id]);
    assert data.id in [data.id];
    SeenKeys(tx1.db.promises, tx.now);
    if data.id in tx1.db.promises && tx1.db.promises[data.id].IsPending() {
      var r := tx1.db.promises[data.id].record.SettledBy(data.state, data.value, tx.now);
      SettleChainCalm(tx1, tx1.db.promises[data.id].(record := r));
      RecordSeen(tx1.db.promises, r, tx.now);
    }
  }

  lemma CallbackUnseen(tx: Tx, awaited: Id, awaiter: Id, now: int)
    requires awaited in tx.db.promises && tx.db.promises[awaited].record.id == awaited
    ensures var tx' := AddCallback(tx, awaited, awaiter);
            && Seen(tx'.db.promises, now) == Seen(tx.db.promises, now)
            && awaited in tx'.db.promises && tx'.db.promises[awaited].record == tx.db.promises[awaited].record
  {
  }

  lemma CallbackRefines(env: Env, tx: Tx, awaited: Id, awaiter: Id)
    requires Fresh(env, tx)
    ensures RefinesAt(env, tx, RegisterCallback(awaited, awaiter), HandleRegisterCallback(tx, awaited, awaiter))
  {
    hide TxInv, TryTimeout, KeyedBy, Seen, AddCallback, ResumeAwaiter, ValidCallback;
    if ValidCallback(awaited, awaiter) {
      var ids := [awaited, awaiter];
      TimeoutSeen(env, tx, ids);
      var tx1 := TryTimeout(tx, ids);
      assert awaited in ids && awaiter in ids;
      SeenKeys(tx1.db.promises, tx.now);
      Frames.ResumeLeaves(tx1, awaited, awaiter);
      if awaited in tx1.db.promises {
        CallbackUnseen(tx1, awaited, awaiter, tx.now);
      }
    }
  }

  lemma ListenerUnseen(tx: Tx, awaited: Id, address: Address, now: int)
    requires awaited in tx.db.promises && tx.db.promises[awaited].record.id == awaited
    ensures var tx' := AddListener(tx, awaited, address);
            && Seen(tx'.db.promises, now) == Seen(tx.db.promises, now)
            && awaited in tx'.db.promises && tx'.db.promises[awaited].record == tx.db.promises[awaited].record
  {
  }

  lemma ListenerRefines(env: Env, tx: Tx, awaited: Id, address: Address)
    requires Fresh(env, tx)
    ensures RefinesAt(env, tx, RegisterListener(awaited, address), HandleRegisterListener(env, tx, awaited, address))
  {
    hide TxInv, TryTimeout, KeyedBy, Seen, AddListener;
    if env.isUrl(address) {
      TimeoutSeen(env, tx, [awaited]);
      var tx1 := TryTimeout(tx, [awaited]);
      assert awaited in [awaited];
      SeenKeys(tx1.db.promises, tx.now);
      if awaited in tx1.db.promises {
        ListenerUnseen(tx1, awaited, address, tx.now);
      }
    }
  }

  lemma RequestRefines(env: Env, tx: Tx, req: Request)
    requires Fresh(env, tx) && IsPromiseRequest(req)
    ensures RefinesAt(env, tx, req, Handle(env, tx, req))
  {
    hide Fresh, RefinesAt, HandlePromiseCreate, HandlePromiseGet, HandlePromiseSettle, HandleRegisterCallback,
      HandleRegisterListener;
    match req
    case PromiseCreate(data) => CreateRefines(env, tx, data);
    case PromiseGet(id) => GetRefines(env, tx, id);
    case PromiseSettle(data) => SettleRefines(env, tx, data);
    case RegisterCallback(awaited, awaiter) => CallbackRefines(env, tx, awaited, awaiter);
    case RegisterListener(awaited, address) => ListenerRefines(env, tx, awaited, address);
  }

  // ------------------------------------------------------------------- the runs

  /** Steps clients do not ask for: claims, deliveries, promise timers, lease
      expiries, clock advances and restarts, but no schedule firing. */
  predicate IsSilent(step: Step) {
    !step.Serve? && !(step.FireTimer? && step.claim.payload.ScheduleFire?)
  }

  predicate IsPromiseStep(step: Step) {
    IsSilent(step) || (step.Serve? && step.fault.NoFault? && IsPromiseRequest(step.req))
  }

  lemma DeliverUnseen(env: Env, w: World, claim: Claim, fault: Fault)
    requires env.Ok() && WorldInv(env, w)
    ensures Seen(Next(env, w, DeliverClaim(claim, fault)).db.promises, w.now) == Seen(w.db.promises, w.now)
  {
    hide TxInv, InflightOk, AckingOk, TryTimeout, Finish, Seen, KeyedBy;
    var tx := Begin(w);
    if claim.payload.Execute? {
      TimeoutSeen(env, tx, [claim.payload.task]);
    }
    CommittedDb(tx, Deliver(tx, claim), fault);
    hide Resolve;
  }

  lemma FireUnseen(env: Env, w: World, claim: Claim, fault: Fault)
    requires env.Ok() && WorldInv(env, w) && claim in w.inflight && claim.payload.PromiseTimeout?
    ensures Seen(Next(env, w, FireTimer(claim, fault)).db.promises, w.now) == Seen(w.db.promises, w.now)
  {
    hide TxInv, AckingOk, SettleChain, Finish, Seen, ClaimFor, KeyedBy;
    var tx, id := Begin(w), claim.payload.promiseId;
    InflightClaim(w, claim);
    hide InflightOk;
    KeyedTasks(env, tx);
    if tx.db.promises[id].IsPending() {
      var p := tx.db.promises[id];
      SettleChainCalm(tx, p.(record := p.record.Expired()));
      assert Seen(tx.db.promises[id := Promise(p.record.Expired(), [], [])], w.now) == Seen(tx.db.promises, w.now) by {
        ExpiredUnseen(tx.db.promises, id, w.now);
      }
    }
    CommittedDb(tx, Fire(env, tx, claim.payload), fault);
    hide Resolve;
  }

  lemma ExpiredUnseen(promises: Promises, id: Id, now: int)
    requires id in promises && promises[id].Due(now)
    ensures Seen(promises[id := Promise(promises[id].record.Expired(), [], [])], now) == Seen(promises, now)
  {
  }

  /** A silent step changes what clients see only as the clock does. */
  lemma SilentStep(env: Env, w: World, step: Step)
    requires env.Ok() && WorldInv(env, w) && Enabled(w, step) && IsSilent(step)
    ensures var w' := Next(env, w, step);
            w.now <= w'.now && Seen(w'.db.promises, w'.now) == Lapse(Seen(w.db.promises, w.now), w'.now)
  {
    hide WorldInv, Seen, Delivered, Fired;
    SeenIsLapsed(w.db.promises, w.now, Next(env, w, step).now);
    if step.DeliverClaim? {
      DeliverUnseen(env, w, step.claim, step.fault);
    } else if step.FireTimer? {
      FireUnseen(env, w, step.claim, step.fault);
    }
  }

  lemma ServeStep(env: Env, w: World, req: Request)
    requires env.Ok() && WorldInv(env, w) && IsPromiseRequest(req)
    ensures var w' := Next(env, w, Serve(req, NoFault));
            && w'.now == w.now
            && ReplyTo(env, w, req, NoFault) == IdealReply(env, Seen(w.db.promises, w.now), req, w.now)
            && Seen(w'.db.promises, w.now) == IdealTable(env, Seen(w.db.promises, w.now), req, w.now)
  {
    hide TxInv, InflightOk, AckingOk, Handle, Seen, Finish, IdealTable, IdealReply;
    RequestRefines(env, Begin(w), req);
    CommittedDb(Begin(w), Handle(env, Begin(w), req), NoFault);
  }

  /** The requests of a run from step `i` on, with their times. */
  function Requests(worlds: seq<World>, steps: seq<Step>, i: nat): seq<(int, Request)>
    requires |worlds| == |steps| + 1 && i <= |steps|
    decreases |steps| - i
  {
    if i == |steps| then []
    else (if steps[i].Serve? then [(worlds[i].now, steps[i].req)] else []) + Requests(worlds, steps, i + 1)
  }

  /** The replies of a run from step `i` on. */
  ghost function Replies(env: Env, worlds: seq<World>, steps: seq<Step>, i: nat): seq<Reply>
    requires |worlds| == |steps| + 1 && i <= |steps|
    decreases |steps| - i
  {
    if i == |steps| then []
    else (if steps[i].Serve? then [ReplyTo(env, worlds[i], steps[i].req, steps[i].fault)] else [])
         + Replies(env, worlds, steps, i + 1)
  }

  lemma {:induction false} RequestsArePromiseRequests(worlds: seq<World>, steps: seq<Step>, i: nat)
    requires |worlds| == |steps| + 1 && i <= |steps|
    requires forall j :: i <= j < |steps| ==> IsPromiseStep(steps[j])
    ensures forall j :: 0 <= j < |Requests(worlds, steps, i)| ==> IsPromiseRequest(Requests(worlds, steps, i)[j].1)
    decreases |steps| - i
  {
    if i < |steps| {
      RequestsArePromiseRequests(worlds, steps, i + 1);
    }
  }

  /** The replies of a run from step `i` on are those of the eager machine, from a
      table that agrees with what clients see. */
  lemma {:induction false} RunRefines(env: Env, worlds: seq<World>, steps: seq<Step>, i: nat, table: PromiseTable)
    requires env.Ok() && IsRun(env, worlds, steps) && i <= |steps|
    requires forall j :: i <= j < |steps| ==> IsPromiseStep(steps[j])
    requires Lapse(table, worlds[i].now) == Seen(worlds[i].db.promises, worlds[i].now)
    ensures forall j :: 0 <= j < |Requests(worlds, steps, i)| ==> IsPromiseRequest(Requests(worlds, steps, i)[j].1)
    ensures Replies(env, worlds, steps, i) == IdealReplies(env, table, Requests(worlds, steps, i))
    decreases |steps| - i
  {
    hide WorldInv, Moves, Next, Seen, Lapse, IdealTable, IdealReply, ReplyTo, Enabled;
    RequestsArePromiseRequests(worlds, steps, i);
    if i < |steps| {
      var w, w', now := worlds[i], worlds[i + 1], worlds[i].now;
      RunInv(env, worlds, steps, i);
      if steps[i].Serve? {
        var table' := IdealTable(env, Lapse(table, now), steps[i].req, now);
        ServeStep(env, w, steps[i].req);
        SeenIsLapsed(w'.db.promises, now, now);
        RunRefines(env, worlds, steps, i + 1, table');
        assert Requests(worlds, steps, i) == [(now, steps[i].req)] + Requests(worlds, steps, i + 1);
        assert Requests(worlds, steps, i)[1..] == Requests(worlds, steps, i + 1);
      } else {
        SilentStep(env, w, steps[i]);
        LapseTwice(table, now, w'.now);
        RunRefines(env, worlds, steps, i + 1, table);
        assert Requests(worlds, steps, i) == Requests(worlds, steps, i + 1);
      }
    }
  }

  /** Timers are invisible: two runs that, from some point on, get the same promise
      requests at the same times, and whose clients see the same promises then,
      give the same replies, however promise timers, deliveries, lease expiries,
      clock advances and restarts fall in between. */
  lemma TimersAreInvisible(env: Env, worlds: seq<World>, steps: seq<Step>, i: nat,
                           worlds': seq<World>, steps': seq<Step>, i': nat)
    requires env.Ok() && IsRun(env, worlds, steps) && IsRun(env, worlds', steps') && i <= |steps| && i' <= |steps'|
    requires forall j :: i <= j < |steps| ==> IsPromiseStep(steps[j])
    requires forall j :: i' <= j < |steps'| ==> IsPromiseStep(steps'[j])
    requires worlds[i].now == worlds'[i'].now
    requires Seen(worlds[i].db.promises, worlds[i].now) == Seen(worlds'[i'].db.promises, worlds[i].now)
    requires Requests(worlds, steps, i) == Requests(worlds', steps', i')
    ensures Replies(env, worlds, steps, i) == Replies(env, worlds', steps', i')
  {
    hide IsRun, Seen, Lapse, IdealReplies, Requests, Replies, IsPromiseStep;
    RunLengths(env, worlds, steps);
    RunLengths(env, worlds', steps');
    var table := Seen(worlds[i].db.promises, worlds[i].now);
    RepliesFromSeen(env, worlds, steps, i, table);
    RepliesFromSeen(env, worlds', steps', i', table);
  }

  lemma RepliesFromSeen(env: Env, worlds: seq<World>, steps: seq<Step>, i: nat, table: PromiseTable)
    requires env.Ok() && IsRun(env, worlds, steps) && i <= |steps|
    requires forall j :: i <= j < |steps| ==> IsPromiseStep(steps[j])
    requires table == Seen(worlds[i].db.promises, worlds[i].now)
    ensures forall j :: 0 <= j < |Requests(worlds, steps, i)| ==> IsPromiseRequest(Requests(worlds, steps, i)[j].1)
    ensures Replies(env, worlds, steps, i) == IdealReplies(env, table, Requests(worlds, steps, i))
  {
    hide Seen, Lapse, IdealReplies, Requests, Replies, IsPromiseStep;
    SeenIsLapsed(worlds[i].db.promises, worlds[i].now, worlds[i].now);
    RunRefines(env, worlds, steps, i, table);
  }
}
