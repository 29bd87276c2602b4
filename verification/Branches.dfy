/** Preloads while the store runs: the branch index lists exactly the promises of a
    null-free branch unless a promise has a branch that starts with it and a null.
    Schedules are the one way a null gets into an id, and which ones is exact. */
module Branches {
  import opened Records
  import opened Queues
  import opened Transaction
  import opened Text
  import opened Kernel
  import opened Invariant
  import opened Operations
  import opened Worlds
  import opened Commits
  import opened Runs
  import opened Theorems
  import opened Paging
  import opened Templates
  import opened Frames
  import opened Closings
  import opened Endings
  import opened Schedules
  import Searches
  import Keys
  import Preloads

  // ------------------------------------------------------------ index and branch

  /** The promises whose branch tag is `branch`. */
  function Siblings(promises: Promises, branch: string): set<Id> {
    set id | id in promises && Branch in promises[id].record.tags && promises[id].record.tags[Branch] == branch
  }

  lemma EntryIsIndexed(promises: Promises, index: set<string>, branch: string, id: Id)
    requires IndexOk(promises, index) && id in promises && Branch in promises[id].record.tags
    ensures var other := promises[id].record.tags[Branch];
            BranchKey(branch, "") <= BranchKey(other, id) ==>
              BranchKey(other, id)[|branch| + 1..] in Indexed(index, branch)
  {
  }

  lemma IndexedHasEntry(promises: Promises, index: set<string>, branch: string, s: Id) returns (id: Id)
    requires IndexOk(promises, index) && s in Indexed(index, branch)
    ensures id in promises && Branch in promises[id].record.tags
    ensures var key := BranchKey(promises[id].record.tags[Branch], id);
            BranchKey(branch, "") <= key && s == key[|branch| + 1..]
  {
    var k :| k in index && BranchKey(branch, "") <= k && s == k[|branch| + 1..];
    id :| IndexEntry(promises, k, id);
  }

  /** A promise has a branch that starts with `branch` and a null. */
  ghost predicate IsExtended(promises: Promises, branch: string) {
    exists id :: Extends(promises, branch, id)
  }

  predicate Extends(promises: Promises, branch: string, id: Id) {
    id in promises && Branch in promises[id].record.tags && branch + ['\0'] <= promises[id].record.tags[Branch]
  }

  lemma OwnEntriesAreListed(promises: Promises, index: set<string>, branch: string)
    requires IndexOk(promises, index)
    ensures Siblings(promises, branch) <= Indexed(index, branch)
  {
    hide BranchKey, IndexOk, Indexed;
    forall id | id in Siblings(promises, branch) ensures id in Indexed(index, branch) {
      EntryIsIndexed(promises, index, branch, id);
      OwnEntry(branch, id);
    }
  }

  /** A null-free branch that no other extends by a null is listed exactly. */
  lemma UnextendedIsExact(promises: Promises, index: set<string>, branch: string)
    requires IndexOk(promises, index) && NullFree(branch) && !IsExtended(promises, branch)
    ensures Indexed(index, branch) == Siblings(promises, branch)
  {
    hide BranchKey, IndexOk, Indexed;
    OwnEntriesAreListed(promises, index, branch);
    forall s | s in Indexed(index, branch) ensures s in Siblings(promises, branch) {
      var id := IndexedHasEntry(promises, index, branch, s);
      Keys.EntryOfBranch(branch, promises[id].record.tags[Branch], id);
      assert !Extends(promises, branch, id);
      OwnEntry(branch, id);
    }
  }

  /** A null-free branch whose promises have null-free ids is listed exactly if and
      only if no promise has a branch that starts with it and a null. */
  lemma IndexIsExact(promises: Promises, index: set<string>, branch: string)
    requires IndexOk(promises, index) && NullFree(branch)
    requires forall id :: id in Siblings(promises, branch) ==> NullFree(id)
    ensures Indexed(index, branch) == Siblings(promises, branch) <==> !IsExtended(promises, branch)
  {
    hide BranchKey, IndexOk, Indexed;
    if IsExtended(promises, branch) {
      var id :| Extends(promises, branch, id);
      EntryIsIndexed(promises, index, branch, id);
      ForeignEntry(branch, promises[id].record.tags[Branch], id);
    } else {
      UnextendedIsExact(promises, index, branch);
    }
  }

  lemma OwnEntry(branch: string, id: Id)
    ensures BranchKey(branch, "") <= BranchKey(branch, id) && BranchKey(branch, id)[|branch| + 1..] == id
  {
    assert BranchKey(branch, id) == BranchKey(branch, "") + id;
  }

  lemma ForeignEntry(branch: string, other: string, id: Id)
    requires NullFree(branch) && branch + ['\0'] <= other
    ensures BranchKey(branch, "") <= BranchKey(other, id) && !NullFree(BranchKey(other, id)[|branch| + 1..])
  {
    Keys.EntryOfBranch(branch, other, id);
    var s := BranchKey(other, id)[|branch| + 1..];
    assert s[|other| - |branch| - 1] == '\0';
  }

  // --------------------------------------------------------- what a preload means

  /** `page` is the first `limit` of the promises `ids`, in id order. */
  ghost predicate FirstOf(promises: Promises, ids: set<Id>, limit: nat, page: seq<PromiseRecord>) {
    && AscendingBy(page, PromiseIdOf)
    && (forall x :: x in page ==> x.id in ids && x.id in promises && promises[x.id].record == x)
    && |page| <= limit
    && (forall id :: id in ids ==>
          Has(page, PromiseIdOf, id) || (|page| == limit && forall x :: x in page ==> Below(x.id, id)))
  }

  lemma {:induction false} LookupLength(promises: Promises, ids: seq<Id>)
    requires forall id :: id in ids ==> id in promises
    ensures |Lookup(promises, ids)| == |ids|
  {
    if ids != [] {
      LookupLength(promises, ids[1..]);
    }
  }

  lemma LookupIsFirst(promises: Promises, ids: set<Id>, limit: nat)
    requires forall id :: id in promises ==> promises[id].record.id == id
    requires forall id :: id in ids ==> id in promises
    ensures FirstOf(promises, ids, limit, Lookup(promises, Truncate(Sorted(ids), limit)))
  {
    hide Lookup, AscendingBy, Sorted;
    var all := Sorted(ids);
    var first := Truncate(all, limit);
    assert first <= all && (|all| <= limit ==> first == all) && (|all| > limit ==> |first| == limit);
    hide Truncate;
    Preloads.AscendingPrefix(all, first);
    Searches.LookupAscends(promises, first);
    var page := Lookup(promises, first);
    assert forall id :: id in first ==> id in all;
    LookupLength(promises, first);
    forall id | id in first ensures Has(page, PromiseIdOf, id) {
      assert promises[id].record in page && PromiseIdOf(promises[id].record) == id;
    }
    forall id | id in ids && !Has(page, PromiseIdOf, id)
      ensures |page| == limit && forall x :: x in page ==> Below(x.id, id)
    {
      assert id in all;
      Preloads.ScannedIsBelow(all, first, id);
    }
  }

  /** Where the index is exact, a preload is the first promises of the branch other
      than the promise itself. */
  lemma PreloadIsFirst(env: Env, db: Db, r: PromiseRecord)
    requires forall id :: id in db.promises ==> db.promises[id].record.id == id
    requires Branch in r.tags && Indexed(db.index, r.tags[Branch]) == Siblings(db.promises, r.tags[Branch])
    ensures FirstOf(db.promises, Siblings(db.promises, r.tags[Branch]) - {r.id}, env.preloadLimit, Preload(env, db, r))
  {
    hide FirstOf, Indexed, Lookup, Truncate, Sorted;
    LookupIsFirst(db.promises, Siblings(db.promises, r.tags[Branch]) - {r.id}, env.preloadLimit);
  }

  // ------------------------------------------------------------------- the runs

  lemma NullFreeJoin(a: string, b: string)
    ensures NullFree(a + b) <==> NullFree(a) && NullFree(b)
  {
    assert forall c :: c in a + b <==> c in a || c in b;
  }

  /** A replacement has a null exactly if the text has one, or what it puts in has
      one and is put in. */
  lemma {:induction false} ReplacedNulls(s: string, from: string, to: string)
    requires from != "" && NullFree(from)
    ensures NullFree(Replace(s, from, to)) <==> NullFree(s) && (Occurs(s, from) ==> NullFree(to))
    decreases |s|
  {
    hide NullFree;
    assert NullFree("") by { EmptyIsNullFree(); }
    if s != "" {
      if from <= s {
        var rest := s[|from|..];
        ReplacedNulls(rest, from, to);
        NullFreeJoin(from, rest);
        NullFreeJoin(to, Replace(rest, from, to));
        assert s == from + rest;
      } else {
        ReplacedNulls(s[1..], from, to);
        NullFreeJoin([s[0]], s[1..]);
        NullFreeJoin([s[0]], Replace(s[1..], from, to));
        assert s == [s[0]] + s[1..];
      }
    }
  }

  lemma EmptyIsNullFree()
    ensures NullFree("")
  {
  }

  lemma {:induction false} DigitsNullFree(n: nat)
    ensures NullFree(Digits(n))
  {
    if n >= 10 {
      DigitsNullFree(n / 10);
    }
  }

  /** A promise id template that never fires an id with a null. */
  predicate CleanTemplate(id: Id, promiseId: string) {
    NullFree(promiseId) && (Occurs(promiseId, ID_PLACE) ==> NullFree(id))
  }

  predicate CleanSchedule(s: ScheduleRecord) {
    CleanTemplate(s.id, s.promiseId)
  }

  /** The ids a schedule fires are null-free exactly for a clean template. */
  lemma FiredIdNullFree(s: ScheduleRecord)
    ensures NullFree(FiredPromiseId(s)) <==> CleanSchedule(s)
  {
    hide Replace, Digits, Occurs;
    var inner := Replace(s.promiseId, ID_PLACE, s.id);
    var time := IntToString(s.nextRunAt);
    DigitsNullFree(if s.nextRunAt < 0 then -s.nextRunAt else s.nextRunAt);
    assert NullFree(time);
    ReplacedNulls(s.promiseId, ID_PLACE, s.id);
    ReplacedNulls(inner, TIME_PLACE, time);
  }

  ghost predicate CleanDb(db: Db) {
    && (forall k :: k in db.index ==> CleanKey(k))
    && (forall id :: id in db.schedules ==> CleanSchedule(db.schedules[id]))
  }

  /** No schedule is created whose template fires an id with a null. */
  predicate CleanStep(step: Step) {
    step.Serve? && step.req.ScheduleCreate? ==> CleanTemplate(step.req.id, step.req.promiseId)
  }

  lemma ServeKeepsClean(env: Env, w: World, req: Request, fault: Fault)
    requires CleanDb(w.db) && CleanStep(Serve(req, fault))
    ensures CleanDb(Next(env, w, Serve(req, fault)).db)
  {
    hide Handle, Resolve, CleanKey, NullFree;
    HandleLeaves(env, Begin(w), req);
    CommittedDb(Begin(w), Handle(env, Begin(w), req), fault);
  }

  lemma FireKeepsClean(env: Env, tx: Tx, timer: Payload)
    requires CleanDb(tx.db)
    ensures CleanDb(Fire(env, tx, timer).tx.db)
  {
    hide SettleChain, FireSchedule, CleanKey, NullFree;
    if timer.PromiseTimeout? && timer.promiseId in tx.db.promises {
      var p := tx.db.promises[timer.promiseId];
      SettlementLeaves(tx, p.(record := p.record.Expired()));
    } else if timer.ScheduleFire? && timer.scheduleId in tx.db.schedules {
      FireScheduleKeepsClean(env, tx, tx.db.schedules[timer.scheduleId]);
    }
  }

  lemma FireScheduleKeepsClean(env: Env, tx: Tx, s: ScheduleRecord)
    requires CleanDb(tx.db) && CleanSchedule(s)
    ensures CleanDb(FireSchedule(env, tx, s).db)
  {
    hide CreatePromise, FiredPromiseId, CleanKey, NullFree, BranchKey;
    var id := FiredPromiseId(s);
    FiredIdNullFree(s);
    assert CleanKey(BranchKey(id, id)) by { CleanEntry(id, id); }
    CreateLeaves(tx, FiredData(s), Some(s.nextRunAt), CreateDispatch);
    var a := CreateFired(tx, s);
    assert a.db.schedules == tx.db.schedules && forall k :: k in a.db.index ==> CleanKey(k);
    hide CreateFired;
    assert CleanSchedule(Advance(env, s));
  }

  lemma CleanEntry(branch: string, id: Id)
    requires NullFree(branch) && NullFree(id)
    ensures CleanKey(BranchKey(branch, id))
  {
  }

  lemma StepKeepsClean(env: Env, w: World, step: Step)
    requires CleanDb(w.db) && CleanStep(step)
    ensures CleanDb(Next(env, w, step).db)
  {
    hide Handle, Resolve, Deliver, Fire, CleanKey, CleanSchedule;
    match step
    case Serve(req, fault) => ServeKeepsClean(env, w, req, fault);
    case DeliverClaim(claim, fault) =>
      DeliveriesLeave(Begin(w), claim);
      CommittedDb(Begin(w), Deliver(Begin(w), claim), fault);
    case FireTimer(claim, fault) =>
      FireKeepsClean(env, Begin(w), claim.payload);
      CommittedDb(Begin(w), Fire(env, Begin(w), claim.payload), fault);
    case _ =>
  }

  lemma {:induction false} RunKeepsClean(env: Env, worlds: seq<World>, steps: seq<Step>, i: nat)
    requires IsRun(env, worlds, steps) && i < |worlds| && forall j :: 0 <= j < i ==> CleanStep(steps[j])
    ensures CleanDb(worlds[i].db)
    decreases i
  {
    hide CleanDb, CleanStep, Next, Enabled;
    if i == 0 {
      assert CleanDb(EMPTY_DB) by { EmptyIsClean(); }
    } else {
      RunKeepsClean(env, worlds, steps, i - 1);
      StepKeepsClean(env, worlds[i - 1], steps[i - 1]);
    }
  }

  lemma EmptyIsClean()
    ensures CleanDb(EMPTY_DB)
  {
  }

  lemma CleanKeyParts(branch: string, id: Id)
    requires CleanKey(BranchKey(branch, id))
    ensures NullFree(branch) && NullFree(id)
  {
    var b, i :| NullFree(b) && NullFree(i) && BranchKey(branch, id) == BranchKey(b, i);
    var key := BranchKey(branch, id);
    assert key[|branch|] == '\0';
    assert forall k :: 0 <= k < |key| && key[k] == '\0' ==> k == |b|;
    assert branch == key[..|branch|] == b;
    assert id == key[|branch| + 1..] == i;
  }

  lemma CleanBranches(promises: Promises, index: set<string>)
    requires IndexOk(promises, index) && forall k :: k in index ==> CleanKey(k)
    ensures forall id :: id in promises && Branch in promises[id].record.tags ==>
              NullFree(promises[id].record.tags[Branch]) && NullFree(id)
  {
    hide BranchKey, CleanKey, NullFree;
    forall id | id in promises && Branch in promises[id].record.tags
      ensures NullFree(promises[id].record.tags[Branch]) && NullFree(id)
    {
      CleanKeyParts(promises[id].record.tags[Branch], id);
    }
  }

  lemma WorldIndex(env: Env, w: World)
    requires WorldInv(env, w)
    ensures IndexOk(w.db.promises, w.db.index) && Searches.KeyedDb(w.db)
  {
    hide Searches.KeyedDb;
    Searches.WorldKeyed(env, w);
    hide Keyed, Agree, PromisesOk, CallbacksOk, ResumesOk, JobsOk, TimersOk, SchedulesOk, IndexOk, SentOk, HeldOk,
      AllJobs,
      InflightOk, AckingOk;
  }

  /** In every state of every run: the index of a null-free branch that no other
      extends by a null is the set of its promises, and the preload of any of them
      is the first of the others in id order, `preloadLimit` at most. Where the ids
      of its promises are null-free, the index is exact in no other case. */
  lemma PreloadsAreExact(env: Env, worlds: seq<World>, steps: seq<Step>, i: nat, id: Id)
    requires env.Ok() && IsRun(env, worlds, steps) && i < |worlds|
    requires id in worlds[i].db.promises && Branch in worlds[i].db.promises[id].record.tags
    requires NullFree(worlds[i].db.promises[id].record.tags[Branch])
    ensures var db, r := worlds[i].db, worlds[i].db.promises[id].record;
            !IsExtended(db.promises, r.tags[Branch]) ==>
              && Indexed(db.index, r.tags[Branch]) == Siblings(db.promises, r.tags[Branch])
              && FirstOf(db.promises, Siblings(db.promises, r.tags[Branch]) - {id}, env.preloadLimit, Preload(env, db, r))
    ensures var db, branch := worlds[i].db, worlds[i].db.promises[id].record.tags[Branch];
            (forall s :: s in Siblings(db.promises, branch) ==> NullFree(s)) ==>
              (Indexed(db.index, branch) == Siblings(db.promises, branch) <==> !IsExtended(db.promises, branch))
  {
    hide IsRun, WorldInv, Moves, NullFree, Preload, FirstOf, IndexOk, Indexed, Siblings, IsExtended;
    var db, r := worlds[i].db, worlds[i].db.promises[id].record;
    var branch := r.tags[Branch];
    RunInv(env, worlds, steps, i);
    WorldIndex(env, worlds[i]);
    if !IsExtended(db.promises, branch) {
      UnextendedIsExact(db.promises, db.index, branch);
      PreloadIsFirst(env, db, r);
    }
    if forall s :: s in Siblings(db.promises, branch) ==> NullFree(s) {
      IndexIsExact(db.promises, db.index, branch);
    }
  }

  lemma CleanIsUnextended(promises: Promises, index: set<string>, branch: string)
    requires IndexOk(promises, index) && forall k :: k in index ==> CleanKey(k)
    ensures !IsExtended(promises, branch)
    ensures forall id :: id in promises && Branch in promises[id].record.tags ==> NullFree(promises[id].record.tags[Branch])
  {
    hide IndexOk, CleanKey;
    CleanBranches(promises, index);
    forall id ensures !Extends(promises, branch, id) {
      if id in promises && Branch in promises[id].record.tags {
        Keys.NullFreeBranch(branch, promises[id].record.tags[Branch]);
      }
    }
  }

  /** So every preload is exact in a run whose schedules have clean templates. */
  lemma CleanRunsAreExact(env: Env, worlds: seq<World>, steps: seq<Step>, i: nat, id: Id)
    requires env.Ok() && IsRun(env, worlds, steps) && i < |worlds| && forall j :: 0 <= j < i ==> CleanStep(steps[j])
    requires id in worlds[i].db.promises && Branch in worlds[i].db.promises[id].record.tags
    ensures var db, r := worlds[i].db, worlds[i].db.promises[id].record;
            FirstOf(db.promises, Siblings(db.promises, r.tags[Branch]) - {id}, env.preloadLimit, Preload(env, db, r))
  {
    hide IsRun, WorldInv, Moves, CleanStep, CleanKey, NullFree, Preload, FirstOf, IndexOk, Indexed, Siblings, IsExtended;
    var db, r := worlds[i].db, worlds[i].db.promises[id].record;
    RunInv(env, worlds, steps, i);
    RunKeepsClean(env, worlds, steps, i);
    WorldIndex(env, worlds[i]);
    CleanIsUnextended(db.promises, db.index, r.tags[Branch]);
    PreloadsAreExact(env, worlds, steps, i, id);
  }

  // ------------------------------------------------------------- a null in an id

  function InBranch(id: Id, branch: string): CreateData {
    CreateData(id, 10, EMPTY, map[Branch := branch])
  }

  /** What a valid create of a new promise in a branch leaves. */
  lemma CreatedInBranch(env: Env, w: World, id: Id, branch: string)
    requires ValidCreate(env, InBranch(id, branch)) && id !in w.db.promises
    ensures var w' := Next(env, w, Serve(PromiseCreate(InBranch(id, branch)), NoFault));
            && w'.now == w.now && w'.db.schedules == w.db.schedules
            && w'.db.promises == w.db.promises[id := Promise(CreatedRecord(w.now, InBranch(id, branch), None), [], [])]
            && w'.db.index == w.db.index + {BranchKey(branch, id)}
  {
    var tx, data := Begin(w), InBranch(id, branch);
    CreateLeaves(tx, data, None, CreateDispatch);
    NothingDue(tx, [data.id]);
    hide TryTimeout, CreatePromise, ValidCreate, CreatedRecord, Finish, BranchKey, InBranch;
    CommittedDb(tx, Handle(env, tx, PromiseCreate(data)), NoFault);
  }

  lemma RootsAreValid(env: Env)
    ensures ValidCreate(env, InBranch("a", "a")) && ValidCreate(env, InBranch("a:1", "a"))
  {
  }

  function NullSchedule(now: int, next: int, cron: string, target: string): ScheduleRecord {
    ScheduleRecord("s", cron, "a\0", 1000, EMPTY, map[Target := target], now, next, None)
  }

  function CreateNullSchedule(cron: string, target: string): Request {
    ScheduleCreate("s", cron, "a\0", 1000, EMPTY, map[Target := target])
  }

  /** A schedule is accepted whatever its promise id is. */
  lemma NullScheduleIsAccepted(env: Env, w: World, cron: string, target: string)
    requires env.isUrl(target) && env.nextAfter(cron, w.now).Some? && w.db.schedules == map[]
    ensures var w' := Next(env, w, Serve(CreateNullSchedule(cron, target), NoFault));
            && w'.now == w.now && w'.db.promises == w.db.promises && w'.db.index == w.db.index
            && w'.db.schedules == map["s" := NullSchedule(w.now, env.nextAfter(cron, w.now).value, cron, target)]
  {
    var tx := Begin(w);
    hide Finish;
    CommittedDb(tx, Handle(env, tx, CreateNullSchedule(cron, target)), NoFault);
  }

  lemma NullFires(s: ScheduleRecord)
    requires s.promiseId == "a\0"
    ensures FiredPromiseId(s) == "a\0"
  {
    Absent("a\0", ID_PLACE, s.id);
    Absent("a\0", TIME_PLACE, IntToString(s.nextRunAt));
  }

  /** What the firing of a schedule leaves when its promise is new. */
  lemma FirstFiringLeaves(env: Env, w: World, claim: Claim, id: Id)
    requires id in w.db.schedules && claim.payload == ScheduleFire(id, w.db.schedules[id].nextRunAt)
    requires FiredPromiseId(w.db.schedules[id]) !in w.db.promises
    ensures var w', fired := Next(env, w, FireTimer(claim, NoFault)), FiredPromiseId(w.db.schedules[id]);
            && w'.db.promises.Keys == w.db.promises.Keys + {fired}
            && (forall p :: p in w.db.promises ==> w'.db.promises[p] == w.db.promises[p])
            && w'.db.index == w.db.index + {BranchKey(fired, fired)}
  {
    var tx, s := Begin(w), w.db.schedules[id];
    WorkRecords(env, w, FireTimer(claim, NoFault), NoFault);
    CommittedDb(tx, Fire(env, tx, claim.payload), NoFault);
    FiredLeaves(env, tx, s);
    hide FireSchedule, FiredPromiseId, Resolve, BranchKey, Next;
  }

  lemma FiredLeaves(env: Env, tx: Tx, s: ScheduleRecord)
    requires FiredPromiseId(s) !in tx.db.promises
    ensures var db, fired := FireSchedule(env, tx, s).db, FiredPromiseId(s);
            && db.promises.Keys == tx.db.promises.Keys + {fired}
            && (forall p :: p in tx.db.promises ==> db.promises[p] == tx.db.promises[p])
            && db.index == tx.db.index + {BranchKey(fired, fired)}
  {
    hide CreatePromise, CreatedRecord, FiredPromiseId, BranchKey;
    CreateLeaves(tx, FiredData(s), Some(s.nextRunAt), CreateDispatch);
  }

  /** A restart leaves every job claimable, and the timer of a schedule with a next
      time ahead can be claimed at that time. */
  lemma TimerAfterRestart(env: Env, w: World, id: Id) returns (j: JobId)
    requires WorldInv(env, w) && id in w.db.schedules && w.now <= w.db.schedules[id].nextRunAt
    requires w.db.schedules[id].lastRunAt.None? && 0 <= w.db.schedules[id].nextRunAt
    ensures var at := w.db.schedules[id].nextRunAt;
            var w1 := Next(env, w, Restart);
            var w2 := Next(env, w1, Tick(at));
            var w3 := Next(env, w2, TakeClaim(j, 1));
            && Enabled(w, Restart) && Enabled(w1, Tick(at)) && Enabled(w2, TakeClaim(j, 1))
            && w3.db == w.db && j in w2.queue.jobs
            && Enabled(w3, FireTimer(w2.queue.ClaimOf(j), NoFault))
            && w2.queue.ClaimOf(j).payload == ScheduleFire(id, at)
  {
    hide WorldInv;
    WorldSchedule(env, w, id);
    var at := w.db.schedules[id].nextRunAt;
    j :| j in w.queue.jobs && w.queue.jobs[j].payload == ScheduleFire(id, at) && w.queue.jobs[j].due == at;
  }

  /** The store after the two creates and the schedule's. */
  lemma NullScheduled(env: Env, cron: string, target: string) returns (worlds: seq<World>, steps: seq<Step>)
    requires env.Ok() && env.isUrl(target) && env.nextAfter(cron, 0).Some?
    ensures IsRun(env, worlds, steps) && |worlds| == |steps| + 1
    ensures var w := worlds[|steps|];
            && w.now == 0
            && w.db.schedules == map["s" := NullSchedule(0, env.nextAfter(cron, 0).value, cron, target)]
            && w.db.promises == map["a" := Promise(CreatedRecord(0, InBranch("a", "a"), None), [], []),
                                    "a:1" := Promise(CreatedRecord(0, InBranch("a:1", "a"), None), [], [])]
            && w.db.index == {BranchKey("a", "a"), BranchKey("a", "a:1")}
  {
    hide Next, Enabled, Moves, IsRun, ValidCreate, BranchKey, CreatedRecord;
    hide InBranch, NullSchedule, CreateNullSchedule;
    RootsAreValid(env);
    StartRun(env, 0);
    var w0 := Initial(0);
    var s1, s2 := Serve(PromiseCreate(InBranch("a", "a")), NoFault), Serve(PromiseCreate(InBranch("a:1", "a")), NoFault);
    var s3 := Serve(CreateNullSchedule(cron, target), NoFault);
    var w1 := Next(env, w0, s1);
    var w2 := Next(env, w1, s2);
    var w3 := Next(env, w2, s3);
    AlwaysEnabled(w0, s1);
    AlwaysEnabled(w1, s2);
    AlwaysEnabled(w2, s3);
    CreatedInBranch(env, w0, "a", "a");
    CreatedInBranch(env, w1, "a:1", "a");
    NullScheduleIsAccepted(env, w2, cron, target);
    ExtendRun(env, [w0], [], s1);
    ExtendRun(env, [w0] + [w1], [] + [s1], s2);
    ExtendRun(env, [w0] + [w1] + [w2], [] + [s1] + [s2], s3);
    worlds, steps := [w0] + [w1] + [w2] + [w3], [] + [s1] + [s2] + [s3];
  }

  /** A run to the first firing of a schedule, and what it leaves. */
  lemma RunToFiring(env: Env, worlds: seq<World>, steps: seq<Step>, id: Id) returns (worlds': seq<World>, steps': seq<Step>)
    requires env.Ok() && IsRun(env, worlds, steps) && id in worlds[|steps|].db.schedules
    requires var w, s := worlds[|steps|], worlds[|steps|].db.schedules[id];
             0 <= w.now <= s.nextRunAt && s.lastRunAt.None? && FiredPromiseId(s) !in w.db.promises
    ensures IsRun(env, worlds', steps') && |worlds'| == |steps'| + 1
    ensures var db, db' := worlds[|steps|].db, worlds'[|steps'|].db;
            var fired := FiredPromiseId(db.schedules[id]);
            && db'.promises.Keys == db.promises.Keys + {fired}
            && (forall p :: p in db.promises ==> db'.promises[p] == db.promises[p])
            && db'.index == db.index + {BranchKey(fired, fired)}
  {
    hide Next, Enabled, Moves, WorldInv, BranchKey, FiredPromiseId;
    var w := worlds[|steps|];
    assert |worlds| == |steps| + 1;
    RunInv(env, worlds, steps, |steps|);
    hide IsRun;
    var j := TimerAfterRestart(env, w, id);
    var tick, take := Tick(w.db.schedules[id].nextRunAt), TakeClaim(j, 1);
    var w1 := Next(env, w, Restart);
    var w2 := Next(env, w1, tick);
    var w3 := Next(env, w2, take);
    var fire := FireTimer(w2.queue.ClaimOf(j), NoFault);
    FirstFiringLeaves(env, w3, fire.claim, id);
    ExtendRun(env, worlds, steps, Restart);
    ExtendRun(env, worlds + [w1], steps + [Restart], tick);
    ExtendRun(env, worlds + [w1] + [w2], steps + [Restart] + [tick], take);
    ExtendRun(env, worlds + [w1] + [w2] + [w3], steps + [Restart] + [tick] + [take], fire);
    worlds', steps' := worlds + [w1] + [w2] + [w3] + [Next(env, w3, fire)], steps + [Restart] + [tick] + [take] + [fire];
  }

  /** A schedule with promise id "a" + null fires a promise that the index lists under
      branch "a", before every real one and under an id that no promise has: in this
      run the index of "a" is not the set of its promises, and with a limit of one
      the preload of "a" misses its only sibling. */
  lemma NullHidesSibling(env: Env, cron: string, target: string) returns (worlds: seq<World>, steps: seq<Step>)
    requires env.Ok() && env.isUrl(target) && env.nextAfter(cron, 0).Some?
    ensures IsRun(env, worlds, steps) && |worlds| == |steps| + 1
    ensures var db := worlds[|steps|].db;
            && "a" in db.promises && "a:1" in Siblings(db.promises, "a") && IsExtended(db.promises, "a")
            && Indexed(db.index, "a") != Siblings(db.promises, "a")
            && (env.preloadLimit == 1 ==> Preload(env, db, db.promises["a"].record) == [])
  {
    hide IsRun, WorldInv, Moves, FiredPromiseId, CreatedRecord, InBranch, Indexed, Siblings, IsExtended, Preload, IndexOk;
    hide BranchKey;
    worlds, steps := NullScheduled(env, cron, target);
    NullFires(worlds[|steps|].db.schedules["s"]);
    worlds, steps := RunToFiring(env, worlds, steps, "s");
    RunInv(env, worlds, steps, |steps|);
    WorldIndex(env, worlds[|steps|]);
    NullListed(env, worlds[|steps|].db);
  }

  lemma NullListed(env: Env, db: Db)
    requires IndexOk(db.promises, db.index)
    requires db.promises.Keys == {"a", "a:1", "a\0"}
    requires db.promises["a"] == Promise(CreatedRecord(0, InBranch("a", "a"), None), [], [])
    requires db.promises["a:1"] == Promise(CreatedRecord(0, InBranch("a:1", "a"), None), [], [])
    requires db.index == {BranchKey("a", "a"), BranchKey("a", "a:1"), BranchKey("a\0", "a\0")}
    ensures "a:1" in Siblings(db.promises, "a") && IsExtended(db.promises, "a")
    ensures Indexed(db.index, "a") != Siblings(db.promises, "a")
    ensures env.preloadLimit == 1 ==> Preload(env, db, db.promises["a"].record) == []
  {
    hide Indexed, Lookup, Sorted, Truncate, IndexOk, BranchKey;
    NullIndexed(db.index);
    assert "\0a\0" in Indexed(db.index, "a") && "\0a\0" !in db.promises;
    NullExtends(db);
    NullFirst();
    assert {"a", "a:1", "\0a\0"} - {"a"} == {"a:1", "\0a\0"};
    NullLooksUpNothing(db.promises);
  }

  lemma NullExtends(db: Db)
    requires IndexOk(db.promises, db.index) && Indexed(db.index, "a") != Siblings(db.promises, "a")
    ensures IsExtended(db.promises, "a")
  {
    hide Indexed, IndexOk, Siblings, IsExtended;
    if !IsExtended(db.promises, "a") {
      UnextendedIsExact(db.promises, db.index, "a");
    }
  }

  lemma NullFirst()
    ensures Truncate(Sorted({"a:1", "\0a\0"}), 1) == ["\0a\0"]
  {
    hide Sorted;
    Preloads.AscendingIsSorted(["\0a\0", "a:1"], {"a:1", "\0a\0"});
  }

  lemma NullLooksUpNothing(promises: Promises)
    requires "\0a\0" !in promises
    ensures Lookup(promises, ["\0a\0"]) == []
  {
    assert ["\0a\0"][1..] == [];
  }

  lemma NullIndexed(index: set<string>)
    requires index == {BranchKey("a", "a"), BranchKey("a", "a:1"), BranchKey("a\0", "a\0")}
    ensures Indexed(index, "a") == {"a", "a:1", "\0a\0"}
  {
    OwnEntry("a", "a");
    OwnEntry("a", "a:1");
    Keys.EntryOfBranch("a", "a\0", "a\0");
    assert BranchKey("a\0", "a\0")[2..] == "\0a\0";
  }
}
