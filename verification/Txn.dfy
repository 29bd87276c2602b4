/** The unit of work of one request, as it is carried out: reads through the write
    buffer, the jobs it produces, the claims it keeps, one commit at the end and the
    work that follows it (src/txn.rs). Every method is proved against the meaning
    that `Transaction` gives it. */
module Txns {
  import opened Records
  import opened Queues
  import opened Transaction
  import opened Text
  import opened Kernel
  import opened Invariant
  import opened Worlds
  import Preloads

  /** The committed records, the queue with its lease registry, and the held claims.
      `sent` and `done` only record history. */
  class Store {
    var db: Db
    var queue: Queue
    var held: map<Id, Claim>
    ghost var sent: map<JobId, Message>
    ghost var done: set<JobId>

    constructor ()
      ensures forall now :: Val(now) == Tx(now, EMPTY_DB, EMPTY_QUEUE, map[], map[], {}, map[], [])
    {
      db, queue, held, sent, done := EMPTY_DB, EMPTY_QUEUE, map[], map[], {};
    }

    ghost function Val(now: int): Tx
      reads this
    {
      Tx(now, db, queue, held, sent, done, map[], [])
    }

    /** What only a commit, and the work that follows it, changes. */
    ghost function Durable(): (Db, map<JobId, Job>, map<JobId, Message>, set<JobId>)
      reads this
    {
      (db, queue.jobs, sent, done)
    }
  }

  /** The schedules with the writes of a request, where `None` records a deletion. */
  function Overlay(schedules: map<Id, ScheduleRecord>, writes: map<Id, Option<ScheduleRecord>>): map<Id, ScheduleRecord> {
    map id | id in schedules.Keys + writes.Keys && !(id in writes && writes[id].None?) ::
      if id in writes then writes[id].value else schedules[id]
  }

  predicate AtOrPast(k: string, from: string) {
    !Below(k, from)
  }

  /** The elements of `s` in ascending order: a scan of stored keys, or a sort. */
  method Ascend(s: set<string>) returns (r: seq<string>)
    ensures r == Sorted(s)
  {
    hide Sorted, IsLeast;
    r := [];
    var rest := s;
    while rest != {}
      invariant Sorted(s) == r + Sorted(rest)
      decreases |rest|
    {
      Preloads.LeastIsIn(rest);
      var m :| m in rest && IsLeast(m, rest);
      Preloads.SortedStep(rest, m);
      r := r + [m];
      rest := rest - {m};
    }
    Preloads.SortedOfNone();
  }

  class Txn {
    const store: Store
    const now: int
    const env: Env
    /** The entries written by this request, by the kind of their key. */
    var promises: map<Id, Promise>
    var tasks: map<Id, Task>
    var schedules: map<Id, Option<ScheduleRecord>>
    var index: set<string>
    var enqueues: map<JobId, Job>
    var after: seq<After>
    ghost var sent: map<JobId, Message>

    constructor (store: Store, now: int, env: Env)
      ensures this.store == store && this.now == now && this.env == env
      ensures IsNew() && Val() == store.Val(now)
    {
      this.store, this.now, this.env := store, now, env;
      promises, tasks, schedules, index, enqueues, after, sent := map[], map[], map[], {}, map[], [], store.sent;
      new;
      NothingWritten();
    }

    /** No write, no enqueue and no work after the commit. */
    ghost predicate IsNew()
      reads this, store
    {
      promises == map[] && tasks == map[] && schedules == map[] && index == {} && enqueues == map[] && after == []
      && sent == store.sent
    }

    /** The records as the request reads them. */
    ghost function View(): Db
      reads this, store
    {
      Db(store.db.promises + promises, store.db.tasks + tasks, Overlay(store.db.schedules, schedules), store.db.index + index)
    }

    /** The meaning of the transaction so far. */
    ghost function Val(): Tx
      reads this, store
    {
      Tx(now, View(), store.queue, store.held, sent, store.done, enqueues, after)
    }

    lemma NothingWritten()
      requires promises == map[] && tasks == map[] && schedules == map[] && index == {}
      ensures View() == store.db
    {
      assert store.db.promises + promises == store.db.promises && store.db.tasks + tasks == store.db.tasks;
      assert Overlay(store.db.schedules, schedules) == store.db.schedules && store.db.index + index == store.db.index;
    }

    // ------------------------------------------------------------------- records

    /** A read sees the request's own writes first, then the committed record. */
    method GetPromise(id: Id) returns (p: Option<Promise>)
      ensures p == if id in Val().db.promises then Some(Val().db.promises[id]) else None
    {
      if id in promises {
        return Some(promises[id]);
      }
      p := if id in store.db.promises then Some(store.db.promises[id]) else None;
    }

    method PutPromise(p: Promise)
      modifies this`promises
      ensures Val() == Transaction.PutPromise(old(Val()), p)
    {
      promises := promises[p.record.id := p];
      assert store.db.promises + promises == (store.db.promises + old(promises))[p.record.id := p];
    }

    method IndexBranch(r: PromiseRecord)
      modifies this`index
      ensures Val() == Transaction.IndexBranch(old(Val()), r)
    {
      if Branch in r.tags {
        index := index + {BranchKey(r.tags[Branch], r.id)};
        assert store.db.index + index == (store.db.index + old(index)) + {BranchKey(r.tags[Branch], r.id)};
      }
    }

    method GetTask(id: Id) returns (t: Option<Task>)
      ensures t == if id in Val().db.tasks then Some(Val().db.tasks[id]) else None
    {
      if id in tasks {
        return Some(tasks[id]);
      }
      t := if id in store.db.tasks then Some(store.db.tasks[id]) else None;
    }

    method PutTask(t: Task)
      modifies this`tasks
      ensures Val() == Transaction.PutTask(old(Val()), t)
    {
      tasks := tasks[t.id := t];
      assert store.db.tasks + tasks == (store.db.tasks + old(tasks))[t.id := t];
    }

    method GetSchedule(id: Id) returns (s: Option<ScheduleRecord>)
      ensures s == if id in Val().db.schedules then Some(Val().db.schedules[id]) else None
    {
      if id in schedules {
        return schedules[id];
      }
      s := if id in store.db.schedules then Some(store.db.schedules[id]) else None;
    }

    method PutSchedule(s: ScheduleRecord)
      modifies this`schedules
      ensures Val() == Transaction.PutSchedule(old(Val()), s)
    {
      schedules := schedules[s.id := Some(s)];
      assert Overlay(store.db.schedules, schedules) == Overlay(store.db.schedules, old(schedules))[s.id := s];
    }

    method DeleteSchedule(id: Id)
      modifies this`schedules
      ensures Val() == Transaction.DeleteSchedule(old(Val()), id)
    {
      schedules := schedules[id := None];
      assert Overlay(store.db.schedules, schedules) == Overlay(store.db.schedules, old(schedules)) - {id};
    }

    // ------------------------------------------------------------------- preload

    /** The committed ids of a branch but `skip`, in order: all of them, or more than
        the limit. */
    method ScanCommitted(branch: string, skip: Id) returns (ids: seq<Id>)
      ensures ids <= Sorted(Indexed(store.db.index, branch) - {skip})
      ensures ids == Sorted(Indexed(store.db.index, branch) - {skip}) || |ids| > env.preloadLimit
    {
      hide Sorted, Indexed, Below, Ascending, Preloads.Suffixes;
      var prefix := BranchKey(branch, "");
      var keys := Ascend(set k | k in store.db.index && prefix <= k);
      EntriesOf(store.db.index, branch, skip, keys);
      BranchPrefixLength(branch);
      ids := SpellIds(keys, |prefix|, skip);
    }

    /** The ids that `keys` spell after their prefix, until there are more than the
        limit. */
    method SpellIds(keys: seq<string>, n: nat, skip: Id) returns (ids: seq<Id>)
      requires forall k :: k in keys ==> n <= |k|
      ensures ids <= Preloads.Suffixes(keys, n, skip)
      ensures ids == Preloads.Suffixes(keys, n, skip) || |ids| > env.preloadLimit
    {
      hide Preloads.Suffixes;
      ids := [];
      var i := 0;
      assert Preloads.Suffixes(keys[..0], n, skip) == [] by { Preloads.NoSuffix(n, skip); }
      while i < |keys|
        invariant i <= |keys| && ids == Preloads.Suffixes(keys[..i], n, skip)
      {
        Preloads.NextSuffix(keys, n, skip, i);
        var id := keys[i][n..];
        if id != skip {
          ids := ids + [id];
        }
        i := i + 1;
        if |ids| > env.preloadLimit {
          break;
        }
      }
      Preloads.SuffixesOfPrefix(keys, n, skip, i);
      assert keys[..|keys|] == keys;
    }

    static lemma EntriesOf(index: set<string>, branch: string, skip: Id, keys: seq<string>)
      requires keys == Sorted(set k | k in index && BranchKey(branch, "") <= k)
      ensures forall k :: k in keys ==> |branch| + 1 <= |k|
      ensures Preloads.Suffixes(keys, |branch| + 1, skip) == Sorted(Indexed(index, branch) - {skip})
    {
      var prefix := BranchKey(branch, "");
      hide Sorted, BranchKey;
      assert |prefix| == |branch| + 1 by { BranchPrefixLength(branch); }
      Preloads.SuffixesAscend(keys, prefix, skip);
      var ids := Preloads.Suffixes(keys, |prefix|, skip);
      forall id ensures id in ids <==> id in Indexed(index, branch) - {skip} {
        SpelledBy(index, branch, id);
      }
      Preloads.AscendingIsSorted(ids, Indexed(index, branch) - {skip});
    }

    static lemma BranchPrefixLength(branch: string)
      ensures |BranchKey(branch, "")| == |branch| + 1
    {
    }

    static lemma SpelledBy(index: set<string>, branch: string, id: Id)
      ensures id in Indexed(index, branch) <==> BranchKey(branch, "") + id in index
    {
      var prefix := BranchKey(branch, "");
      if prefix + id in index {
        assert (prefix + id)[|branch| + 1..] == id;
      }
      if id in Indexed(index, branch) {
        var k :| k in index && prefix <= k && id == k[|branch| + 1..];
        assert k[..|prefix|] == prefix;
        assert k == prefix + id;
      }
    }

    /** The ids of a branch this request wrote, but `skip`, after `known`. */
    method MergeWritten(branch: string, skip: Id, known: seq<Id>) returns (ids: seq<Id>)
      requires skip !in known && Distinct(known)
      ensures forall id :: id in ids <==> id in known || id in Indexed(index, branch) - {skip}
      ensures Distinct(ids)
    {
      hide Sorted, Indexed, Below, Distinct;
      var prefix := BranchKey(branch, "");
      var keys := Ascend(set k | k in index && AtOrPast(k, prefix));
      hide BranchKey;
      ids := known;
      var i := 0;
      while i < |keys| && prefix <= keys[i]
        invariant i <= |keys| && Distinct(ids)
        invariant forall id :: id in ids <==> id in known || (id != skip && prefix + id in keys[..i])
      {
        var id := keys[i][|prefix|..];
        assert keys[i][..|prefix|] == prefix;
        assert keys[i] == prefix + id;
        Preloads.SpelledOnce(prefix, id);
        assert keys[..i + 1] == keys[..i] + [keys[i]];
        if id != skip && id !in ids {
          AppendDistinct(ids, id);
          ids := ids + [id];
        }
        i := i + 1;
      }
      forall id ensures prefix + id in keys[..i] <==> id in Indexed(index, branch) {
        SpelledBy(index, branch, id);
        WrittenBefore(keys, index, prefix, i, id);
      }
    }

    static lemma AppendDistinct(ids: seq<Id>, id: Id)
      requires Distinct(ids) && id !in ids
      ensures Distinct(ids + [id])
    {
    }

    /** The scan of the written keys may stop at the first key without the prefix. */
    static lemma WrittenBefore(keys: seq<string>, index: set<string>, prefix: string, i: nat, id: Id)
      requires keys == Sorted(set k | k in index && AtOrPast(k, prefix))
      requires i <= |keys| && (i < |keys| ==> !(prefix <= keys[i]))
      ensures prefix + id in keys[..i] <==> prefix + id in index
    {
      hide Sorted;
      Preloads.PrefixIsFirst(prefix, prefix + id);
      if prefix + id in index {
        assert prefix + id in keys;
        var j :| 0 <= j < |keys| && keys[j] == prefix + id;
        if i < |keys| {
          assert keys[i] in keys;
          if i < j {
            Preloads.PrefixIsContiguous(prefix, keys[i], keys[j]);
          }
        }
        assert keys[..i][j] == keys[j];
      } else {
        assert prefix + id !in keys;
      }
    }

    /** The first ids of a branch but `skip`, committed or written by this request. */
    method BranchIds(branch: string, skip: Id) returns (ids: seq<Id>)
      ensures ids == Truncate(Sorted(Indexed(store.db.index + index, branch) - {skip}), env.preloadLimit)
    {
      hide Sorted, Indexed, Distinct, Truncate;
      ghost var committed := Indexed(store.db.index, branch) - {skip};
      ghost var written := Indexed(index, branch) - {skip};
      var scanned := ScanCommitted(branch, skip);
      ScanIsDistinct(committed, scanned, skip);
      var merged := MergeWritten(branch, skip, scanned);
      assert (set id | id in merged) == (set id | id in scanned) + written;
      ids := Ascend(set id | id in merged);
      Preloads.BoundedScanIsEnough(committed, scanned, written, env.preloadLimit);
      IndexedUnion(store.db.index, index, branch);
      assert committed + written == Indexed(store.db.index + index, branch) - {skip};
      TruncateIs(ids, env.preloadLimit);
      if |ids| > env.preloadLimit {
        ids := ids[..env.preloadLimit];
      }
    }

    static lemma TruncateIs(ids: seq<Id>, limit: nat)
      ensures Truncate(ids, limit) == if |ids| > limit then ids[..limit] else ids
    {
    }

    /** The promises that share `r`'s branch, with those this request wrote. */
    method Preload(r: PromiseRecord) returns (records: seq<PromiseRecord>)
      ensures records == Kernel.Preload(env, Val().db, r)
    {
      hide Sorted, Indexed, Truncate, Lookup, Overlay;
      if Branch in r.tags {
        var ids := BranchIds(r.tags[Branch], r.id);
        records := Records(ids);
      } else {
        records := [];
      }
    }

    /** The records of the promises `ids` that exist. */
    method Records(ids: seq<Id>) returns (records: seq<PromiseRecord>)
      ensures records == Lookup(Val().db.promises, ids)
    {
      hide Lookup;
      records := [];
      var i := 0;
      while i < |ids|
        invariant i <= |ids|
        invariant records + Lookup(View().promises, ids[i..]) == Lookup(View().promises, ids)
      {
        var sibling := GetPromise(ids[i]);
        LookupFirst(View().promises, ids[i..]);
        assert ids[i..][1..] == ids[i + 1..];
        if sibling.Some? {
          records := records + [sibling.value.record];
        }
        i := i + 1;
      }
      LookupNothing(View().promises, ids[i..]);
    }

    static lemma ScanIsDistinct(all: set<Id>, scanned: seq<Id>, skip: Id)
      requires scanned <= Sorted(all) && skip !in all
      ensures skip !in scanned && Distinct(scanned)
    {
      assert forall id :: id in scanned ==> id in Sorted(all);
      forall i, j | 0 <= i < j < |scanned| ensures scanned[i] != scanned[j] {
        assert scanned[i] == Sorted(all)[i] && scanned[j] == Sorted(all)[j];
        BelowTotal(scanned[i], scanned[j]);
        BelowTotal(scanned[i], scanned[i]);
      }
    }

    static lemma IndexedUnion(a: set<string>, b: set<string>, branch: string)
      ensures Indexed(a + b, branch) == Indexed(a, branch) + Indexed(b, branch)
    {
      hide BranchKey;
    }

    static lemma LookupFirst(records: map<Id, Promise>, ids: seq<Id>)
      requires ids != []
      ensures Lookup(records, ids) ==
                (if ids[0] in records then [records[ids[0]].record] else []) + Lookup(records, ids[1..])
    {
    }

    static lemma LookupNothing(records: map<Id, Promise>, ids: seq<Id>)
      requires ids == []
      ensures Lookup(records, ids) == []
    {
    }

    // ------------------------------------------------------------------- listing

    /** Every committed promise, in id order. */
    method Promises() returns (records: seq<PromiseRecord>)
      ensures records == Lookup(store.db.promises, Sorted(store.db.promises.Keys))
    {
      hide Lookup, Sorted;
      var ids := Ascend(store.db.promises.Keys);
      records := [];
      var i := 0;
      while i < |ids|
        invariant i <= |ids|
        invariant records + Lookup(store.db.promises, ids[i..]) == Lookup(store.db.promises, ids)
      {
        LookupFirst(store.db.promises, ids[i..]);
        assert ids[i..][1..] == ids[i + 1..] && ids[i] in ids;
        records := records + [store.db.promises[ids[i]].record];
        i := i + 1;
      }
      LookupNothing(store.db.promises, ids[i..]);
    }

    /** Every committed task, in id order. */
    method Tasks() returns (records: seq<TaskRecord>)
      ensures records == LookupTasks(store.db.tasks, Sorted(store.db.tasks.Keys))
    {
      hide LookupTasks, Sorted;
      var tasks := store.db.tasks;
      var ids := Ascend(tasks.Keys);
      records := [];
      var i := 0;
      while i < |ids|
        invariant i <= |ids|
        invariant records + LookupTasks(tasks, ids[i..]) == LookupTasks(tasks, ids)
      {
        assert ids[i] in ids;
        LookupTasksAt(tasks, ids, i);
        records := records + [tasks[ids[i]].Record()];
        i := i + 1;
      }
      LookupTasksAt(tasks, ids, i);
    }

    /** Every committed schedule, in id order. */
    method Schedules() returns (records: seq<ScheduleRecord>)
      ensures records == LookupSchedules(store.db.schedules, Sorted(store.db.schedules.Keys))
    {
      hide LookupSchedules, Sorted;
      var schedules := store.db.schedules;
      var ids := Ascend(schedules.Keys);
      records := [];
      var i := 0;
      while i < |ids|
        invariant i <= |ids|
        invariant records + LookupSchedules(schedules, ids[i..]) == LookupSchedules(schedules, ids)
      {
        assert ids[i] in ids;
        LookupSchedulesAt(schedules, ids, i);
        records := records + [schedules[ids[i]]];
        i := i + 1;
      }
      LookupSchedulesAt(schedules, ids, i);
    }

    static lemma LookupTasksAt(tasks: map<Id, Task>, ids: seq<Id>, i: nat)
      requires i <= |ids| && (i < |ids| ==> ids[i] in tasks)
      ensures LookupTasks(tasks, ids[i..]) ==
                if i == |ids| then [] else [tasks[ids[i]].Record()] + LookupTasks(tasks, ids[i + 1..])
    {
      if i < |ids| {
        assert ids[i..][1..] == ids[i + 1..];
      }
    }

    static lemma LookupSchedulesAt(schedules: map<Id, ScheduleRecord>, ids: seq<Id>, i: nat)
      requires i <= |ids| && (i < |ids| ==> ids[i] in schedules)
      ensures LookupSchedules(schedules, ids[i..]) ==
                if i == |ids| then [] else [schedules[ids[i]]] + LookupSchedules(schedules, ids[i + 1..])
    {
      if i < |ids| {
        assert ids[i..][1..] == ids[i + 1..];
      }
    }

    // ---------------------------------------------------------------------- jobs

    /** Enqueue `job` under a fresh id. */
    method Enqueue(job: Job) returns (id: JobId)
      modifies this`enqueues, store`queue
      ensures Val() == Stage(old(Val()), job) && id == old(store.queue.nextJob)
      ensures store.Durable() == old(store.Durable())
    {
      id := store.queue.nextJob;
      store.queue := store.queue.(nextJob := id + 1);
      enqueues := enqueues[id := job];
    }

    method SendUnblock(address: Address, r: PromiseRecord)
      modifies this`enqueues, this`sent, store`queue
      ensures Val() == Transaction.SendUnblock(old(Val()), address, r)
      ensures store.Durable() == old(store.Durable())
    {
      var id := Enqueue(Job(Deliveries(address), Unblock(r), 0));
      sent := sent[id := Message(address, r)];
    }

    /** The task is written with the id of its new job. */
    method Dispatch(t: Task, runAt: Option<int>) returns (t': Task)
      modifies this`tasks, this`enqueues, store`queue
      ensures Val() == Transaction.Dispatch(old(Val()), t, runAt) && t' == t.(job := Some(old(store.queue.nextJob)))
      ensures store.Durable() == old(store.Durable())
    {
      t' := t.(job := Some(store.queue.nextJob));
      PutTask(t');
      var due := match runAt { case Some(at) => Max(at, 0) case None => 0 };
      var _ := Enqueue(Job(Deliveries(t.target), Execute(t.id), due));
    }

    method ScheduleTimer(timer: Payload, at: int)
      modifies this`enqueues, store`queue
      ensures Val() == Transaction.ScheduleTimer(old(Val()), timer, at)
      ensures store.Durable() == old(store.Durable())
    {
      var _ := Enqueue(Job(Timers, timer, Max(at, 0)));
    }

    // -------------------------------------------------------------------- claims

    /** A held claim whose lease ended is dropped. */
    method Holds(task: Id) returns (held: bool)
      modifies store`held
      ensures held == Transaction.Holds(old(Val()), task)
      ensures Val() == AfterHolds(old(Val()), task) && store.Durable() == old(store.Durable())
    {
      held := false;
      if task in store.held {
        var claim := store.held[task];
        if claim.job in store.queue.leases && store.queue.leases[claim.job].expiry > now {
          held := true;
        } else {
          store.held := store.held - {task};
        }
      }
      assert task !in old(store.held) ==> old(store.held) - {task} == old(store.held);
    }

    method Renew(task: Id, lease: int) returns (renewed: bool)
      modifies store`held, store`queue
      ensures renewed == CanRenew(old(Val()), task)
      ensures Val() == Transaction.Renew(old(Val()), task, lease) && store.Durable() == old(store.Durable())
    {
      var held := Holds(task);
      if !held {
        return false;
      }
      var claim := store.held[task];
      renewed := store.queue.Current(claim);
      if renewed {
        store.queue := store.queue.Renewed(claim, now + lease);
      } else {
        store.held := store.held - {task};
      }
    }

    method ClaimJob(task: Id, job: JobId, lease: int) returns (claimed: bool)
      modifies store`held, store`queue
      ensures claimed == old(store.queue).Claimable(job)
      ensures Val() == ClaimHeld(old(Val()), task, job, lease) && store.Durable() == old(store.Durable())
    {
      claimed := store.queue.Claimable(job);
      if claimed {
        store.held := store.held[task := store.queue.ClaimOf(job)];
        store.queue := store.queue.ClaimById(job, now + lease);
      }
    }

    /** Whether job `id` exists in any state. */
    method JobExists(id: JobId) returns (exists': bool)
      ensures exists' == (id in Val().queue.jobs)
    {
      exists' := id in store.queue.jobs;
    }

    method FollowWith(a: After)
      modifies this`after
      ensures Val() == Then(old(Val()), a)
    {
      after := after + [a];
    }

    // -------------------------------------------------------------------- commit

    /** The writes and enqueues reach the store, and the buffer is empty. */
    method Apply()
      modifies this, store
      ensures Val() == Committed(old(Val())) && store.done == old(store.done)
      ensures promises == map[] && tasks == map[] && schedules == map[] && index == {} && enqueues == map[]
      ensures sent == store.sent
      ensures after == old(after)
    {
      store.db := Db(store.db.promises + promises, store.db.tasks + tasks, Overlay(store.db.schedules, schedules), store.db.index + index);
      store.queue := store.queue.(jobs := store.queue.jobs + enqueues);
      store.sent := sent;
      promises, tasks, schedules, index, enqueues := map[], map[], map[], {}, map[];
      NothingWritten();
    }

    /** One step of the work that follows the commit; a lost claim has no effect. */
    method Follow(a: After)
      modifies store`queue, store`held
      ensures Val() == RunAfter(old(Val()), a)
    {
      match a
      case AckClaim(claim) => store.queue := store.queue.Ack(claim);
      case Hold(task, claim) => store.held := store.held[task := claim];
      case Release(task) =>
        if task in store.held {
          store.queue := store.queue.Ack(store.held[task]);
          store.held := store.held - {task};
        }
      case NackHeld(task) =>
        if task in store.held {
          store.queue := store.queue.Nack(store.held[task]);
          store.held := store.held - {task};
        }
      case ClaimJob(task, job, lease) =>
        var _ := ClaimJob(task, job, lease);
    }

    /** The work that follows the commit, in order. */
    method Finish()
      modifies this`after, store`queue, store`held
      ensures Val() == Transaction.Finish(old(Val()), |old(after)|) && after == []
    {
      var todo := after;
      after := [];
      var i := 0;
      while i < |todo|
        invariant i <= |todo| && after == []
        invariant Transaction.Finish(Val().(after := todo[i..]), |todo| - i) == Transaction.Finish(old(Val()), |todo|)
      {
        ghost var before := Val();
        Follow(todo[i]);
        FollowedOne(before, todo[i..]);
        i := i + 1;
        assert todo[i - 1..][1..] == todo[i..];
      }
      assert todo[|todo|..] == [];
    }

    static lemma FollowedOne(before: Tx, todo: seq<After>)
      requires todo != []
      ensures Transaction.Finish(before.(after := todo), |todo|) ==
                Transaction.Finish(RunAfter(before, todo[0]).(after := todo[1..]), |todo| - 1)
    {
      RunAfterIgnoresTheRest(before, todo, todo[1..], todo[0]);
      hide RunAfter;
    }

    static lemma RunAfterIgnoresTheRest(before: Tx, todo: seq<After>, rest: seq<After>, a: After)
      ensures RunAfter(before.(after := todo), a).(after := rest) == RunAfter(before, a).(after := rest)
    {
    }

    /** Every write and enqueue as one transaction, then the work that follows. */
    method Commit()
      modifies this, store
      ensures Val() == Transaction.Finish(Committed(old(Val())), |old(after)|)
      ensures IsNew() && store.Val(now) == Val()
    {
      Apply();
      Finish();
      NothingWritten();
    }

    /** The commit in the transaction that acknowledges the held claim of `task`.
        Without a current claim the store is unchanged. */
    method CommitAck(task: Id) returns (ok: bool)
      modifies this, store
      ensures ok == (Transaction.Holds(old(Val()), task) && old(store.queue).Current(old(store.held)[task]))
      ensures ok ==> Val() == Transaction.Finish(CommittedAck(old(Val()), task), |old(after)|)
                     && IsNew() && store.Val(now) == Val()
      ensures !ok ==> Val() == old(Val()).(held := old(store.held) - {task}) && store.Durable() == old(store.Durable())
    {
      var held := Holds(task);
      if !held {
        assert task !in old(store.held) ==> old(store.held) - {task} == old(store.held);
        return false;
      }
      var claim := store.held[task];
      ok := store.queue.Current(claim);
      store.held := store.held - {task};
      if ok {
        store.queue := store.queue.Ack(claim);
        Apply();
        Finish();
        NothingWritten();
      }
    }

    // ------------------------------------------------------------- how it ended

    /** The store and the reply are those of a request that began in `before` and
        decided `out`, without a fault. */
    ghost predicate Ended(before: Tx, out: Outcome, reply: Reply)
      reads this, store
    {
      var end := Resolve(before, out, NoFault);
      store.Val(now) == end.tx && reply == end.reply
    }

    /** Dropping the transaction leaves the store as `Abandon` says. */
    lemma Dropped(before: Tx, reply: Reply)
      requires before.staged == map[] && before.after == [] && before.now == now
      requires store.Durable() == (before.db, before.queue.jobs, before.sent, before.done)
      ensures Ended(before, Outcome(Val(), reply, Discard), reply)
    {
      hide Overlay;
    }
  }
}
