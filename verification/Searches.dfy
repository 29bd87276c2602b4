/** The three searches, paged through while the store runs. */
module Searches {
  import opened Records
  import opened Reference
  import opened Queues
  import opened Transaction
  import opened Text
  import opened Kernel
  import opened Invariant
  import opened Worlds
  import opened Runs
  import opened Theorems
  import opened Paging

  // -------------------------------------------------------------- what is listed

  lemma {:induction false} LookupAscends(promises: Promises, ids: seq<Id>)
    requires Ascending(ids) && forall id :: id in promises ==> promises[id].record.id == id
    ensures AscendingBy(Lookup(promises, ids), PromiseIdOf)
    ensures forall x :: x in Lookup(promises, ids) <==> x.id in ids && x.id in promises && promises[x.id].record == x
  {
    if ids != [] {
      LookupAscends(promises, ids[1..]);
      BelowTotal(ids[0], ids[0]);
      assert forall id :: id in ids <==> id == ids[0] || id in ids[1..];
    }
  }

  lemma {:induction false} LookupTasksAscends(tasks: Tasks, ids: seq<Id>)
    requires Ascending(ids) && forall id :: id in tasks ==> tasks[id].id == id
    ensures AscendingBy(LookupTasks(tasks, ids), TaskIdOf)
    ensures forall x :: x in LookupTasks(tasks, ids) <==> x.id in ids && x.id in tasks && tasks[x.id].Record() == x
  {
    if ids != [] {
      LookupTasksAscends(tasks, ids[1..]);
      BelowTotal(ids[0], ids[0]);
      assert forall id :: id in ids <==> id == ids[0] || id in ids[1..];
    }
  }

  lemma {:induction false} LookupSchedulesAscends(schedules: map<Id, ScheduleRecord>, ids: seq<Id>)
    requires Ascending(ids) && forall id :: id in schedules ==> schedules[id].id == id
    ensures AscendingBy(LookupSchedules(schedules, ids), ScheduleIdOf)
    ensures forall x :: x in LookupSchedules(schedules, ids) <==> x.id in ids && x.id in schedules && schedules[x.id] == x
  {
    if ids != [] {
      LookupSchedulesAscends(schedules, ids[1..]);
      BelowTotal(ids[0], ids[0]);
      assert forall id :: id in ids <==> id == ids[0] || id in ids[1..];
    }
  }

  ghost predicate KeyedDb(db: Db) {
    && (forall id :: id in db.promises ==> db.promises[id].record.id == id)
    && (forall id :: id in db.tasks ==> db.tasks[id].id == id)
    && (forall id :: id in db.schedules ==> db.schedules[id].id == id)
  }

  /** A search lists exactly the records that match, in id order. */
  lemma PromisesFound(db: Db, state: Option<PromiseState>, filter: Option<Tags>)
    requires KeyedDb(db)
    ensures AscendingBy(MatchingPromises(db, state, filter), PromiseIdOf)
    ensures forall x :: x in MatchingPromises(db, state, filter) <==>
              x.id in db.promises && db.promises[x.id].record == x && PromiseMatches(x, state, filter)
  {
    hide Lookup, FilterSeq, Sorted, AscendingBy, Ascending, TagsMatch;
    LookupAscends(db.promises, Sorted(db.promises.Keys));
    FiltersAscend(Lookup(db.promises, Sorted(db.promises.Keys)), PromiseIdOf);
  }

  /** A filter lists what has all of its tags. */
  lemma FilterWanted(tags: Tags, filter: Option<Tags>)
    ensures TagsMatch(tags, filter) <==> filter.None? || HasTags(tags, filter.value)
  {
    if filter.Some? {
      var wanted := filter.value;
      assert forall k :: k in wanted ==> (k, wanted[k]) in wanted.Items;
      assert forall i :: i in wanted.Items ==> i.0 in wanted && wanted[i.0] == i.1;
    }
  }

  lemma PromiseWanted(r: PromiseRecord, state: Option<PromiseState>, filter: Option<Tags>)
    ensures PromiseMatches(r, state, filter) <==> WantsPromise(r, state, filter)
  {
    hide TagsMatch, HasTags;
    FilterWanted(r.tags, filter);
  }

  lemma ScheduleWanted(s: ScheduleRecord, filter: Option<Tags>)
    ensures ScheduleMatches(s, filter) <==> WantsSchedule(s, filter)
  {
    hide TagsMatch, HasTags;
    FilterWanted(s.promiseTags, filter);
  }

  lemma PromisesListed(db: Db, state: Option<PromiseState>, filter: Option<Tags>)
    requires KeyedDb(db)
    ensures AscendingBy(MatchingPromises(db, state, filter), PromiseIdOf)
    ensures forall id :: Has(MatchingPromises(db, state, filter), PromiseIdOf, id) <==>
                           id in db.promises && WantsPromise(db.promises[id].record, state, filter)
  {
    hide MatchingPromises, AscendingBy, PromiseMatches, WantsPromise;
    PromisesFound(db, state, filter);
    forall id | id in db.promises ensures WantsPromise(db.promises[id].record, state, filter) <==>
                                            PromiseMatches(db.promises[id].record, state, filter) {
      PromiseWanted(db.promises[id].record, state, filter);
      assert PromiseIdOf(db.promises[id].record) == id;
    }
  }

  lemma TasksFound(db: Db, state: Option<TaskState>)
    requires KeyedDb(db)
    ensures AscendingBy(MatchingTasks(db, state), TaskIdOf)
    ensures forall x :: x in MatchingTasks(db, state) <==>
              x.id in db.tasks && db.tasks[x.id].Record() == x && TaskMatches(x, state)
  {
    hide LookupTasks, FilterSeq, Sorted, AscendingBy, Ascending, TagsMatch;
    LookupTasksAscends(db.tasks, Sorted(db.tasks.Keys));
    FiltersAscend(LookupTasks(db.tasks, Sorted(db.tasks.Keys)), TaskIdOf);
  }

  lemma TasksListed(db: Db, state: Option<TaskState>)
    requires KeyedDb(db)
    ensures AscendingBy(MatchingTasks(db, state), TaskIdOf)
    ensures forall id :: Has(MatchingTasks(db, state), TaskIdOf, id) <==>
                           id in db.tasks && WantsTask(db.tasks[id], state)
  {
    hide MatchingTasks, AscendingBy, TagsMatch;
    TasksFound(db, state);
    forall id | id in db.tasks && TaskMatches(db.tasks[id].Record(), state)
      ensures Has(MatchingTasks(db, state), TaskIdOf, id)
    {
      assert TaskIdOf(db.tasks[id].Record()) == id;
    }
  }

  lemma SchedulesFound(db: Db, filter: Option<Tags>)
    requires KeyedDb(db)
    ensures AscendingBy(MatchingSchedules(db, filter), ScheduleIdOf)
    ensures forall x :: x in MatchingSchedules(db, filter) <==>
              x.id in db.schedules && db.schedules[x.id] == x && ScheduleMatches(x, filter)
  {
    hide LookupSchedules, FilterSeq, Sorted, AscendingBy, Ascending, TagsMatch;
    LookupSchedulesAscends(db.schedules, Sorted(db.schedules.Keys));
    FiltersAscend(LookupSchedules(db.schedules, Sorted(db.schedules.Keys)), ScheduleIdOf);
  }

  lemma SchedulesListed(db: Db, filter: Option<Tags>)
    requires KeyedDb(db)
    ensures AscendingBy(MatchingSchedules(db, filter), ScheduleIdOf)
    ensures forall id :: Has(MatchingSchedules(db, filter), ScheduleIdOf, id) <==>
                           id in db.schedules && WantsSchedule(db.schedules[id], filter)
  {
    hide MatchingSchedules, AscendingBy, ScheduleMatches, WantsSchedule;
    SchedulesFound(db, filter);
    forall id | id in db.schedules ensures WantsSchedule(db.schedules[id], filter) <==> ScheduleMatches(db.schedules[id], filter) {
      ScheduleWanted(db.schedules[id], filter);
      assert ScheduleIdOf(db.schedules[id]) == id;
    }
  }

  lemma WorldKeyed(env: Env, w: World)
    requires WorldInv(env, w)
    ensures KeyedDb(w.db)
  {
    hide Agree, PromisesOk, CallbacksOk, ResumesOk, JobsOk, TimersOk, IndexOk, SentOk, HeldOk, AllJobs, InflightOk,
      AckingOk,
      ScheduleOk, HasTimer, Exhausted;
  }

  // ------------------------------------------------------------------- one request

  /** The size of a page, where the limit is not refused. */
  function PageSize(limit: Option<int>, default: nat): Option<nat> {
    if limit.None? then Some(default) else if 0 < limit.value <= 1000 then Some(limit.value) else None
  }

  /** `page` has what a search wants after its cursor, in id order and up to the next
      cursor, which is there only if the page is full. */
  ghost predicate IsPage<T(!new)>(page: seq<T>, next: Option<Id>, idOf: T -> Id, wanted: T -> bool, cursor: Option<Id>, size: nat) {
    && AscendingBy(page, idOf) && |page| <= size && (next.Some? ==> |page| == size)
    && (forall x :: x in page <==> wanted(x) && Paging.After(cursor, idOf(x)) && (next.None? || !Below(next.value, idOf(x))))
  }

  lemma PageIs<T(!new)>(items: seq<T>, idOf: T -> Id, wanted: T -> bool, cursor: Option<Id>, limit: nat)
    requires limit > 0 && AscendingBy(items, idOf) && forall x :: x in items <==> wanted(x)
    ensures var (page, next) := Page(items, idOf, cursor, limit); IsPage(page, next, idOf, wanted, cursor, limit)
  {
    hide Page, AscendingBy;
    PageShape(items, idOf, cursor, limit);
  }

  lemma SearchReplyIs(env: Env, w: World, req: Request)
    requires req.PromiseSearch? || req.TaskSearch? || req.ScheduleSearch?
    ensures ReplyTo(env, w, req, NoFault) == SearchReply(w.db, req)
  {
    hide SearchReply;
  }

  /** What a promise search replies: the stored records it wants, page by page. */
  lemma PromiseSearchAnswer(env: Env, w: World, state: Option<PromiseState>, filter: Option<Tags>, limit: Option<int>, cursor: Option<Id>)
    requires WorldInv(env, w)
    ensures var reply, size := ReplyTo(env, w, PromiseSearch(state, filter, limit, cursor), NoFault), PageSize(limit, 100);
            if size.None? then reply == Err(400)
            else
              && reply.Ok? && reply.status == 200 && reply.body.PromisePage?
              && IsPage(reply.body.promises, reply.body.next, PromiseIdOf, x => IsWantedPromise(w.db.promises, x, state, filter), cursor, size.value)
  {
    hide ReplyTo, SearchReply, WorldInv;
    SearchReplyIs(env, w, PromiseSearch(state, filter, limit, cursor));
    WorldKeyed(env, w);
    PromiseSearchIs(w.db, state, filter, limit, cursor);
  }

  /** `x` is a stored record that is wanted. */
  predicate IsWantedPromise(promises: Promises, x: PromiseRecord, state: Option<PromiseState>, filter: Option<Tags>) {
    x.id in promises && promises[x.id].record == x && WantsPromise(x, state, filter)
  }

  lemma PromiseSearchIs(db: Db, state: Option<PromiseState>, filter: Option<Tags>, limit: Option<int>, cursor: Option<Id>)
    requires KeyedDb(db)
    ensures var reply, size := SearchReply(db, PromiseSearch(state, filter, limit, cursor)), PageSize(limit, 100);
            if size.None? then reply == Err(400)
            else
              && reply.Ok? && reply.status == 200 && reply.body.PromisePage?
              && IsPage(reply.body.promises, reply.body.next, PromiseIdOf, x => IsWantedPromise(db.promises, x, state, filter), cursor, size.value)
  {
    hide MatchingPromises, PromiseMatches, WantsPromise, AscendingBy, IsPage, Page, KeyedDb;
    PromisesFound(db, state, filter);
    forall x: PromiseRecord ensures PromiseMatches(x, state, filter) <==> WantsPromise(x, state, filter) {
      PromiseWanted(x, state, filter);
    }
    if PageSize(limit, 100).Some? {
      PageIs(MatchingPromises(db, state, filter), PromiseIdOf, x => IsWantedPromise(db.promises, x, state, filter), cursor,
             PageSize(limit, 100).value);
    }
  }

  /** What a task search replies. */
  lemma TaskSearchAnswer(env: Env, w: World, state: Option<TaskState>, limit: Option<int>, cursor: Option<Id>)
    requires WorldInv(env, w)
    ensures var reply, size := ReplyTo(env, w, TaskSearch(state, limit, cursor), NoFault), PageSize(limit, 100);
            if size.None? then reply == Err(400)
            else
              && reply.Ok? && reply.status == 200 && reply.body.TaskPage?
              && IsPage(reply.body.tasks, reply.body.next, TaskIdOf, x => IsWantedTask(w.db.tasks, x, state), cursor, size.value)
  {
    hide ReplyTo, SearchReply, WorldInv;
    SearchReplyIs(env, w, TaskSearch(state, limit, cursor));
    WorldKeyed(env, w);
    TaskSearchIs(w.db, state, limit, cursor);
  }

  /** `x` shows a stored task that is wanted. */
  predicate IsWantedTask(tasks: Tasks, x: TaskRecord, state: Option<TaskState>) {
    && x.id in tasks && WantsTask(tasks[x.id], state)
    && var t := tasks[x.id]; x == TaskRecord(t.id, t.state, t.version, |t.resumes|, t.ttl, t.pid)
  }

  lemma TaskSearchIs(db: Db, state: Option<TaskState>, limit: Option<int>, cursor: Option<Id>)
    requires KeyedDb(db)
    ensures var reply, size := SearchReply(db, TaskSearch(state, limit, cursor)), PageSize(limit, 100);
            if size.None? then reply == Err(400)
            else
              && reply.Ok? && reply.status == 200 && reply.body.TaskPage?
              && IsPage(reply.body.tasks, reply.body.next, TaskIdOf, x => IsWantedTask(db.tasks, x, state), cursor, size.value)
  {
    hide MatchingTasks, AscendingBy, IsPage, Page, KeyedDb;
    TasksFound(db, state);
    if PageSize(limit, 100).Some? {
      PageIs(MatchingTasks(db, state), TaskIdOf, x => IsWantedTask(db.tasks, x, state), cursor, PageSize(limit, 100).value);
    }
  }

  /** What a schedule search replies. */
  lemma ScheduleSearchAnswer(env: Env, w: World, filter: Option<Tags>, limit: Option<int>, cursor: Option<Id>)
    requires WorldInv(env, w)
    ensures var reply, size := ReplyTo(env, w, ScheduleSearch(filter, limit, cursor), NoFault), PageSize(limit, 10);
            if size.None? then reply == Err(400)
            else
              && reply.Ok? && reply.status == 200 && reply.body.SchedulePage?
              && IsPage(reply.body.schedules, reply.body.next, ScheduleIdOf, x => IsWantedSchedule(w.db.schedules, x, filter), cursor, size.value)
  {
    hide ReplyTo, SearchReply, WorldInv;
    SearchReplyIs(env, w, ScheduleSearch(filter, limit, cursor));
    WorldKeyed(env, w);
    ScheduleSearchIs(w.db, filter, limit, cursor);
  }

  /** `x` is a stored schedule that is wanted. */
  predicate IsWantedSchedule(schedules: map<Id, ScheduleRecord>, x: ScheduleRecord, filter: Option<Tags>) {
    x.id in schedules && schedules[x.id] == x && WantsSchedule(x, filter)
  }

  lemma ScheduleSearchIs(db: Db, filter: Option<Tags>, limit: Option<int>, cursor: Option<Id>)
    requires KeyedDb(db)
    ensures var reply, size := SearchReply(db, ScheduleSearch(filter, limit, cursor)), PageSize(limit, 10);
            if size.None? then reply == Err(400)
            else
              && reply.Ok? && reply.status == 200 && reply.body.SchedulePage?
              && IsPage(reply.body.schedules, reply.body.next, ScheduleIdOf, x => IsWantedSchedule(db.schedules, x, filter), cursor, size.value)
  {
    hide MatchingSchedules, ScheduleMatches, WantsSchedule, AscendingBy, IsPage, Page, KeyedDb;
    SchedulesFound(db, filter);
    forall x: ScheduleRecord ensures ScheduleMatches(x, filter) <==> WantsSchedule(x, filter) {
      ScheduleWanted(x, filter);
    }
    if PageSize(limit, 10).Some? {
      PageIs(MatchingSchedules(db, filter), ScheduleIdOf, x => IsWantedSchedule(db.schedules, x, filter), cursor, PageSize(limit, 10).value);
    }
  }

  // --------------------------------------------------------------- over any run

  /** A client follows the cursors of one promise search: page `j` is the reply in
      state `at[j]` of the run, and the last page names no cursor. */
  ghost predicate PromisePages(env: Env, worlds: seq<World>, at: seq<nat>, state: Option<PromiseState>, filter: Option<Tags>,
                               limit: Option<int>, pages: seq<seq<PromiseRecord>>, cursors: seq<Option<Id>>) {
    && Cursors(worlds, at, |pages|, cursors)
    && (forall j :: 0 <= j < |pages| ==>
          ReplyTo(env, worlds[at[j]], PromiseSearch(state, filter, limit, cursors[j]), NoFault) ==
            Ok(200, PromisePage(pages[j], cursors[j + 1])))
  }

  ghost predicate TaskPages(env: Env, worlds: seq<World>, at: seq<nat>, state: Option<TaskState>,
                            limit: Option<int>, pages: seq<seq<TaskRecord>>, cursors: seq<Option<Id>>) {
    && Cursors(worlds, at, |pages|, cursors)
    && (forall j :: 0 <= j < |pages| ==>
          ReplyTo(env, worlds[at[j]], TaskSearch(state, limit, cursors[j]), NoFault) ==
            Ok(200, TaskPage(pages[j], cursors[j + 1])))
  }

  ghost predicate SchedulePages(env: Env, worlds: seq<World>, at: seq<nat>, filter: Option<Tags>,
                                limit: Option<int>, pages: seq<seq<ScheduleRecord>>, cursors: seq<Option<Id>>) {
    && Cursors(worlds, at, |pages|, cursors)
    && (forall j :: 0 <= j < |pages| ==>
          ReplyTo(env, worlds[at[j]], ScheduleSearch(filter, limit, cursors[j]), NoFault) ==
            Ok(200, SchedulePage(pages[j], cursors[j + 1])))
  }

  ghost predicate Cursors(worlds: seq<World>, at: seq<nat>, n: nat, cursors: seq<Option<Id>>) {
    && n == |at| > 0 && |cursors| == n + 1 && cursors[0].None? && cursors[n].None?
    && (forall j :: 0 < j < n ==> cursors[j].Some?)
    && (forall j :: 0 <= j < n ==> at[j] < |worlds|)
  }

  /** Exactly one of the pages returns `id`. */
  ghost predicate ReturnedOnce<T(!new)>(pages: seq<seq<T>>, idOf: T -> Id, id: Id) {
    exists j :: 0 <= j < |pages| && Has(pages[j], idOf, id)
      && forall k :: 0 <= k < |pages| && Has(pages[k], idOf, id) ==> k == j
  }

  lemma PromisePageIs(env: Env, w: World, state: Option<PromiseState>, filter: Option<Tags>, limit: Option<int>,
                      cursor: Option<Id>, page: seq<PromiseRecord>, next: Option<Id>)
    requires ReplyTo(env, w, PromiseSearch(state, filter, limit, cursor), NoFault) == Ok(200, PromisePage(page, next))
    ensures SearchLimit(limit, DEFAULT_SEARCH_LIMIT).Some? && SearchLimit(limit, DEFAULT_SEARCH_LIMIT).value > 0
    ensures Page(MatchingPromises(w.db, state, filter), PromiseIdOf, cursor, SearchLimit(limit, DEFAULT_SEARCH_LIMIT).value) ==
              (page, next)
  {
    hide MatchingPromises, Page;
  }

  lemma TaskPageIs(env: Env, w: World, state: Option<TaskState>, limit: Option<int>,
                   cursor: Option<Id>, page: seq<TaskRecord>, next: Option<Id>)
    requires ReplyTo(env, w, TaskSearch(state, limit, cursor), NoFault) == Ok(200, TaskPage(page, next))
    ensures SearchLimit(limit, DEFAULT_SEARCH_LIMIT).Some? && SearchLimit(limit, DEFAULT_SEARCH_LIMIT).value > 0
    ensures Page(MatchingTasks(w.db, state), TaskIdOf, cursor, SearchLimit(limit, DEFAULT_SEARCH_LIMIT).value) ==
              (page, next)
  {
    hide MatchingTasks, Page;
  }

  lemma SchedulePageIs(env: Env, w: World, filter: Option<Tags>, limit: Option<int>,
                       cursor: Option<Id>, page: seq<ScheduleRecord>, next: Option<Id>)
    requires ReplyTo(env, w, ScheduleSearch(filter, limit, cursor), NoFault) == Ok(200, SchedulePage(page, next))
    ensures SearchLimit(limit, DEFAULT_SCHEDULE_SEARCH_LIMIT).Some?
    ensures SearchLimit(limit, DEFAULT_SCHEDULE_SEARCH_LIMIT).value > 0
    ensures Page(MatchingSchedules(w.db, filter), ScheduleIdOf, cursor, SearchLimit(limit, DEFAULT_SCHEDULE_SEARCH_LIMIT).value) ==
              (page, next)
  {
    hide MatchingSchedules, Page;
  }

  /** A promise that exists and matches in every state a page is read in is returned
      exactly once, whatever else happens between the pages. */
  lemma PromiseSearchIsComplete(env: Env, worlds: seq<World>, steps: seq<Step>, at: seq<nat>, state: Option<PromiseState>,
                                filter: Option<Tags>, limit: Option<int>, pages: seq<seq<PromiseRecord>>,
                                cursors: seq<Option<Id>>, id: Id)
    requires env.Ok() && IsRun(env, worlds, steps)
    requires PromisePages(env, worlds, at, state, filter, limit, pages, cursors)
    requires forall j :: 0 <= j < |at| ==>
               id in worlds[at[j]].db.promises && WantsPromise(worlds[at[j]].db.promises[id].record, state, filter)
    ensures ReturnedOnce(pages, PromiseIdOf, id)
  {
    hide IsRun, WorldInv, Moves, ReplyTo, MatchingPromises, Page, WantsPromise, SearchLimit, KeyedDb, AscendingBy,
      Has;
    var lists := seq(|at|, j requires 0 <= j < |at| => MatchingPromises(worlds[at[j]].db, state, filter));
    var size := SearchLimit(limit, DEFAULT_SEARCH_LIMIT);
    PromisePageIs(env, worlds[at[0]], state, filter, limit, cursors[0], pages[0], cursors[1]);
    forall j | 0 <= j < |at|
      ensures PageAt(lists[j], PromiseIdOf, size.value, cursors[j], pages[j], cursors[j + 1]) && Has(lists[j], PromiseIdOf, id)
    {
      RunInv(env, worlds, steps, at[j]);
      WorldKeyed(env, worlds[at[j]]);
      PromisesListed(worlds[at[j]].db, state, filter);
      PromisePageIs(env, worlds[at[j]], state, filter, limit, cursors[j], pages[j], cursors[j + 1]);
    }
    hide PageAt;
    WhatStaysIsReturnedOnce(lists, PromiseIdOf, size.value, pages, cursors, id);
  }

  /** The same holds of a task search. */
  lemma TaskSearchIsComplete(env: Env, worlds: seq<World>, steps: seq<Step>, at: seq<nat>, state: Option<TaskState>,
                             limit: Option<int>, pages: seq<seq<TaskRecord>>, cursors: seq<Option<Id>>, id: Id)
    requires env.Ok() && IsRun(env, worlds, steps) && TaskPages(env, worlds, at, state, limit, pages, cursors)
    requires forall j :: 0 <= j < |at| ==>
               id in worlds[at[j]].db.tasks && WantsTask(worlds[at[j]].db.tasks[id], state)
    ensures ReturnedOnce(pages, TaskIdOf, id)
  {
    hide IsRun, WorldInv, Moves, ReplyTo, MatchingTasks, Page, WantsTask, SearchLimit, KeyedDb, AscendingBy, Has;
    var lists := seq(|at|, j requires 0 <= j < |at| => MatchingTasks(worlds[at[j]].db, state));
    var size := SearchLimit(limit, DEFAULT_SEARCH_LIMIT);
    TaskPageIs(env, worlds[at[0]], state, limit, cursors[0], pages[0], cursors[1]);
    forall j | 0 <= j < |at|
      ensures PageAt(lists[j], TaskIdOf, size.value, cursors[j], pages[j], cursors[j + 1]) && Has(lists[j], TaskIdOf, id)
    {
      RunInv(env, worlds, steps, at[j]);
      WorldKeyed(env, worlds[at[j]]);
      TasksListed(worlds[at[j]].db, state);
      TaskPageIs(env, worlds[at[j]], state, limit, cursors[j], pages[j], cursors[j + 1]);
    }
    hide PageAt;
    WhatStaysIsReturnedOnce(lists, TaskIdOf, size.value, pages, cursors, id);
  }

  /** The same holds of a schedule search. */
  lemma ScheduleSearchIsComplete(env: Env, worlds: seq<World>, steps: seq<Step>, at: seq<nat>, filter: Option<Tags>,
                                 limit: Option<int>, pages: seq<seq<ScheduleRecord>>, cursors: seq<Option<Id>>, id: Id)
    requires env.Ok() && IsRun(env, worlds, steps) && SchedulePages(env, worlds, at, filter, limit, pages, cursors)
    requires forall j :: 0 <= j < |at| ==>
               id in worlds[at[j]].db.schedules && WantsSchedule(worlds[at[j]].db.schedules[id], filter)
    ensures ReturnedOnce(pages, ScheduleIdOf, id)
  {
    hide IsRun, WorldInv, Moves, ReplyTo, MatchingSchedules, Page, WantsSchedule, SearchLimit, KeyedDb,
      AscendingBy, Has;
    var lists := seq(|at|, j requires 0 <= j < |at| => MatchingSchedules(worlds[at[j]].db, filter));
    var size := SearchLimit(limit, DEFAULT_SCHEDULE_SEARCH_LIMIT);
    SchedulePageIs(env, worlds[at[0]], filter, limit, cursors[0], pages[0], cursors[1]);
    forall j | 0 <= j < |at|
      ensures PageAt(lists[j], ScheduleIdOf, size.value, cursors[j], pages[j], cursors[j + 1]) && Has(lists[j], ScheduleIdOf, id)
    {
      RunInv(env, worlds, steps, at[j]);
      WorldKeyed(env, worlds[at[j]]);
      SchedulesListed(worlds[at[j]].db, filter);
      SchedulePageIs(env, worlds[at[j]], filter, limit, cursors[j], pages[j], cursors[j + 1]);
    }
    hide PageAt;
    WhatStaysIsReturnedOnce(lists, ScheduleIdOf, size.value, pages, cursors, id);
  }
}
