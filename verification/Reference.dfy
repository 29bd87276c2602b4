/** Reference records: what a creation, a settlement and a deadline make of a
    promise, written out field by field from its tags and the request. */
module Reference {
  import opened Records

  /** Whether a deadline resolves a promise with these tags. */
  predicate ResolvesAtDeadline(tags: Tags) {
    Timer in tags && tags[Timer] == "true"
  }

  /** A pending record past its deadline. */
  function Expiry(r: PromiseRecord): PromiseRecord {
    PromiseRecord(
      r.id, if ResolvesAtDeadline(r.tags) then PromiseState.Resolved else PromiseState.RejectedTimedout,
      r.param, r.value, r.tags, r.timeoutAt, r.createdAt, Some(r.timeoutAt))
  }

  /** A pending record that a client settles at `now`. */
  function Settlement(r: PromiseRecord, to: SettleState, value: Value, now: int): PromiseRecord {
    var state :=
      match to
      case Resolved => PromiseState.Resolved
      case Rejected => PromiseState.Rejected
      case RejectedCanceled => PromiseState.RejectedCanceled;
    PromiseRecord(r.id, state, r.param, value, r.tags, r.timeoutAt, r.createdAt, Some(now))
  }

  /** The record of a promise that is created at `now` with the creation time `at`:
      one whose deadline has passed is created at its deadline, and settled by it. */
  function Creation(id: Id, timeoutAt: int, param: Value, tags: Tags, at: int, now: int): PromiseRecord {
    if now < timeoutAt then PromiseRecord(id, PromiseState.Pending, param, EMPTY, tags, timeoutAt, at, None)
    else Expiry(PromiseRecord(id, PromiseState.Pending, param, EMPTY, tags, timeoutAt, timeoutAt, None))
  }

  /** Whether a task can await a promise with these tags. */
  predicate CanBeAwaited(tags: Tags) {
    || (Scope in tags && tags[Scope] == "global")
    || (External in tags && tags[External] == "true")
    || Target in tags
    || ResolvesAtDeadline(tags)
  }

  /** `n`, or the nearest 64-bit integer. */
  function Clamp(n: int): int {
    if n < I64_MIN then I64_MIN else if n > I64_MAX then I64_MAX else n
  }

  /** The tags of a promise that schedule `s` fires as `id`. */
  function FiredTags(s: ScheduleRecord, id: Id): Tags {
    map k | k in s.promiseTags.Keys + {Schedule, Origin, Branch, Parent, Prefix} ::
      if k == Schedule then s.id
      else if k in {Origin, Branch, Parent, Prefix} then id
      else s.promiseTags[k]
  }

  /** The record of a promise that schedule `s` fires as `id` at its next time. */
  function FiredRecord(s: ScheduleRecord, id: Id, now: int): PromiseRecord {
    Creation(id, Clamp(s.nextRunAt + s.promiseTimeout), s.promiseParam, FiredTags(s, id), s.nextRunAt, now)
  }

  /** Whether a promise has every tag of a filter, with the same value. */
  predicate HasTags(tags: Tags, wanted: Tags) {
    wanted.Items <= tags.Items
  }

  /** What a search with these arguments is to return. */
  predicate WantsPromise(r: PromiseRecord, state: Option<PromiseState>, filter: Option<Tags>) {
    (state.None? || r.state == state.value) && (filter.None? || HasTags(r.tags, filter.value))
  }

  predicate WantsTask(t: Task, state: Option<TaskState>) {
    state.None? || t.state == state.value
  }

  predicate WantsSchedule(s: ScheduleRecord, filter: Option<Tags>) {
    filter.None? || HasTags(s.promiseTags, filter.value)
  }
}
