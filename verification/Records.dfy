/** The protocol's records: promises, tasks and schedules as stored, and the
    tag rules that classify a promise (src/records.rs). */
module Records {

  datatype Option<+T> = None | Some(value: T)

  type Id = string
  type Address = string
  type JobId = nat

  const I64_MAX: int := 0x7FFF_FFFF_FFFF_FFFF
  const I64_MIN: int := -0x8000_0000_0000_0000

  function Max(a: int, b: int): int {
    if a >= b then a else b
  }

  /** `i64::saturating_add`. */
  function SaturatingAdd(a: int, b: int): int {
    if a + b > I64_MAX then I64_MAX else if a + b < I64_MIN then I64_MIN else a + b
  }

  /** The tag names the protocol gives a meaning to; every other name is `Other`. */
  datatype TagKey =
    | Target | Timer | Delay | Branch | Scope | External
    | Origin | Parent | Prefix | Schedule
    | Other(name: string)

  type Tags = map<TagKey, string>

  datatype PromiseState = Pending | Resolved | Rejected | RejectedCanceled | RejectedTimedout

  datatype TaskState = Pending | Acquired | Suspended | Halted | Fulfilled

  /** The states a client can settle a promise to. */
  datatype SettleState = Resolved | Rejected | RejectedCanceled {
    function ToPromise(): PromiseState {
      match this
      case Resolved => PromiseState.Resolved
      case Rejected => PromiseState.Rejected
      case RejectedCanceled => PromiseState.RejectedCanceled
    }
  }

  datatype Value = Value(headers: Option<map<string, string>>, data: Option<string>)

  const EMPTY: Value := Value(None, None)

  datatype PromiseRecord = PromiseRecord(
    id: Id, state: PromiseState, param: Value, value: Value, tags: Tags,
    timeoutAt: int, createdAt: int, settledAt: Option<int>)
  {
    predicate IsTimer() {
      Timer in tags && tags[Timer] == "true"
    }

    /** The state a deadline settles this promise to. */
    function TimeoutState(): PromiseState {
      if IsTimer() then PromiseState.Resolved else PromiseState.RejectedTimedout
    }

    /** Whether a task can await this promise. */
    predicate IsExternal() {
      || (Scope in tags && tags[Scope] == "global")
      || (External in tags && tags[External] == "true")
      || Target in tags
      || IsTimer()
    }

    /** The record a deadline leaves: settled at the deadline, value unchanged. */
    function Expired(): PromiseRecord {
      this.(state := TimeoutState(), settledAt := Some(timeoutAt))
    }

    function SettledBy(to: SettleState, with: Value, at: int): PromiseRecord {
      this.(state := to.ToPromise(), value := with, settledAt := Some(at))
    }
  }

  /** A promise as stored: the wire record and the registrations against it. */
  datatype Promise = Promise(record: PromiseRecord, callbacks: seq<Id>, listeners: seq<Address>) {
    predicate IsPending() { record.state.Pending? }

    predicate Due(now: int) { IsPending() && now >= record.timeoutAt }
  }

  /** A task as stored. `job` is the id of the job of its last dispatch. */
  datatype Task = Task(
    id: Id, state: TaskState, version: int, target: Address, job: Option<JobId>,
    pid: Option<string>, ttl: Option<int>, resumes: set<Id>)
  {
    predicate IsAcquiredAt(v: int) { state.Acquired? && version == v }

    /** Move to `to` without a holder; the version is unchanged. */
    function Transition(to: TaskState): Task {
      this.(state := to, pid := None, ttl := None)
    }

    function Record(): TaskRecord {
      TaskRecord(id, state, version, |resumes|, ttl, pid)
    }
  }

  datatype TaskRecord = TaskRecord(
    id: Id, state: TaskState, version: int, resumes: int, ttl: Option<int>, pid: Option<string>)

  function NewTask(id: Id, target: Address, state: TaskState): Task {
    Task(id, state, 0, target, None, None, None, {})
  }

  datatype ScheduleRecord = ScheduleRecord(
    id: Id, cron: string, promiseId: string, promiseTimeout: int, promiseParam: Value,
    promiseTags: Tags, createdAt: int, nextRunAt: int, lastRunAt: Option<int>)

  /** The origin of a promise id: everything before the first `:`. */
  function OriginOf(id: Id): Id {
    if id == "" || id[0] == ':' then "" else [id[0]] + OriginOf(id[1..])
  }

  /** Whether `ancestor` is `id` or a lineage prefix of it. The separator after
      an ancestor without an origin separator is `:`, and `.` after one with it. */
  predicate IsAncestor(ancestor: Id, id: Id) {
    || ancestor == id
    || (|ancestor| < |id| && id[..|ancestor|] == ancestor
        && id[|ancestor|] == if ':' in ancestor then '.' else ':')
  }
}
