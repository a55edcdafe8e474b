/**
 * The task entity and the two enumerations every component shares:
 * priority {high, medium, low} and status {todo, progress, done}.
 */
module Domain {
  import opened Wrappers
  import opened Json
  import opened Seqs

  datatype Priority = High | Medium | Low
  datatype Status = Todo | Progress | Done

  function PriorityName(p: Priority): string {
    match p
    case High => "high"
    case Medium => "medium"
    case Low => "low"
  }

  function StatusName(s: Status): string {
    match s
    case Todo => "todo"
    case Progress => "progress"
    case Done => "done"
  }

  /** Exact, case-sensitive membership in the priority enumeration. */
  function ParsePriority(s: string): (r: Option<Priority>)
    ensures r.Some? ==> PriorityName(r.value) == s
    ensures r.None? ==> forall p: Priority :: PriorityName(p) != s
  {
    if s == "high" then Some(High)
    else if s == "medium" then Some(Medium)
    else if s == "low" then Some(Low)
    else None
  }

  /** Exact, case-sensitive membership in the status enumeration. */
  function ParseStatus(s: string): (r: Option<Status>)
    ensures r.Some? ==> StatusName(r.value) == s
    ensures r.None? ==> forall t: Status :: StatusName(t) != s
  {
    if s == "todo" then Some(Todo)
    else if s == "progress" then Some(Progress)
    else if s == "done" then Some(Done)
    else None
  }

  /** The string value naming a priority. */
  function PriorityValue(p: Priority): Value {
    Str(PriorityName(p))
  }

  /** The string value naming a status. */
  function StatusValue(s: Status): Value {
    Str(StatusName(s))
  }

  /** A value that is one of the three priority strings. */
  predicate IsPriorityValue(v: Value) {
    v.Str? && ParsePriority(v.s).Some?
  }

  /** A value that is one of the three status strings. */
  predicate IsStatusValue(v: Value) {
    v.Str? && ParseStatus(v.s).Some?
  }

  /**
   * A task record as the backend stores it and the browser receives it. The
   * content fields hold whatever value was written to them; timestamps are
   * milliseconds; `updatedAt` is optional because browser code reads it with
   * a fallback to `createdAt`.
   */
  datatype Task = Task(
    id: string,
    title: Value,
    description: Value,
    priority: Value,
    status: Value,
    createdAt: int,
    updatedAt: Option<int>)

  /**
   * When the browser takes a task to have been completed: `updatedAt ||
   * createdAt`. The update time is an ISO string whenever it is present, and
   * every such string is truthy, so only a missing one falls back to the
   * creation time.
   */
  function CompletionTime(t: Task): (r: int)
    ensures t.updatedAt.Some? ==> r == t.updatedAt.value
    ensures t.updatedAt.None? ==> r == t.createdAt
  {
    if t.updatedAt.Some? then t.updatedAt.value else t.createdAt
  }

  /** The tasks whose priority is exactly the string naming `p`. */
  function WithPriority(p: Priority): Task -> bool {
    (t: Task) => t.priority == PriorityValue(p)
  }

  /** The tasks whose status is exactly the string naming `s`. */
  function WithStatus(s: Status): Task -> bool {
    (t: Task) => t.status == StatusValue(s)
  }

  datatype PriorityCounts = PriorityCounts(high: nat, medium: nat, low: nat) {
    function Sum(): nat { high + medium + low }
  }

  datatype StatusCounts = StatusCounts(todo: nat, progress: nat, done: nat) {
    function Sum(): nat { todo + progress + done }
  }

  /** The analytics response: `{byPriority: {high, medium, low}, byStatus: {todo, progress, done}}`. */
  datatype Breakdown = Breakdown(byPriority: PriorityCounts, byStatus: StatusCounts)

  /**
   * The breakdown of a list of tasks: for each enumeration value, how many
   * tasks hold exactly its string. Each breakdown counts a task at most once,
   * so it sums to at most the number of tasks.
   */
  function Tally(tasks: seq<Task>): (r: Breakdown)
    ensures r.byPriority.Sum() <= |tasks| && r.byStatus.Sum() <= |tasks|
  {
    CountPartition(tasks, WithPriority(High), WithPriority(Medium), WithPriority(Low));
    CountPartition(tasks, WithStatus(Todo), WithStatus(Progress), WithStatus(Done));
    Breakdown(
      PriorityCounts(Count(tasks, WithPriority(High)), Count(tasks, WithPriority(Medium)),
                     Count(tasks, WithPriority(Low))),
      StatusCounts(Count(tasks, WithStatus(Todo)), Count(tasks, WithStatus(Progress)),
                   Count(tasks, WithStatus(Done))))
  }

  /** One more task on the end of the store adds its indicators to the tally. */
  lemma TallySnoc(tasks: seq<Task>, t: Task)
    ensures var before := Tally(tasks);
            Tally(tasks + [t]) == Breakdown(
              PriorityCounts(before.byPriority.high + (if t.priority == Str("high") then 1 else 0),
                             before.byPriority.medium + (if t.priority == Str("medium") then 1 else 0),
                             before.byPriority.low + (if t.priority == Str("low") then 1 else 0)),
              StatusCounts(before.byStatus.todo + (if t.status == Str("todo") then 1 else 0),
                           before.byStatus.progress + (if t.status == Str("progress") then 1 else 0),
                           before.byStatus.done + (if t.status == Str("done") then 1 else 0)))
  {
    CountSnoc(tasks, t, WithPriority(High));
    CountSnoc(tasks, t, WithPriority(Medium));
    CountSnoc(tasks, t, WithPriority(Low));
    CountSnoc(tasks, t, WithStatus(Todo));
    CountSnoc(tasks, t, WithStatus(Progress));
    CountSnoc(tasks, t, WithStatus(Done));
  }

  /** A breakdown sums to exactly the number of tasks when every task holds a valid value. */
  lemma TallyBounds(tasks: seq<Task>)
    ensures (forall i :: 0 <= i < |tasks| ==> IsPriorityValue(tasks[i].priority)) ==> Tally(tasks).byPriority.Sum() == |tasks|
    ensures (forall i :: 0 <= i < |tasks| ==> IsStatusValue(tasks[i].status)) ==> Tally(tasks).byStatus.Sum() == |tasks|
  {
    CountPartition(tasks, WithPriority(High), WithPriority(Medium), WithPriority(Low));
    CountPartition(tasks, WithStatus(Todo), WithStatus(Progress), WithStatus(Done));
  }
}
