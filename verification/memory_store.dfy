/**
 * The in-memory task store used when no database is configured: an
 * insertion-ordered sequence of task records. Each mutating operation takes
 * the current sequence and returns the next one; the random id and the clock
 * reading are parameters.
 */
module MemoryStore {
  import opened Wrappers
  import opened Json
  import opened Domain
  import opened Seqs

  /** The payload of `create`: each content property, `Undefined` when the payload lacks it. */
  datatype Content = Content(title: Value, description: Value, priority: Value, status: Value)

  /** The payload of `update`: each property it carries, `None` when it lacks that property. */
  datatype Patch = Patch(
    id: Option<string>,
    title: Option<Value>,
    description: Option<Value>,
    priority: Option<Value>,
    status: Option<Value>,
    createdAt: Option<int>)

  /** The store after an operation, and the task the operation returns (`None` for `null`). */
  datatype Mutation = Mutation(tasks: seq<Task>, result: Option<Task>)

  /** Some task carries this id. */
  predicate HasId(tasks: seq<Task>, id: string) {
    exists i :: 0 <= i < |tasks| && tasks[i].id == id
  }

  /** `tasks.findIndex((t) => t._id === id)`, with `None` for -1. */
  function FindIndex(tasks: seq<Task>, id: string): (r: Option<nat>)
    ensures r.Some? ==> r.value < |tasks| && tasks[r.value].id == id
    ensures r.Some? ==> forall j :: 0 <= j < r.value ==> tasks[j].id != id
    ensures r.None? <==> !HasId(tasks, id)
  {
    if tasks == [] then None
    else if tasks[0].id == id then Some(0)
    else
      match FindIndex(tasks[1..], id)
      case None => None
      case Some(k) => Some(k + 1)
  }

  /** Replacing the first task with an id by another task with that id keeps it first. */
  lemma FindAfterReplace(tasks: seq<Task>, i: nat, t: Task)
    requires FindIndex(tasks, t.id) == Some(i)
    ensures FindIndex(tasks[i := t], t.id) == Some(i)
  {
    var replaced := tasks[i := t];
    assert replaced[i].id == t.id;
    var found := FindIndex(replaced, t.id);
    assert found.Some? && found.value <= i;
    assert forall j :: 0 <= j < i ==> replaced[j] == tasks[j];
  }

  /** `getById`: the first task whose id equals `id`, or `null`. */
  function GetById(tasks: seq<Task>, id: string): (r: Option<Task>)
    ensures r.None? <==> !HasId(tasks, id)
    ensures r.Some? ==> r.value.id == id
    ensures r.Some? ==> exists i :: 0 <= i < |tasks| && tasks[i] == r.value
                                    && forall j :: 0 <= j < i ==> tasks[j].id != id
  {
    match FindIndex(tasks, id)
    case None => None
    case Some(i) => Some(tasks[i])
  }

  /** `x || fallback`. */
  function OrElse(x: Value, fallback: Value): (r: Value)
    ensures JsTruthy(x) ==> r == x
    ensures !JsTruthy(x) ==> r == fallback
  {
    if JsTruthy(x) then x else fallback
  }

  /**
   * `create`: appends one new task with the given id and `createdAt = updatedAt
   * = now`; a falsy description, priority or status becomes '', medium or todo.
   */
  function Create(tasks: seq<Task>, payload: Content, freshId: string, now: int): (m: Mutation)
    ensures m.result.Some? && m.tasks == tasks + [m.result.value]
    ensures m.result.value.id == freshId && m.result.value.title == payload.title
    ensures m.result.value.createdAt == now && m.result.value.updatedAt == Some(now)
    ensures JsTruthy(payload.description) ==> m.result.value.description == payload.description
    ensures !JsTruthy(payload.description) ==> m.result.value.description == Str("")
    ensures JsTruthy(payload.priority) ==> m.result.value.priority == payload.priority
    ensures !JsTruthy(payload.priority) ==> m.result.value.priority == PriorityValue(Medium)
    ensures JsTruthy(payload.status) ==> m.result.value.status == payload.status
    ensures !JsTruthy(payload.status) ==> m.result.value.status == StatusValue(Todo)
  {
    var task := Task(freshId, payload.title, OrElse(payload.description, Str("")),
                     OrElse(payload.priority, PriorityValue(Medium)),
                     OrElse(payload.status, StatusValue(Todo)), now, Some(now));
    Mutation(tasks + [task], Some(task))
  }

  /** `{...task, ...payload, updatedAt: now}`: the payload's properties win, `updatedAt` is refreshed. */
  function Merge(task: Task, patch: Patch, now: int): (r: Task)
    ensures r.id == patch.id.GetOr(task.id)
    ensures r.title == patch.title.GetOr(task.title)
    ensures r.description == patch.description.GetOr(task.description)
    ensures r.priority == patch.priority.GetOr(task.priority)
    ensures r.status == patch.status.GetOr(task.status)
    ensures r.createdAt == patch.createdAt.GetOr(task.createdAt)
    ensures r.updatedAt == Some(now)
  {
    Task(patch.id.GetOr(task.id), patch.title.GetOr(task.title),
         patch.description.GetOr(task.description), patch.priority.GetOr(task.priority),
         patch.status.GetOr(task.status), patch.createdAt.GetOr(task.createdAt), Some(now))
  }

  /**
   * `update`: an absent id gives `null` and no change; otherwise the first
   * task with that id is replaced in place by its merge with the payload and
   * returned, and every other position is untouched.
   */
  function Update(tasks: seq<Task>, id: string, patch: Patch, now: int): (m: Mutation)
    ensures !HasId(tasks, id) ==> m == Mutation(tasks, None)
    ensures HasId(tasks, id) ==> m.result.Some? && |m.tasks| == |tasks|
    ensures HasId(tasks, id) ==>
              exists i :: 0 <= i < |tasks| && tasks[i].id == id
                          && (forall j :: 0 <= j < i ==> tasks[j].id != id)
                          && m.tasks[i] == Merge(tasks[i], patch, now)
                          && m.result == Some(m.tasks[i])
                          && (forall j :: 0 <= j < |tasks| && j != i ==> m.tasks[j] == tasks[j])
  {
    match FindIndex(tasks, id)
    case None => Mutation(tasks, None)
    case Some(i) =>
      var merged := Merge(tasks[i], patch, now);
      Mutation(tasks[i := merged], Some(merged))
  }

  /**
   * `remove`: an absent id gives `null` and no change; otherwise the first
   * task with that id is cut out and returned, the rest keeping their order.
   */
  function Remove(tasks: seq<Task>, id: string): (m: Mutation)
    ensures !HasId(tasks, id) ==> m == Mutation(tasks, None)
    ensures HasId(tasks, id) ==> |m.tasks| == |tasks| - 1
    ensures HasId(tasks, id) ==>
              exists i :: 0 <= i < |tasks| && tasks[i].id == id
                          && (forall j :: 0 <= j < i ==> tasks[j].id != id)
                          && m.result == Some(tasks[i])
                          && m.tasks == tasks[..i] + tasks[i + 1..]
  {
    match FindIndex(tasks, id)
    case None => Mutation(tasks, None)
    case Some(i) => Mutation(tasks[..i] + tasks[i + 1..], Some(tasks[i]))
  }

  /**
   * `analytics`: walks the current store once and bumps a bucket only for a
   * priority or status that names one, so the result is the tally of the store.
   */
  method Analytics(tasks: seq<Task>) returns (b: Breakdown)
    ensures b == Tally(tasks)
    ensures b.byPriority.Sum() <= |tasks| && b.byStatus.Sum() <= |tasks|
    ensures (forall i :: 0 <= i < |tasks| ==> IsPriorityValue(tasks[i].priority)) ==> b.byPriority.Sum() == |tasks|
    ensures (forall i :: 0 <= i < |tasks| ==> IsStatusValue(tasks[i].status)) ==> b.byStatus.Sum() == |tasks|
  {
    var high, medium, low := 0, 0, 0;
    var todo, progress, done := 0, 0, 0;
    var i := 0;
    while i < |tasks|
      invariant 0 <= i <= |tasks|
      invariant Walked(tasks[..i]) == Breakdown(PriorityCounts(high, medium, low), StatusCounts(todo, progress, done))
    {
      var t := tasks[i];
      assert tasks[..i + 1][..i] == tasks[..i];
      high := high + (if t.priority == Str("high") then 1 else 0);
      medium := medium + (if t.priority == Str("medium") then 1 else 0);
      low := low + (if t.priority == Str("low") then 1 else 0);
      todo := todo + (if t.status == Str("todo") then 1 else 0);
      progress := progress + (if t.status == Str("progress") then 1 else 0);
      done := done + (if t.status == Str("done") then 1 else 0);
      i := i + 1;
    }
    assert tasks[..i] == tasks;
    WalkedIsTally(tasks);
    b := Breakdown(PriorityCounts(high, medium, low), StatusCounts(todo, progress, done));
    TallyBounds(tasks);
  }

  /** The `forEach` body of `analytics`: one task's known priority and status counted. */
  function Step(b: Breakdown, t: Task): Breakdown {
    Breakdown(
      PriorityCounts(b.byPriority.high + (if t.priority == Str("high") then 1 else 0),
                     b.byPriority.medium + (if t.priority == Str("medium") then 1 else 0),
                     b.byPriority.low + (if t.priority == Str("low") then 1 else 0)),
      StatusCounts(b.byStatus.todo + (if t.status == Str("todo") then 1 else 0),
                   b.byStatus.progress + (if t.status == Str("progress") then 1 else 0),
                   b.byStatus.done + (if t.status == Str("done") then 1 else 0)))
  }

  /** The counts after walking the tasks in order from all zeros, as `analytics` does. */
  function Walked(tasks: seq<Task>): Breakdown
    decreases |tasks|
  {
    if tasks == [] then Breakdown(PriorityCounts(0, 0, 0), StatusCounts(0, 0, 0))
    else Step(Walked(tasks[..|tasks| - 1]), tasks[|tasks| - 1])
  }

  /** An empty store tallies to all zeros. */
  lemma TallyOfNothing()
    ensures Tally([]) == Breakdown(PriorityCounts(0, 0, 0), StatusCounts(0, 0, 0))
  {
    assert Filter([], WithPriority(High)) == [];
  }

  /** The walk in store order ends at the tally of the whole store. */
  lemma {:induction false} WalkedIsTally(tasks: seq<Task>)
    ensures Walked(tasks) == Tally(tasks)
    decreases |tasks|
  {
    if tasks == [] {
      TallyOfNothing();
    } else {
      WalkedIsTally(tasks[..|tasks| - 1]);
      TallyLast(tasks);
    }
  }

  /** The tally of a non-empty store is its last task's step from the tally of the rest. */
  lemma TallyLast(tasks: seq<Task>)
    requires tasks != []
    ensures Tally(tasks) == Step(Tally(tasks[..|tasks| - 1]), tasks[|tasks| - 1])
  {
    var front, last := tasks[..|tasks| - 1], tasks[|tasks| - 1];
    assert tasks == front + [last];
    TallySnoc(front, last);
  }

  /** A task created under a fresh id is what `getById` then finds. */
  lemma CreateThenGet(tasks: seq<Task>, payload: Content, freshId: string, now: int)
    requires !HasId(tasks, freshId)
    ensures GetById(Create(tasks, payload, freshId, now).tasks, freshId)
            == Create(tasks, payload, freshId, now).result
  {
    var m := Create(tasks, payload, freshId, now);
    assert m.tasks[|tasks|].id == freshId;
    assert forall j :: 0 <= j < |tasks| ==> m.tasks[j] == tasks[j];
  }

  /** Ids are never checked for uniqueness: a colliding id leaves `getById` on the older task. */
  lemma CreateWithTakenIdIsShadowed(tasks: seq<Task>, payload: Content, freshId: string, now: int)
    requires HasId(tasks, freshId)
    ensures GetById(Create(tasks, payload, freshId, now).tasks, freshId) == GetById(tasks, freshId)
  {
    var m := Create(tasks, payload, freshId, now);
    var i := FindIndex(tasks, freshId).value;
    assert m.tasks[i] == tasks[i];
    assert forall j :: 0 <= j < |tasks| ==> m.tasks[j] == tasks[j];
    assert FindIndex(m.tasks, freshId) == Some(i) by {
      var k := FindIndex(m.tasks, freshId);
      assert k.Some? by { assert m.tasks[i].id == freshId; }
      assert k.value <= i;
      assert k.value >= i;
    }
  }

  /** After a delete, a task id that was unique is gone. */
  lemma RemoveThenGet(tasks: seq<Task>, id: string)
    requires forall i, j :: 0 <= i < j < |tasks| && tasks[i].id == id ==> tasks[j].id != id
    ensures GetById(Remove(tasks, id).tasks, id).None?
  {
    if HasId(tasks, id) {
      var i := FindIndex(tasks, id).value;
      var rest := tasks[..i] + tasks[i + 1..];
      assert Remove(tasks, id).tasks == rest;
      forall k | 0 <= k < |rest|
        ensures rest[k].id != id
      {
        if k < i { assert rest[k] == tasks[k]; } else { assert rest[k] == tasks[k + 1]; }
      }
    }
  }

  /** An update never changes the number of tasks nor the creation time unless the payload sets one. */
  lemma UpdateKeepsCreatedAt(tasks: seq<Task>, id: string, patch: Patch, now: int)
    requires patch.id.None? && patch.createdAt.None? && HasId(tasks, id)
    ensures GetById(Update(tasks, id, patch, now).tasks, id).Some?
    ensures GetById(Update(tasks, id, patch, now).tasks, id).value.createdAt == GetById(tasks, id).value.createdAt
    ensures GetById(Update(tasks, id, patch, now).tasks, id) == Update(tasks, id, patch, now).result
  {
    var i := FindIndex(tasks, id).value;
    var m := Update(tasks, id, patch, now);
    assert m.tasks == tasks[i := Merge(tasks[i], patch, now)];
    assert FindIndex(m.tasks, id) == Some(i) by {
      var k := FindIndex(m.tasks, id);
      assert k.Some? by { assert m.tasks[i].id == id; }
      assert k.value >= i;
    }
  }
}
