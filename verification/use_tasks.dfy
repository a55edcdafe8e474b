/**
 * The browser's task hook: the priority weight, the board's grouping of
 * tasks into status columns sorted by weight, and the cache updates applied
 * after a create, update or delete succeeds.
 */
module UseTasks {
  import opened Wrappers
  import opened Json
  import opened Text
  import opened Seqs
  import opened Domain

  /**
   * `String(v)` for the values a task field can hold. `None` stands for a
   * text that spells out a number: such a text is never one of the priority
   * words, and its exact digits are not modelled.
   */
  function StringOf(v: Value): Option<string>
    decreases v, 1
  {
    match v
    case Undefined => Some("undefined")
    case Null => Some("null")
    case Bool(b) => Some(if b then "true" else "false")
    case Num(_) => None
    case Str(s) => Some(s)
    case Obj(_) => Some("[object Object]")
    case Arr(items) => ElementsText(v, items)
  }

  /** `items.join(',')`, where `null` and `undefined` elements contribute nothing. */
  function ElementsText(whole: Value, items: seq<Value>): Option<string>
    requires forall i :: 0 <= i < |items| ==> items[i] < whole
    decreases whole, 0, |items|
  {
    if items == [] then Some([])
    else
      var head := if items[0].Null? || items[0].Undefined? then Some([]) else StringOf(items[0]);
      if |items| == 1 then head
      else
        match (head, ElementsText(whole, items[1..]))
        case (Some(h), Some(t)) => Some(h + "," + t)
        case _ => None
  }

  /**
   * `weightForPriority`: high, medium and low in any letter case weigh 1, 2
   * and 3; a falsy value or any other text weighs 4.
   */
  function WeightForPriority(priority: Value): (w: nat)
    ensures 1 <= w <= 4
    ensures !JsTruthy(priority) ==> w == 4
    ensures w < 4 ==> JsTruthy(priority) && StringOf(priority).Some?
                      && Lower(StringOf(priority).value) in {"high", "medium", "low"}
  {
    if !JsTruthy(priority) then 4
    else
      match StringOf(priority)
      case None => 4
      case Some(text) =>
        var key := Lower(text);
        if key == "high" then 1 else if key == "medium" then 2 else if key == "low" then 3 else 4
  }

  /** The three priority strings weigh in the order high, medium, low. */
  lemma WeightFollowsPriority(p: Priority)
    ensures WeightForPriority(PriorityValue(p)) == (match p case High => 1 case Medium => 2 case Low => 3)
  {
    match p
    case High => assert Lower("high") == "high";
    case Medium => assert Lower("medium") == "medium";
    case Low => assert Lower("low") == "low";
  }

  lemma {:induction false} LowerIdempotent(s: string)
    ensures Lower(Lower(s)) == Lower(s)
  {
    forall i | 0 <= i < |s|
      ensures Lower(Lower(s))[i] == Lower(s)[i]
    {
    }
  }

  /** Any other string, such as "urgent" or "", weighs 4. */
  lemma OtherTextWeighsFour(s: string)
    requires Lower(s) != "high" && Lower(s) != "medium" && Lower(s) != "low"
    ensures WeightForPriority(Str(s)) == 4
  {
  }

  /** The weight ignores letter case: a string weighs what its lower-case form weighs. */
  lemma WeightIgnoresCase(s: string)
    ensures WeightForPriority(Str(s)) == WeightForPriority(Str(Lower(s)))
  {
    LowerIdempotent(s);
  }

  /** An array is weighed by its joined text, so a one-element array holding "HIGH" weighs 1. */
  lemma SingletonArrayIsWeighedByItsText()
    ensures WeightForPriority(Arr([Str("HIGH")])) == 1
  {
    assert StringOf(Arr([Str("HIGH")])) == Some("HIGH");
    assert Lower("HIGH") == "high";
  }

  function Weight(t: Task): nat {
    WeightForPriority(t.priority)
  }

  /**
   * The board sort: `Array.prototype.sort` with a weight comparator is
   * stable, so it is the stable sort by weight.
   */
  function SortByWeight(tasks: seq<Task>): (r: seq<Task>)
    ensures multiset(r) == multiset(tasks)
    ensures forall i, j :: 0 <= i < j < |r| ==> Weight(r[i]) <= Weight(r[j])
    ensures forall w :: Filter(r, KeyIs(Weight, w)) == Filter(tasks, KeyIs(Weight, w))
  {
    SortByKey(tasks, Weight)
  }

  /** The column a task is shown in: its own status when that is one of the three, else todo. */
  function Column(t: Task): (r: Status)
    ensures IsStatusValue(t.status) ==> StatusValue(r) == t.status
    ensures !IsStatusValue(t.status) ==> r == Todo
  {
    if IsStatusValue(t.status) then ParseStatus(t.status.s).value else Todo
  }

  function InColumn(s: Status): Task -> bool {
    (t: Task) => Column(t) == s
  }

  datatype Groups = Groups(todo: seq<Task>, progress: seq<Task>, done: seq<Task>)

  /** One column of the board: the tasks shown in it, sorted by weight. */
  function ColumnOf(tasks: seq<Task>, s: Status): (r: seq<Task>)
    ensures multiset(r) == multiset(Filter(tasks, InColumn(s)))
    ensures forall t :: t in r ==> t in tasks && Column(t) == s
    ensures forall i, j :: 0 <= i < j < |r| ==> Weight(r[i]) <= Weight(r[j])
    ensures forall w :: Filter(r, KeyIs(Weight, w)) == Filter(Filter(tasks, InColumn(s)), KeyIs(Weight, w))
  {
    var shown := Filter(tasks, InColumn(s));
    var r := SortByWeight(shown);
    SameMembers(r, shown);
    r
  }

  /**
   * `groupAndSortTasks`: a missing list gives three empty columns; otherwise
   * every task lands in exactly one column, its own status or todo, and each
   * column is sorted by weight keeping the input order within a weight.
   */
  function GroupAndSortTasks(tasks: Option<seq<Task>>): (g: Groups)
    ensures tasks.None? ==> g == Groups([], [], [])
    ensures var ts := tasks.GetOr([]);
            && multiset(g.todo) + multiset(g.progress) + multiset(g.done) == multiset(ts)
            && g.todo == ColumnOf(ts, Todo) && g.progress == ColumnOf(ts, Progress) && g.done == ColumnOf(ts, Done)
  {
    match tasks
    case None =>
      NoTasksNoColumn(Todo);
      NoTasksNoColumn(Progress);
      NoTasksNoColumn(Done);
      Groups([], [], [])
    case Some(ts) =>
      ColumnsPartition(ts);
      Groups(ColumnOf(ts, Todo), ColumnOf(ts, Progress), ColumnOf(ts, Done))
  }

  lemma NoTasksNoColumn(s: Status)
    ensures ColumnOf([], s) == []
  {
    assert |multiset(ColumnOf([], s))| == 0;
  }

  /** Every task is in exactly one column. */
  lemma ColumnsPartition(ts: seq<Task>)
    ensures multiset(Filter(ts, InColumn(Todo))) + multiset(Filter(ts, InColumn(Progress)))
            + multiset(Filter(ts, InColumn(Done))) == multiset(ts)
  {
    FilterSplit3(ts, InColumn(Todo), InColumn(Progress), InColumn(Done));
  }

  /** A task whose status is not one of the three is shown in the todo column. */
  lemma UnknownStatusGoesToTodo(tasks: seq<Task>, t: Task)
    requires t in tasks && !IsStatusValue(t.status)
    ensures t in GroupAndSortTasks(Some(tasks)).todo
  {
    assert t in Filter(tasks, InColumn(Todo));
    assert t in multiset(ColumnOf(tasks, Todo));
  }

  /** After a create: the created task on the end of the cached list, an absent list counting as empty. */
  function AfterCreate(cache: Option<seq<Task>>, created: Task): (r: seq<Task>)
    ensures |r| == |cache.GetOr([])| + 1
    ensures r[..|r| - 1] == cache.GetOr([]) && r[|r| - 1] == created
  {
    cache.GetOr([]) + [created]
  }

  /** After an update: every cached task with the updated task's id is replaced by it, every other is kept in place. */
  function AfterUpdate(cache: Option<seq<Task>>, updated: Task): (r: seq<Task>)
    ensures var cached := cache.GetOr([]);
            && |r| == |cached|
            && (forall i :: 0 <= i < |cached| && cached[i].id == updated.id ==> r[i] == updated)
            && (forall i :: 0 <= i < |cached| && cached[i].id != updated.id ==> r[i] == cached[i])
  {
    var cached := cache.GetOr([]);
    seq(|cached|, i requires 0 <= i < |cached| => if cached[i].id == updated.id then updated else cached[i])
  }

  /** After a delete: the cached tasks without that id, in their order. */
  function AfterDelete(cache: Option<seq<Task>>, id: string): (r: seq<Task>)
    ensures forall t :: t in r <==> t in cache.GetOr([]) && t.id != id
    ensures |r| + Count(cache.GetOr([]), (t: Task) => t.id == id) == |cache.GetOr([])|
  {
    var cached := cache.GetOr([]);
    CountComplement(cached, (t: Task) => t.id == id, (t: Task) => t.id != id);
    Filter(cached, (t: Task) => t.id != id)
  }

  /**
   * The delete keeps the surviving entries in their order: it distributes over
   * concatenation and, on one entry, drops it exactly when it has the id.
   */
  lemma DeleteKeepsOrder(x: seq<Task>, y: seq<Task>, t: Task, id: string)
    ensures AfterDelete(Some(x + y), id) == AfterDelete(Some(x), id) + AfterDelete(Some(y), id)
    ensures AfterDelete(Some([t]), id) == if t.id == id then [] else [t]
  {
    FilterAppend(x, y, (t: Task) => t.id != id);
  }

  /** Ids are never changed by an update, and applying the same update twice changes nothing more. */
  lemma UpdateIsIdempotent(cache: seq<Task>, updated: Task)
    ensures var r := AfterUpdate(Some(cache), updated);
            && (forall i :: 0 <= i < |cache| ==> r[i].id == cache[i].id)
            && AfterUpdate(Some(r), updated) == r
  {
  }

  /** Deleting the id of a task just created leaves what deleting it before the create would have left. */
  lemma DeleteUndoesCreate(cache: seq<Task>, created: Task)
    ensures AfterDelete(Some(AfterCreate(Some(cache), created)), created.id) == AfterDelete(Some(cache), created.id)
  {
    FilterAppend(cache, [created], (t: Task) => t.id != created.id);
  }
}
