/**
 * The request handlers, on the in-memory store branch: each composes the
 * validator, the store and the classification client into a status code and
 * a response body, and returns the store as the request leaves it.
 */
module TaskController {
  import opened Wrappers
  import opened Json
  import opened Text
  import opened Domain
  import opened Validators
  import opened MemoryStore
  import opened ClassifierClient

  /** A response body. */
  datatype Body =
    | NoContent
    | ErrorBody(message: string)
    | OneTask(task: Task)
    | TaskList(tasks: seq<Task>)
    | Suggestion(classification: Classification)
    | Counts(breakdown: Breakdown)

  datatype Reply = Reply(code: int, body: Body)

  /** The store after the request and the reply sent. */
  datatype Handled = Handled(tasks: seq<Task>, reply: Reply)

  /** The message of each violation, in order. */
  function Messages(violations: seq<Violation>): (r: seq<string>)
    ensures |r| == |violations|
    ensures forall i :: 0 <= i < |violations| ==> r[i] == Message(violations[i])
  {
    seq(|violations|, i requires 0 <= i < |violations| => Message(violations[i]))
  }

  /** The messages of all but the last violation are the messages' own prefix. */
  lemma MessagesSnoc(violations: seq<Violation>)
    ensures |violations| >= 2 ==>
              Join(Messages(violations), ", ")
              == Join(Messages(violations[..|violations| - 1]), ", ") + ", " + Message(violations[|violations| - 1])
  {
    if |violations| >= 2 {
      JoinSnoc(Messages(violations), ", ");
      assert Messages(violations)[..|violations| - 1] == Messages(violations[..|violations| - 1]);
    }
  }

  /**
   * All violation messages, in order, joined with ", ": every message appears
   * in the text, and one more violation appends ", " and its message.
   */
  function ErrorText(violations: seq<Violation>): (r: string)
    ensures violations == [] ==> r == []
    ensures |violations| == 1 ==> r == Message(violations[0])
    ensures |violations| >= 2 ==>
              r == ErrorText(violations[..|violations| - 1]) + ", " + Message(violations[|violations| - 1])
    ensures forall i :: 0 <= i < |violations| ==> Contains(r, Message(violations[i]))
    decreases |violations|
  {
    MessagesSnoc(violations);
    JoinHasParts(Messages(violations), ", ");
    Join(Messages(violations), ", ")
  }

  /** A validated body as the payload of `create`. */
  function ToContent(input: TaskInput): Content {
    Content(Str(input.title), input.description, PriorityValue(input.priority), StatusValue(input.status))
  }

  /** A validated body as the payload of `update`: it carries the four content properties and nothing else. */
  function ToPatch(input: TaskInput): Patch {
    Patch(None, Some(Str(input.title)), Some(input.description),
          Some(PriorityValue(input.priority)), Some(StatusValue(input.status)), None)
  }

  const NotFound: Reply := Reply(404, ErrorBody("Task not found"))

  /**
   * `createTask`: an invalid body gives 400 with every message and leaves the
   * store alone; a valid one appends a task built from the validated body and
   * answers 201 with it.
   */
  function CreateTask(tasks: seq<Task>, body: Value, freshId: string, now: int): (h: Handled)
    ensures ValidateTask(body).Failure? ==>
              h == Handled(tasks, Reply(400, ErrorBody(ErrorText(ValidateTask(body).error))))
    ensures ValidateTask(body).Success? ==>
              h.reply.code == 201 && h.reply.body.OneTask? && h.tasks == tasks + [h.reply.body.task]
    ensures ValidateTask(body).Success? ==>
              var input := ValidateTask(body).value;
              var t := h.reply.body.task;
              t.id == freshId && t.title == Str(input.title) && t.priority == PriorityValue(input.priority)
              && t.status == StatusValue(input.status) && t.createdAt == now && t.updatedAt == Some(now)
              && t.description == (if JsTruthy(input.description) then input.description else Str(""))
              && IsPriorityValue(t.priority) && IsStatusValue(t.status)
  {
    match ValidateTask(body)
    case Failure(vs) => Handled(tasks, Reply(400, ErrorBody(ErrorText(vs))))
    case Success(input) =>
      var m := Create(tasks, ToContent(input), freshId, now);
      Handled(m.tasks, Reply(201, OneTask(m.result.value)))
  }

  /** `getTasks`: 200 with the store in insertion order. */
  function GetTasks(tasks: seq<Task>): (h: Handled)
    ensures h.tasks == tasks && h.reply.code == 200 && h.reply.body.TaskList?
    ensures h.reply.body.tasks == tasks
  {
    Handled(tasks, Reply(200, TaskList(tasks)))
  }

  /** `getTaskById`: 200 with the first task carrying the id, or 404. */
  function GetTaskById(tasks: seq<Task>, id: string): (h: Handled)
    ensures h.tasks == tasks
    ensures !HasId(tasks, id) <==> h.reply == NotFound
    ensures HasId(tasks, id) ==> h.reply == Reply(200, OneTask(GetById(tasks, id).value))
  {
    match GetById(tasks, id)
    case None => Handled(tasks, NotFound)
    case Some(t) => Handled(tasks, Reply(200, OneTask(t)))
  }

  /**
   * `updateTask`: the body is validated before the lookup, so an invalid body
   * gives 400 even for an unknown id; then an unknown id gives 404; otherwise
   * the stored task takes the four validated properties and a fresh
   * `updatedAt`, and the reply is 200 with it.
   */
  function UpdateTask(tasks: seq<Task>, id: string, body: Value, now: int): (h: Handled)
    ensures ValidateTask(body).Failure? ==>
              h == Handled(tasks, Reply(400, ErrorBody(ErrorText(ValidateTask(body).error))))
    ensures ValidateTask(body).Success? && !HasId(tasks, id) ==> h == Handled(tasks, NotFound)
    ensures ValidateTask(body).Success? && HasId(tasks, id) ==>
              var input := ValidateTask(body).value;
              var prior := GetById(tasks, id).value;
              h.reply.code == 200 && h.reply.body.OneTask?
              && h.reply.body.task == Task(id, Str(input.title), input.description, PriorityValue(input.priority),
                                          StatusValue(input.status), prior.createdAt, Some(now))
              && h.tasks == tasks[FindIndex(tasks, id).value := h.reply.body.task]
  {
    match ValidateTask(body)
    case Failure(vs) => Handled(tasks, Reply(400, ErrorBody(ErrorText(vs))))
    case Success(input) =>
      var m := Update(tasks, id, ToPatch(input), now);
      if m.result.None? then Handled(tasks, NotFound)
      else Handled(m.tasks, Reply(200, OneTask(m.result.value)))
  }

  /** `deleteTask`: 204 with no body after removing the first task with the id, or 404. */
  function DeleteTask(tasks: seq<Task>, id: string): (h: Handled)
    ensures !HasId(tasks, id) ==> h == Handled(tasks, NotFound)
    ensures HasId(tasks, id) ==> h.reply == Reply(204, NoContent) && |h.tasks| == |tasks| - 1
    ensures HasId(tasks, id) ==> h.tasks == Remove(tasks, id).tasks
  {
    var m := Remove(tasks, id);
    if m.result.None? then Handled(tasks, NotFound) else Handled(m.tasks, Reply(204, NoContent))
  }

  /** The reply to a classify request, with the description sent to the remote service if a call was made. */
  datatype Classified = Classified(reply: Reply, sent: Option<string>)

  /**
   * `classifyTask`: an invalid body gives 400 and never reaches the
   * classifier; a valid one gives 200 with whatever `classify` returns for
   * the description and the configured URL.
   */
  function ClassifyTask(body: Value, url: Option<string>, remote: RemoteOutcome): (c: Classified)
    ensures ValidateClassifier(body).Failure? ==>
              c == Classified(Reply(400, ErrorBody(ErrorText(ValidateClassifier(body).error))), None)
    ensures ValidateClassifier(body).Success? ==>
              var call := Classify(ValidateClassifier(body).value, url, remote);
              c == Classified(Reply(200, Suggestion(call.result)), call.sent)
  {
    match ValidateClassifier(body)
    case Failure(vs) => Classified(Reply(400, ErrorBody(ErrorText(vs))), None)
    case Success(description) =>
      var call := Classify(description, url, remote);
      Classified(Reply(200, Suggestion(call.result)), call.sent)
  }

  /** `getAnalytics` on the in-memory branch: 200 with the store's counts. */
  method GetAnalytics(tasks: seq<Task>) returns (h: Handled)
    ensures h.tasks == tasks && h.reply.code == 200
    ensures h.reply.body == Counts(Tally(tasks))
  {
    var b := Analytics(tasks);
    h := Handled(tasks, Reply(200, Counts(b)));
  }

  /** The single row the database's grouping stage produces: six flat counts. */
  datatype FlatStats = FlatStats(high: nat, medium: nat, low: nat, todo: nat, progress: nat, done: nat)

  /** The database branch of `getAnalytics`: the first row, or zeros when there is none, reshaped. */
  function ReshapeStats(rows: seq<FlatStats>): (b: Breakdown)
    ensures rows == [] ==> b.byPriority.Sum() == 0 && b.byStatus.Sum() == 0
    ensures rows != [] ==> b.byPriority.Sum() == rows[0].high + rows[0].medium + rows[0].low
    ensures rows != [] ==> b.byStatus.Sum() == rows[0].todo + rows[0].progress + rows[0].done
  {
    var stats := if rows == [] then FlatStats(0, 0, 0, 0, 0, 0) else rows[0];
    Breakdown(PriorityCounts(stats.high, stats.medium, stats.low),
              StatusCounts(stats.todo, stats.progress, stats.done))
  }

  /** The flat row a breakdown corresponds to. */
  function Flatten(b: Breakdown): FlatStats {
    FlatStats(b.byPriority.high, b.byPriority.medium, b.byPriority.low,
              b.byStatus.todo, b.byStatus.progress, b.byStatus.done)
  }

  /** Reshaping loses nothing: the flat row and the nested response carry the same six counts. */
  lemma ReshapeRoundTrip(b: Breakdown, row: FlatStats, more: seq<FlatStats>)
    ensures ReshapeStats([Flatten(b)] + more) == b
    ensures Flatten(ReshapeStats([row] + more)) == row
  {
  }

  /** With no classifier URL configured, the repository's example request is classified high. */
  lemma ClassifyUrgentWithoutUrl()
    ensures ClassifyTask(Obj(map["description" := Str("This is urgent and critical")]), Some(""), Failed).reply
            == Reply(200, Suggestion(Classification(Str("high"), Str("progress"), Str("fallback"), None, None, None)))
  {
    UrgentAndCriticalWithoutUrl();
  }

  /** A description under five characters is refused before any classification happens. */
  lemma ShortDescriptionRefused(description: string, url: Option<string>, remote: RemoteOutcome)
    requires |description| < 5
    ensures ClassifyTask(Obj(map["description" := Str(description)]), url, remote).reply.code == 400
    ensures ClassifyTask(Obj(map["description" := Str(description)]), url, remote).sent.None?
  {
  }

  /** A task created through the handler is what the by-id handler then returns, when the id is fresh. */
  lemma CreateThenGetTask(tasks: seq<Task>, body: Value, freshId: string, now: int)
    requires ValidateTask(body).Success? && !HasId(tasks, freshId)
    ensures GetTaskById(CreateTask(tasks, body, freshId, now).tasks, freshId).reply
            == Reply(200, CreateTask(tasks, body, freshId, now).reply.body)
  {
    var input := ValidateTask(body).value;
    CreateThenGet(tasks, ToContent(input), freshId, now);
  }

  /** After a successful update, the by-id handler returns the updated task. */
  lemma UpdateThenGetTask(tasks: seq<Task>, id: string, body: Value, now: int)
    requires ValidateTask(body).Success? && HasId(tasks, id)
    ensures GetTaskById(UpdateTask(tasks, id, body, now).tasks, id).reply
            == Reply(200, UpdateTask(tasks, id, body, now).reply.body)
  {
    var h := UpdateTask(tasks, id, body, now);
    var i := FindIndex(tasks, id).value;
    var t := h.reply.body.task;
    assert h.tasks == tasks[i := t] && t.id == id;
    FindAfterReplace(tasks, i, t);
  }

  /** After a successful delete of a unique id, the by-id handler answers 404. */
  lemma DeleteThenGetTask(tasks: seq<Task>, id: string)
    requires forall i, j :: 0 <= i < j < |tasks| && tasks[i].id == id ==> tasks[j].id != id
    ensures GetTaskById(DeleteTask(tasks, id).tasks, id).reply == NotFound
  {
    RemoveThenGet(tasks, id);
  }
}
