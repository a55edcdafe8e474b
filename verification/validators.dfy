/**
 * The request schemas: the task body (title, description, priority, status)
 * and the classify body (description). Every rule is checked and all
 * violations are reported together, in schema key order.
 */
module Validators {
  import opened Wrappers
  import opened Json
  import opened Domain

  /** One schema violation, named by the property key it concerns. */
  datatype Violation =
    | NotAnObject
    | Required(key: string)
    | NotAString(key: string)
    | EmptyString(key: string)
    | NotOneOf(key: string, allowed: seq<string>)
    | TooShort(key: string, min: nat)

  /** The violation's text in the schema library's default wording. */
  function Message(v: Violation): string {
    match v
    case NotAnObject => "\"value\" must be of type object"
    case Required(k) => "\"" + k + "\" is required"
    case NotAString(k) => "\"" + k + "\" must be a string"
    case EmptyString(k) => "\"" + k + "\" is not allowed to be empty"
    case NotOneOf(k, allowed) => "\"" + k + "\" must be one of [" + JoinNames(allowed) + "]"
    case TooShort(k, n) => "\"" + k + "\" length must be at least " + NatText(n) + " characters long"
  }

  function JoinNames(names: seq<string>): string {
    if names == [] then "" else if |names| == 1 then names[0] else names[0] + ", " + JoinNames(names[1..])
  }

  /** Decimal digits of a natural number. */
  function NatText(n: nat): string {
    if n < 10 then ["0123456789"[n]] else NatText(n / 10) + ["0123456789"[n % 10]]
  }

  /** A validated task body: every property present, defaults applied. */
  datatype TaskInput = TaskInput(title: string, description: Value, priority: Priority, status: Status)

  /** A property of the body, `undefined` when the body lacks it. */
  function Field(body: map<string, Value>, key: string): (r: Value)
    ensures key in body ==> r == body[key]
    ensures key !in body ==> r == Undefined
  {
    if key in body then body[key] else Undefined
  }

  /** `title: string().min(1).required()`: any string of at least one character, spaces included. */
  function TitleViolation(v: Value): (r: Option<Violation>)
    ensures r.None? <==> v.Str? && |v.s| >= 1
    ensures r.Some? ==> KeyOf(r.value) == "title"
  {
    match v
    case Undefined => Some(Required("title"))
    case Str(s) => if s == [] then Some(EmptyString("title")) else None
    case _ => Some(NotAString("title"))
  }

  /** `description: string().allow('', null).default('')`: absent, `null` or any string. */
  function DescriptionViolation(v: Value): (r: Option<Violation>)
    ensures r.None? <==> v.Undefined? || v.Null? || v.Str?
    ensures r.Some? ==> KeyOf(r.value) == "description"
  {
    if v.Undefined? || v.Null? || v.Str? then None else Some(NotAString("description"))
  }

  /** `priority: string().valid('high', 'medium', 'low').default('medium')`. */
  function PriorityViolation(v: Value): (r: Option<Violation>)
    ensures r.None? <==> v.Undefined? || IsPriorityValue(v)
    ensures r.Some? ==> KeyOf(r.value) == "priority"
  {
    if v.Undefined? || IsPriorityValue(v) then None else Some(NotOneOf("priority", ["high", "medium", "low"]))
  }

  /** `status: string().valid('todo', 'progress', 'done').default('todo')`. */
  function StatusViolation(v: Value): (r: Option<Violation>)
    ensures r.None? <==> v.Undefined? || IsStatusValue(v)
    ensures r.Some? ==> KeyOf(r.value) == "status"
  {
    if v.Undefined? || IsStatusValue(v) then None else Some(NotOneOf("status", ["todo", "progress", "done"]))
  }

  function Present(o: Option<Violation>): seq<Violation> {
    if o.Some? then [o.value] else []
  }

  /** The property key a violation concerns; the whole-body violation concerns none. */
  function KeyOf(v: Violation): string {
    if v.NotAnObject? then "" else v.key
  }

  /** The position of a violation's property in the task schema; 4 for anything outside it. */
  function SchemaRank(v: Violation): nat {
    var key := KeyOf(v);
    if key == "title" then 0 else if key == "description" then 1
    else if key == "priority" then 2 else if key == "status" then 3 else 4
  }

  /** Some violation in `vs` concerns property `key`. */
  predicate Concerns(vs: seq<Violation>, key: string) {
    exists i :: 0 <= i < |vs| && KeyOf(vs[i]) == key
  }

  /**
   * The violations of a task body, in schema key order, without stopping at
   * the first: a property is reported exactly when its own rule fails, at
   * most once, and nothing else is reported.
   */
  function TaskViolations(body: map<string, Value>): (r: seq<Violation>)
    ensures RankedWithin(r, 0, 3) && InSchemaOrder(r)
    ensures Concerns(r, "title") <==> TitleViolation(Field(body, "title")).Some?
    ensures Concerns(r, "description") <==> DescriptionViolation(Field(body, "description")).Some?
    ensures Concerns(r, "priority") <==> PriorityViolation(Field(body, "priority")).Some?
    ensures Concerns(r, "status") <==> StatusViolation(Field(body, "status")).Some?
  {
    var title, description := TitleViolation(Field(body, "title")), DescriptionViolation(Field(body, "description"));
    var priority, status := PriorityViolation(Field(body, "priority")), StatusViolation(Field(body, "status"));
    PiecesInSchemaOrder(title, description, priority, status);
    PiecesConcern(title, description, priority, status, "title");
    PiecesConcern(title, description, priority, status, "description");
    PiecesConcern(title, description, priority, status, "priority");
    PiecesConcern(title, description, priority, status, "status");
    Present(title) + Present(description) + Present(priority) + Present(status)
  }

  /** Four optional violations, one per schema property, concatenated in schema order. */
  lemma PiecesInSchemaOrder(title: Option<Violation>, description: Option<Violation>,
                            priority: Option<Violation>, status: Option<Violation>)
    requires title.Some? ==> KeyOf(title.value) == "title"
    requires description.Some? ==> KeyOf(description.value) == "description"
    requires priority.Some? ==> KeyOf(priority.value) == "priority"
    requires status.Some? ==> KeyOf(status.value) == "status"
    ensures var r := Present(title) + Present(description) + Present(priority) + Present(status);
            RankedWithin(r, 0, 3) && InSchemaOrder(r)
  {
    var t, d, p, s := Present(title), Present(description), Present(priority), Present(status);
    PieceRanked(title, 0);
    PieceRanked(description, 1);
    PieceRanked(priority, 2);
    PieceRanked(status, 3);
    SchemaOrderConcat(t, d, 0, 0, 1);
    SchemaOrderConcat(t + d, p, 0, 1, 2);
    SchemaOrderConcat(t + d + p, s, 0, 2, 3);
  }

  /** The same four pieces: a property is concerned exactly when its own piece is present. */
  lemma PiecesConcern(title: Option<Violation>, description: Option<Violation>,
                      priority: Option<Violation>, status: Option<Violation>, key: string)
    requires title.Some? ==> KeyOf(title.value) == "title"
    requires description.Some? ==> KeyOf(description.value) == "description"
    requires priority.Some? ==> KeyOf(priority.value) == "priority"
    requires status.Some? ==> KeyOf(status.value) == "status"
    ensures var r := Present(title) + Present(description) + Present(priority) + Present(status);
            Concerns(r, key) <==> (title.Some? && key == "title") || (description.Some? && key == "description")
                                  || (priority.Some? && key == "priority") || (status.Some? && key == "status")
  {
    var t, d, p, s := Present(title), Present(description), Present(priority), Present(status);
    ConcernsPresent(title, key);
    ConcernsPresent(description, key);
    ConcernsPresent(priority, key);
    ConcernsPresent(status, key);
    ConcernsConcat(t, d, key);
    ConcernsConcat(t + d, p, key);
    ConcernsConcat(t + d + p, s, key);
  }

  /** Every violation in `vs` concerns a schema property ranked between `lo` and `hi`. */
  predicate RankedWithin(vs: seq<Violation>, lo: nat, hi: nat) {
    forall i :: 0 <= i < |vs| ==> lo <= SchemaRank(vs[i]) <= hi
  }

  /** The violations in `vs` follow the schema order, each property at most once. */
  predicate InSchemaOrder(vs: seq<Violation>) {
    forall i, j :: 0 <= i < j < |vs| ==> SchemaRank(vs[i]) < SchemaRank(vs[j])
  }

  lemma SchemaOrderConcat(a: seq<Violation>, b: seq<Violation>, lo: nat, mid: nat, hi: nat)
    requires InSchemaOrder(a) && InSchemaOrder(b)
    requires lo <= mid < hi && RankedWithin(a, lo, mid) && RankedWithin(b, mid + 1, hi)
    ensures InSchemaOrder(a + b) && RankedWithin(a + b, lo, hi)
  {
    forall i, j | 0 <= i < j < |a + b|
      ensures SchemaRank((a + b)[i]) < SchemaRank((a + b)[j])
    {
      if j < |a| {
        assert (a + b)[i] == a[i] && (a + b)[j] == a[j];
      } else if i < |a| {
        assert (a + b)[i] == a[i] && (a + b)[j] == b[j - |a|];
      } else {
        assert (a + b)[i] == b[i - |a|] && (a + b)[j] == b[j - |a|];
      }
    }
    forall i | 0 <= i < |a + b|
      ensures lo <= SchemaRank((a + b)[i]) <= hi
    {
      if i < |a| {
        assert (a + b)[i] == a[i];
      } else {
        assert (a + b)[i] == b[i - |a|];
      }
    }
  }

  lemma PieceRanked(o: Option<Violation>, rank: nat)
    requires o.Some? ==> SchemaRank(o.value) == rank
    ensures InSchemaOrder(Present(o)) && RankedWithin(Present(o), rank, rank)
  {
  }

  lemma ConcernsPresent(o: Option<Violation>, key: string)
    ensures Concerns(Present(o), key) <==> o.Some? && KeyOf(o.value) == key
  {
    if o.Some? {
      assert Present(o)[0] == o.value;
    }
  }

  lemma ConcernsConcat(a: seq<Violation>, b: seq<Violation>, key: string)
    ensures Concerns(a + b, key) <==> Concerns(a, key) || Concerns(b, key)
  {
    if Concerns(a + b, key) {
      var i :| 0 <= i < |a + b| && KeyOf((a + b)[i]) == key;
      if i < |a| {
        assert KeyOf(a[i]) == key;
      } else {
        assert KeyOf(b[i - |a|]) == key;
      }
    }
    if Concerns(a, key) {
      var i :| 0 <= i < |a| && KeyOf(a[i]) == key;
      assert (a + b)[i] == a[i];
    }
    if Concerns(b, key) {
      var i :| 0 <= i < |b| && KeyOf(b[i]) == key;
      assert (a + b)[|a| + i] == b[i];
    }
  }

  /**
   * `validateTask` with `abortEarly: false`. On success the title is the given
   * string (not trimmed), the description is the given string or `null` (''
   * when absent), and priority and status are the given enumeration members
   * or medium and todo when absent. On failure every failing property
   * contributes exactly its own violation.
   */
  function ValidateTask(body: Value): (r: Result<TaskInput, seq<Violation>>)
    ensures !body.Obj? ==> r == Failure([NotAnObject])
    ensures body.Obj? ==> (r.Success? <==>
              Field(body.fields, "title").Str? && |Field(body.fields, "title").s| >= 1
              && DescriptionViolation(Field(body.fields, "description")).None?
              && PriorityViolation(Field(body.fields, "priority")).None?
              && StatusViolation(Field(body.fields, "status")).None?)
    ensures r.Success? ==> Str(r.value.title) == Field(body.fields, "title")
    ensures r.Success? ==> (r.value.description ==
              (if Field(body.fields, "description").Undefined? then Str("") else Field(body.fields, "description")))
    ensures r.Success? ==> r.value.description.Str? || r.value.description.Null?
    ensures r.Success? ==> (PriorityValue(r.value.priority) ==
              (if Field(body.fields, "priority").Undefined? then Str("medium") else Field(body.fields, "priority")))
    ensures r.Success? ==> (StatusValue(r.value.status) ==
              (if Field(body.fields, "status").Undefined? then Str("todo") else Field(body.fields, "status")))
    ensures body.Obj? && r.Failure? ==> r.error == TaskViolations(body.fields)
    ensures body.Obj? && r.Failure? ==>
              |r.error| == |TaskViolations(body.fields)| && r.error != []
              && (TitleViolation(Field(body.fields, "title")).Some? ==> TitleViolation(Field(body.fields, "title")).value in r.error)
              && (DescriptionViolation(Field(body.fields, "description")).Some? ==> DescriptionViolation(Field(body.fields, "description")).value in r.error)
              && (PriorityViolation(Field(body.fields, "priority")).Some? ==> PriorityViolation(Field(body.fields, "priority")).value in r.error)
              && (StatusViolation(Field(body.fields, "status")).Some? ==> StatusViolation(Field(body.fields, "status")).value in r.error)
  {
    if !body.Obj? then Failure([NotAnObject])
    else
      var fields := body.fields;
      var issues := TaskViolations(fields);
      if issues != [] then Failure(issues)
      else
        var p := Field(fields, "priority");
        var s := Field(fields, "status");
        var d := Field(fields, "description");
        Success(TaskInput(
          Field(fields, "title").s,
          if d.Undefined? then Str("") else d,
          if p.Undefined? then Medium else ParsePriority(p.s).value,
          if s.Undefined? then Todo else ParseStatus(s.s).value))
  }

  /** `description: string().min(5).required()`, counting characters without trimming. */
  function ClassifyViolation(v: Value): (r: Option<Violation>)
    ensures r.None? <==> v.Str? && |v.s| >= 5
  {
    match v
    case Undefined => Some(Required("description"))
    case Str(s) =>
      if s == [] then Some(EmptyString("description"))
      else if |s| < 5 then Some(TooShort("description", 5))
      else None
    case _ => Some(NotAString("description"))
  }

  /** `validateClassifier`: the description, when it is a string of at least five characters. */
  function ValidateClassifier(body: Value): (r: Result<string, seq<Violation>>)
    ensures !body.Obj? ==> r == Failure([NotAnObject])
    ensures body.Obj? ==> (r.Success? <==> Field(body.fields, "description").Str? && |Field(body.fields, "description").s| >= 5)
    ensures r.Success? ==> Field(body.fields, "description") == Str(r.value) && |r.value| >= 5
    ensures r.Failure? ==> |r.error| == 1
  {
    if !body.Obj? then Failure([NotAnObject])
    else
      match ClassifyViolation(Field(body.fields, "description"))
      case Some(v) => Failure([v])
      case None => Success(Field(body.fields, "description").s)
  }

  /** The title is not trimmed: a title of spaces only is accepted, and absent properties take their defaults. */
  lemma SpacesTitleAccepted()
    ensures ValidateTask(Obj(map["title" := Str("   ")])) == Success(TaskInput("   ", Str(""), Medium, Todo))
  {
    var body := map["title" := Str("   ")];
    assert Field(body, "description") == Undefined;
    assert TaskViolations(body) == [];
  }

  /** `null` is an accepted description and is kept as `null`. */
  lemma NullDescriptionKept()
    ensures ValidateTask(Obj(map["title" := Str("t"), "description" := Null])) == Success(TaskInput("t", Null, Medium, Todo))
  {
    var body := map["title" := Str("t"), "description" := Null];
    assert TaskViolations(body) == [];
  }

  /** Enumeration values are case-sensitive, and every failing property is reported. */
  lemma AllViolationsReported()
    ensures ValidateTask(Obj(map["title" := Str(""), "description" := Num(5.0), "priority" := Str("High"), "status" := Str("closed")]))
            == Failure([EmptyString("title"), NotAString("description"),
                        NotOneOf("priority", ["high", "medium", "low"]), NotOneOf("status", ["todo", "progress", "done"])])
  {
    var body := map["title" := Str(""), "description" := Num(5.0), "priority" := Str("High"), "status" := Str("closed")];
    assert Field(body, "title") == Str("");
    assert Field(body, "description") == Num(5.0);
    assert Field(body, "priority") == Str("High");
    assert Field(body, "status") == Str("closed");
    assert ParsePriority("High").None?;
    assert ParseStatus("closed").None?;
    assert TitleViolation(Str("")) == Some(EmptyString("title"));
    assert DescriptionViolation(Num(5.0)) == Some(NotAString("description"));
    assert PriorityViolation(Str("High")) == Some(NotOneOf("priority", ["high", "medium", "low"]));
    assert StatusViolation(Str("closed")) == Some(NotOneOf("status", ["todo", "progress", "done"]));
    assert TaskViolations(body) == [EmptyString("title"), NotAString("description"),
                                    NotOneOf("priority", ["high", "medium", "low"]), NotOneOf("status", ["todo", "progress", "done"])];
  }

  /** The classify rule does not trim: five spaces are a valid description. */
  lemma FiveSpacesClassifiable()
    ensures ValidateClassifier(Obj(map["description" := Str("     ")])) == Success("     ")
  {
  }
}
