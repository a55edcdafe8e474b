/**
 * The classifier service's `/predict` endpoint: request checks, the choice
 * between the trained model and the keyword heuristic, and the
 * normalisation every answer goes through before it is sent. The trained
 * model is an oracle from a stripped text to two labels (or an exception),
 * and JSON parsing is folded into the request value.
 */
module ClassifierApp {
  import opened Wrappers
  import opened Json
  import opened Text
  import opened Domain
  import opened Heuristics

  /** What the two trained pipelines answer for a text: labels and their confidences, or an exception. */
  datatype Labels =
    | Raises
    | Predicted(priority: string, status: string, priorityConfidence: real, statusConfidence: real)

  /** The model loaded at start-up, if one could be loaded. */
  datatype Model = NoModel | Loaded(predict: string -> Labels)

  /** A Python dictionary with string keys, as the endpoint builds and returns it. */
  type Dict = map<string, Value>

  /** The heuristic's answer as a dictionary. */
  function GuessDict(g: Guess): (d: Dict)
    ensures WellFormed(d)
    ensures d.Keys == {"priority", "status", "source", "confidence"}
    ensures d["priority"] == PriorityValue(g.priority) && d["status"] == StatusValue(g.status)
    ensures d["source"] == Str(g.source) && d["confidence"] == Num(g.confidence)
  {
    map["priority" := PriorityValue(g.priority), "status" := StatusValue(g.status),
        "source" := Str(g.source), "confidence" := Num(g.confidence)]
  }

  /** The model's answer as a dictionary; the overall confidence is the mean of the two. */
  function ModelDict(p: Priority, s: Status, priorityConfidence: real, statusConfidence: real): (d: Dict)
    ensures WellFormed(d)
    ensures d["priority"] == PriorityValue(p) && d["status"] == StatusValue(s) && d["source"] == Str("model")
  {
    map["priority" := PriorityValue(p), "status" := StatusValue(s), "source" := Str("model"),
        "confidence" := Num((priorityConfidence + statusConfidence) / 2.0),
        "priority_confidence" := Num(priorityConfidence), "status_confidence" := Num(statusConfidence)]
  }

  /** Labels the endpoint may pass on: the pipelines answered, and with enumeration members. */
  predicate Usable(l: Labels) {
    l.Predicted? && ParsePriority(l.priority).Some? && ParseStatus(l.status).Some?
  }

  /**
   * `predict_with_model`: without a model, or for a text that is not a
   * string with something besides whitespace, the heuristic answers for the
   * text as given; otherwise the model labels the stripped text, and when it
   * raises or names a label outside the enumerations the heuristic answers
   * for the stripped text instead.
   */
  function PredictWithModel(text: Value, model: Model): (d: Dict)
    ensures WellFormed(d)
    ensures !(model.Loaded? && text.Str? && Trim(text.s, IsPySpace) != []) ==> d == GuessDict(HeuristicPredict(text))
    ensures model.Loaded? && text.Str? && Trim(text.s, IsPySpace) != [] ==>
              var stripped := Trim(text.s, IsPySpace);
              var labels := model.predict(stripped);
              && (d["source"] == Str("model") <==> Usable(labels))
              && (Usable(labels) ==> d["priority"] == Str(labels.priority) && d["status"] == Str(labels.status))
              && (!Usable(labels) ==> d == GuessDict(HeuristicPredict(Str(stripped))))
  {
    if model.NoModel? then GuessDict(HeuristicPredict(text))
    else if !(text.Str? && Trim(text.s, IsPySpace) != []) then GuessDict(HeuristicPredict(text))
    else
      var stripped := Trim(text.s, IsPySpace);
      var labels := model.predict(stripped);
      HeuristicIsNotModel(HeuristicPredict(Str(stripped)));
      if labels.Raises? then GuessDict(HeuristicPredict(Str(stripped)))
      else
        match (ParsePriority(labels.priority), ParseStatus(labels.status))
        case (Some(p), Some(s)) => ModelDict(p, s, labels.priorityConfidence, labels.statusConfidence)
        case _ => GuessDict(HeuristicPredict(Str(stripped)))
  }

  /** The heuristic's answers are never tagged as the model's. */
  lemma HeuristicIsNotModel(g: Guess)
    requires g.source == "heuristic-default" || g.source == "heuristic"
    ensures GuessDict(g)["source"] != Str("model")
  {
    assert g.source[0] == 'h';
  }

  /** `dict.setdefault`: the stored value, or `v` stored under a key that was missing. */
  function SetDefault(d: Dict, key: string, v: Value): (r: Dict)
    ensures key in r && r.Keys == d.Keys + {key}
    ensures key in d ==> r == d
    ensures key !in d ==> r[key] == v && forall k :: k in d ==> r[k] == d[k]
  {
    if key in d then d else d[key := v]
  }

  /** A value Python can look up in a set; lists and dictionaries raise `TypeError` there. */
  predicate Hashable(v: Value) {
    !v.Arr? && !v.Obj?
  }

  /** `isinstance(v, (int, float))`, where booleans count as integers. */
  predicate IsNumber(v: Value) {
    v.Num? || v.Bool?
  }

  /** The four `setdefault` calls: each of the four keys is added with its default when missing. */
  function WithDefaults(result: Dict): (d: Dict)
    ensures d.Keys == result.Keys + {"priority", "status", "source", "confidence"}
    ensures forall k :: k in result ==> d[k] == result[k]
    ensures "priority" !in result ==> d["priority"] == Str("medium")
    ensures "status" !in result ==> d["status"] == Str("todo")
    ensures "source" !in result ==> d["source"] == Str("heuristic")
    ensures "confidence" !in result ==> d["confidence"] == Num(0.5)
  {
    SetDefault(SetDefault(SetDefault(SetDefault(result, "priority", Str("medium")), "status", Str("todo")),
                          "source", Str("heuristic")), "confidence", Num(0.5))
  }

  /** Keeps the value under `key` when `keep` holds, and otherwise overwrites it with `default`. */
  function Coerce(d: Dict, key: string, keep: bool, default: Value): (r: Dict)
    requires key in d
    ensures r.Keys == d.Keys
    ensures r[key] == (if keep then d[key] else default)
    ensures forall k :: k in d && k != key ==> r[k] == d[k]
  {
    if keep then d else d[key := default]
  }

  /**
   * The result normalisation of `/predict`: missing fields get defaults, a
   * priority or status outside the enumerations becomes medium or todo, and
   * a confidence that is not a number becomes 0.5. A list or dictionary in
   * the priority or status slot makes the set lookup raise, which is `None`.
   */
  function Normalise(result: Dict): (n: Option<Dict>)
    ensures var d := WithDefaults(result);
            && (n.Some? <==> Hashable(d["priority"]) && Hashable(d["status"]))
            && (n.Some? ==> n.value.Keys == d.Keys)
            && (n.Some? ==> n.value["priority"] == (if IsPriorityValue(d["priority"]) then d["priority"] else Str("medium")))
            && (n.Some? ==> n.value["status"] == (if IsStatusValue(d["status"]) then d["status"] else Str("todo")))
            && (n.Some? ==> n.value["confidence"] == (if IsNumber(d["confidence"]) then d["confidence"] else Num(0.5)))
            && (n.Some? ==> n.value["source"] == d["source"])
    ensures n.Some? ==> forall k :: k in result && k != "priority" && k != "status" && k != "confidence" ==> n.value[k] == result[k]
  {
    var d := WithDefaults(result);
    if !Hashable(d["priority"]) then None
    else
      var d1 := Coerce(d, "priority", IsPriorityValue(d["priority"]), Str("medium"));
      if !Hashable(d1["status"]) then None
      else
        var d2 := Coerce(d1, "status", IsStatusValue(d1["status"]), Str("todo"));
        Some(Coerce(d2, "confidence", IsNumber(d2["confidence"]), Num(0.5)))
  }

  /** What every answer of the service carries: an enumeration priority and status, a source and a number as confidence. */
  predicate WellFormed(d: Dict) {
    && "priority" in d && IsPriorityValue(d["priority"])
    && "status" in d && IsStatusValue(d["status"])
    && "source" in d
    && "confidence" in d && IsNumber(d["confidence"])
  }

  /** Normalisation succeeds exactly on a well-formed answer's shape, and a normalised answer is well formed and stable. */
  lemma NormaliseIsIdempotent(result: Dict)
    requires Normalise(result).Some?
    ensures WellFormed(Normalise(result).value)
    ensures Normalise(Normalise(result).value) == Normalise(result)
  {
    var n := Normalise(result).value;
    assert WellFormed(n);
    NormaliseKeepsWellFormed(n);
  }

  /** A well-formed dictionary passes normalisation unchanged. */
  lemma NormaliseKeepsWellFormed(d: Dict)
    requires WellFormed(d)
    ensures Normalise(d) == Some(d)
  {
    var n := Normalise(d).value;
    assert n.Keys == d.Keys;
    forall k | k in d
      ensures n[k] == d[k]
    {
    }
  }

  /** The parsed request: not JSON at all, a body that did not parse, or the parsed JSON value. */
  datatype Request = NotJson | Sent(body: Option<Value>)

  datatype Response = Response(code: int, body: Dict)

  function ErrorBody(error: string, message: string): Dict {
    map["error" := Str(error), "message" := Str(message)]
  }

  /** The answer to any exception inside the handler. */
  const ErrorFallback: Dict := map["priority" := Str("medium"), "status" := Str("todo"), "source" := Str("error-fallback"),
                                   "confidence" := Num(0.5), "error" := Str("Internal server error")]

  /** `data.get("description", "")`. */
  function DescriptionOf(fields: Dict): Value {
    if "description" in fields then fields["description"] else Str("")
  }

  /** The answer to a falsy description. */
  const Missing := Response(400, ErrorBody("Missing required field", "description is required"))

  /**
   * The checks on the description, in the order the endpoint makes them: a
   * falsy value is missing, a non-string has the wrong type, a
   * whitespace-only string is empty; anything else is predicted on its
   * stripped text, and the normalised answer is sent with 200.
   */
  function Answer(description: Value, model: Model): (response: Response)
    ensures !PyTruthy(description) ==> response == Missing
    ensures PyTruthy(description) && !description.Str? ==>
              response == Response(400, ErrorBody("Invalid field type", "description must be a string"))
    ensures description.Str? && description.s != [] && Trim(description.s, IsPySpace) == [] ==>
              response == Response(400, ErrorBody("Empty description", "description cannot be empty"))
    ensures description.Str? && Trim(description.s, IsPySpace) != [] ==>
              response == Response(200, PredictWithModel(Str(Trim(description.s, IsPySpace)), model))
    ensures response.code == 200 ==> WellFormed(response.body)
  {
    if !PyTruthy(description) then Missing
    else if !description.Str? then Response(400, ErrorBody("Invalid field type", "description must be a string"))
    else if Trim(description.s, IsPySpace) == [] then Response(400, ErrorBody("Empty description", "description cannot be empty"))
    else
      var result := PredictWithModel(Str(Trim(description.s, IsPySpace)), model);
      NormaliseKeepsWellFormed(result);
      match Normalise(result)
      case None => Response(500, ErrorFallback)
      case Some(d) => Response(200, d)
  }

  /**
   * `POST /predict`: a non-JSON or unparseable request is refused with 400
   * before anything else, a parsed body that is not a dictionary fails on
   * `data.get` into the 500 fallback, and a dictionary's description is
   * checked and answered.
   */
  function Predict(request: Request, model: Model): (response: Response)
    ensures request.NotJson? ==>
              response == Response(400, ErrorBody("Content-Type must be application/json", "Invalid request format"))
    ensures request.Sent? && (request.body.None? || request.body.value.Null?) ==>
              response == Response(400, ErrorBody("Invalid JSON in request body", "Could not parse JSON"))
    ensures request.Sent? && request.body.Some? && !request.body.value.Null? && !request.body.value.Obj? ==>
              response == Response(500, ErrorFallback)
    ensures request.Sent? && request.body.Some? && request.body.value.Obj? ==>
              response == Answer(DescriptionOf(request.body.value.fields), model)
    ensures response.code == 200 ==> WellFormed(response.body)
  {
    match request
    case NotJson => Response(400, ErrorBody("Content-Type must be application/json", "Invalid request format"))
    case Sent(body) =>
      if body.None? || body.value.Null? then Response(400, ErrorBody("Invalid JSON in request body", "Could not parse JSON"))
      else if !body.value.Obj? then Response(500, ErrorFallback)
      else Answer(DescriptionOf(body.value.fields), model)
  }

  lemma AnswerWithoutModel(description: string)
    requires Trim(description, IsPySpace) != []
    ensures Answer(Str(description), NoModel) == Response(200, GuessDict(HeuristicPredict(Str(Trim(description, IsPySpace)))))
  {
    var stripped := Trim(description, IsPySpace);
    assert Answer(Str(description), NoModel) == Response(200, PredictWithModel(Str(stripped), NoModel)) by {
      assert |stripped| <= |description|;
    }
    HeuristicWithoutModel(stripped);
  }

  lemma HeuristicWithoutModel(text: string)
    ensures PredictWithModel(Str(text), NoModel) == GuessDict(HeuristicPredict(Str(text)))
  {
  }

  /** Without a model, a body with a usable description is answered by the heuristic on its stripped text. */
  lemma WithoutModelTheHeuristicAnswers(fields: Dict, description: string)
    requires "description" in fields && fields["description"] == Str(description)
    requires Trim(description, IsPySpace) != []
    ensures Predict(Sent(Some(Obj(fields))), NoModel)
            == Response(200, GuessDict(HeuristicPredict(Str(Trim(description, IsPySpace)))))
  {
    assert Predict(Sent(Some(Obj(fields))), NoModel) == Answer(Str(description), NoModel);
    AnswerWithoutModel(description);
  }

  /** A model answering with enumeration labels has them sent as they are, tagged `model`. */
  lemma UsableLabelsAreSent(description: string, predict: string -> Labels)
    requires Trim(description, IsPySpace) != [] && Usable(predict(Trim(description, IsPySpace)))
    ensures var labels := predict(Trim(description, IsPySpace));
            var response := Answer(Str(description), Loaded(predict));
            && response.code == 200
            && response.body["source"] == Str("model")
            && response.body["priority"] == Str(labels.priority)
            && response.body["status"] == Str(labels.status)
  {
    var stripped := Trim(description, IsPySpace);
    assert Answer(Str(description), Loaded(predict)) == Response(200, PredictWithModel(Str(stripped), Loaded(predict))) by {
      assert |stripped| <= |description|;
    }
  }

  /** A dictionary body whose description is absent or falsy is refused as missing, whatever the model. */
  lemma FalsyDescriptionIsMissing(fields: Dict, model: Model)
    requires !PyTruthy(DescriptionOf(fields))
    ensures Predict(Sent(Some(Obj(fields))), model) == Missing
  {
    assert Predict(Sent(Some(Obj(fields))), model) == Answer(DescriptionOf(fields), model);
  }

  /** Falsy non-strings are refused as missing before the type check: `0` and `[]` are "required". */
  lemma FalsyDescriptionsAreMissing()
    ensures Predict(Sent(Some(Obj(map["description" := Num(0.0)]))), NoModel) == Missing
    ensures Predict(Sent(Some(Obj(map["description" := Arr([])]))), NoModel) == Missing
    ensures Predict(Sent(Some(Obj(map[]))), NoModel) == Missing
  {
    var zero, empty, none: Dict := map["description" := Num(0.0)], map["description" := Arr([])], map[];
    assert DescriptionOf(zero) == Num(0.0);
    FalsyDescriptionIsMissing(zero, NoModel);
    assert DescriptionOf(empty) == Arr([]);
    FalsyDescriptionIsMissing(empty, NoModel);
    assert DescriptionOf(none) == Str("");
    FalsyDescriptionIsMissing(none, NoModel);
  }

  /** A JSON list as the body reaches `data.get` and ends in the 500 fallback. */
  lemma ListBodyFails(items: seq<Value>)
    ensures Predict(Sent(Some(Arr(items))), NoModel) == Response(500, ErrorFallback)
  {
  }
}
