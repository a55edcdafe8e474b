/**
 * The backend's classification client: a keyword rule engine used as a
 * fallback, and the decision tree that either asks the remote classifier
 * service or falls back. The remote call is not performed here: its outcome
 * is an input, and the call's request body is part of the result.
 */
module ClassifierClient {
  import opened Wrappers
  import opened Json
  import opened Text
  import opened Domain

  /** One fallback rule: any keyword present selects (priority, status). */
  datatype Rule = Rule(keywords: seq<string>, priority: Priority, status: Status)

  /** The fallback rules, checked top to bottom. */
  const FallbackRules: seq<Rule> := [
    Rule(["urgent", "critical", "outage", "bug", "failure"], High, Progress),
    Rule(["investigate", "implement", "draft", "design", "review"], Medium, Progress),
    Rule(["cleanup", "refactor", "document", "research"], Low, Todo)
  ]

  /**
   * A classification as the backend returns it. Remote values are passed
   * through without checking, so every field is a dynamic value; a confidence
   * field is `None` when it is absent from the result object.
   */
  datatype Classification = Classification(
    priority: Value,
    status: Value,
    source: Value,
    confidence: Option<Value>,
    priorityConfidence: Option<Value>,
    statusConfidence: Option<Value>)

  /** `rule.keywords.some((word) => text.includes(word))`. */
  predicate RuleMatches(rule: Rule, text: string) {
    exists i :: 0 <= i < |rule.keywords| && Contains(text, rule.keywords[i])
  }

  /** The first rule of `rules` that matches `text`, scanning in order. */
  function FirstMatch(rules: seq<Rule>, text: string): (r: Option<nat>)
    ensures r.Some? ==> r.value < |rules| && RuleMatches(rules[r.value], text)
    ensures r.Some? ==> forall j :: 0 <= j < r.value ==> !RuleMatches(rules[j], text)
    ensures r.None? ==> forall j :: 0 <= j < |rules| ==> !RuleMatches(rules[j], text)
  {
    if rules == [] then None
    else if RuleMatches(rules[0], text) then Some(0)
    else
      match FirstMatch(rules[1..], text)
      case None => None
      case Some(k) => Some(k + 1)
  }

  /** The result the fallback produces when no rule matches. */
  const DefaultFallback: Classification :=
    Classification(Str("medium"), Str("todo"), Str("fallback-default"), None, None, None)

  /**
   * `fallbackPredict`: the first rule whose keyword occurs in the lower-cased
   * description decides, tagged `fallback`; with no match the result is
   * medium/todo tagged `fallback-default`.
   */
  function FallbackPredict(description: string): (r: Classification)
    ensures r.source == Str("fallback") <==>
            exists i :: 0 <= i < |FallbackRules| && RuleMatches(FallbackRules[i], Lower(description))
    ensures r.source == Str("fallback") ==>
            exists i :: 0 <= i < |FallbackRules| && RuleMatches(FallbackRules[i], Lower(description))
                        && (forall j :: 0 <= j < i ==> !RuleMatches(FallbackRules[j], Lower(description)))
                        && r.priority == PriorityValue(FallbackRules[i].priority)
                        && r.status == StatusValue(FallbackRules[i].status)
    ensures r.source != Str("fallback") ==> r == DefaultFallback
    ensures IsPriorityValue(r.priority) && IsStatusValue(r.status) && r.status != Str("done")
    ensures r.confidence.None? && r.priorityConfidence.None? && r.statusConfidence.None?
  {
    match FirstMatch(FallbackRules, Lower(description))
    case Some(i) =>
      Classification(PriorityValue(FallbackRules[i].priority), StatusValue(FallbackRules[i].status),
                     Str("fallback"), None, None, None)
    case None => DefaultFallback
  }

  /** What the remote call produced: an error (HTTP error, no response, timeout) or a response body. */
  datatype RemoteOutcome = Failed | Responded(data: Value)

  /** The result of `classify` together with the description sent to the remote service, if any. */
  datatype Call = Call(result: Classification, sent: Option<string>)

  /** A confidence field is copied only when it is not `undefined`. */
  function OptionalField(data: Value, key: string): (r: Option<Value>)
    ensures r.Some? <==> Prop(data, key) != Undefined
    ensures r.Some? ==> r.value == Prop(data, key)
  {
    if Prop(data, key) != Undefined then Some(Prop(data, key)) else None
  }

  /** A truthy field is taken as given; a falsy one is replaced by `default`. */
  function FieldOr(data: Value, key: string, default: Value): (r: Value)
    ensures JsTruthy(Prop(data, key)) ==> r == Prop(data, key)
    ensures !JsTruthy(Prop(data, key)) ==> r == default
  {
    if JsTruthy(Prop(data, key)) then Prop(data, key) else default
  }

  /**
   * Builds the result from an object payload: defaults for falsy fields, no
   * enumeration check. The three tags are therefore always truthy, and a
   * confidence is kept exactly when the payload defines it.
   */
  function FromPayload(data: Value): (c: Classification)
    ensures JsTruthy(c.priority) && JsTruthy(c.status) && JsTruthy(c.source)
    ensures JsTruthy(Prop(data, "priority")) ==> c.priority == Prop(data, "priority")
    ensures !JsTruthy(Prop(data, "priority")) ==> c.priority == Str("medium")
    ensures JsTruthy(Prop(data, "status")) ==> c.status == Prop(data, "status")
    ensures !JsTruthy(Prop(data, "status")) ==> c.status == Str("todo")
    ensures JsTruthy(Prop(data, "source")) ==> c.source == Prop(data, "source")
    ensures !JsTruthy(Prop(data, "source")) ==> c.source == Str("classifier")
    ensures c.confidence.Some? <==> Prop(data, "confidence") != Undefined
    ensures c.priorityConfidence.Some? <==> Prop(data, "priority_confidence") != Undefined
    ensures c.statusConfidence.Some? <==> Prop(data, "status_confidence") != Undefined
  {
    Classification(
      FieldOr(data, "priority", Str("medium")),
      FieldOr(data, "status", Str("todo")),
      FieldOr(data, "source", Str("classifier")),
      OptionalField(data, "confidence"),
      OptionalField(data, "priority_confidence"),
      OptionalField(data, "status_confidence"))
  }

  /**
   * A payload is used when it is truthy and `typeof` says `object`: since
   * `null` is falsy, that is exactly an object or an array.
   */
  predicate UsablePayload(outcome: RemoteOutcome): (r: bool)
    ensures r <==> outcome.Responded? && (outcome.data.Obj? || outcome.data.Arr?)
  {
    outcome.Responded? && JsTruthy(outcome.data) && IsJsObject(outcome.data)
  }

  /** An empty or whitespace-only description (after JavaScript `trim`). */
  predicate Blank(description: string) {
    AllSpace(description, IsJsSpace)
  }

  /**
   * `classify(description, url)`: blank input and a missing URL go to the
   * fallback without a remote call; otherwise the trimmed description is sent,
   * a usable object payload is parsed with defaults, and any failure or other
   * payload falls back.
   */
  function Classify(description: string, url: Option<string>, remote: RemoteOutcome): (c: Call)
    ensures Blank(description) ==> c == Call(DefaultFallback, None)
    ensures !Blank(description) && (url.None? || url.value == []) ==>
              c == Call(FallbackPredict(description), None)
    ensures !Blank(description) && url.Some? && url.value != [] ==>
              c.sent == Some(Trim(description, IsJsSpace)) && c.sent != Some([])
    ensures c.sent.Some? && UsablePayload(remote) ==> c.result == FromPayload(remote.data)
    ensures c.sent.Some? && !UsablePayload(remote) ==> c.result == FallbackPredict(description)
  {
    if description == [] || Trim(description, IsJsSpace) == [] then
      TrimEmptyIffAllSpace(description, IsJsSpace);
      BlankFallsToDefault(description);
      Call(FallbackPredict(description), None)
    else if url.None? || url.value == [] then
      TrimEmptyIffAllSpace(description, IsJsSpace);
      Call(FallbackPredict(description), None)
    else
      TrimEmptyIffAllSpace(description, IsJsSpace);
      var sent := Trim(description, IsJsSpace);
      if UsablePayload(remote) then Call(FromPayload(remote.data), Some(sent))
      else Call(FallbackPredict(description), Some(sent))
  }

  /** Every fallback keyword starts with a lower-case ASCII letter. */
  lemma KeywordsStartWithLetter(i: nat, k: nat)
    requires i < |FallbackRules| && k < |FallbackRules[i].keywords|
    ensures |FallbackRules[i].keywords[k]| > 0 && 'a' <= FallbackRules[i].keywords[k][0] <= 'z'
  {
  }

  /** A text with no lower-case ASCII letter matches no fallback rule. */
  lemma NoLetterMatchesNoRule(text: string)
    requires forall j :: 0 <= j < |text| ==> !('a' <= text[j] <= 'z')
    ensures forall i :: 0 <= i < |FallbackRules| ==> !RuleMatches(FallbackRules[i], text)
  {
    forall i, k | 0 <= i < |FallbackRules| && 0 <= k < |FallbackRules[i].keywords|
      ensures !Contains(text, FallbackRules[i].keywords[k])
    {
      KeywordsStartWithLetter(i, k);
      NotContainedWhenFirstCharMissing(text, FallbackRules[i].keywords[k]);
    }
  }

  /** The fallback gives its default exactly when no rule matches. */
  lemma NoMatchGivesDefault(description: string)
    requires FirstMatch(FallbackRules, Lower(description)).None?
    ensures FallbackPredict(description) == DefaultFallback
  {
  }

  /** A blank description (empty, or whitespace only) matches no rule, so the fallback gives its default. */
  lemma BlankFallsToDefault(description: string)
    requires Blank(description)
    ensures FallbackPredict(description) == DefaultFallback
  {
    var text := Lower(description);
    LowerKeepsSpace(description, IsJsSpace);
    assert forall j :: 0 <= j < |text| ==> !('a' <= text[j] <= 'z');
    NoLetterMatchesNoRule(text);
    NoMatchGivesDefault(description);
  }

  /** The JSON object a classification is sent as: the three tags, plus each confidence that is present. */
  function ResultJson(c: Classification): Value {
    var tags := map["priority" := c.priority, "status" := c.status, "source" := c.source];
    Obj(WithOptional(WithOptional(WithOptional(tags, "confidence", c.confidence),
                                  "priority_confidence", c.priorityConfidence),
                     "status_confidence", c.statusConfidence))
  }

  /** `fields` with `key` set when the optional value is present. */
  function WithOptional(fields: map<string, Value>, key: string, o: Option<Value>): (r: map<string, Value>)
    ensures key in r <==> key in fields || o.Some?
    ensures o.Some? ==> r[key] == o.value
    ensures o.None? && key in fields ==> r[key] == fields[key]
    ensures forall k :: k != key ==> (k in r <==> k in fields)
    ensures forall k :: k != key && k in fields ==> r[k] == fields[k]
  {
    if o.Some? then fields[key := o.value] else fields
  }

  /** A result with truthy tags and defined confidences passes through the payload parser unchanged. */
  lemma PayloadRoundTrip(c: Classification)
    requires JsTruthy(c.priority) && JsTruthy(c.status) && JsTruthy(c.source)
    requires c.confidence.Some? ==> c.confidence.value != Undefined
    requires c.priorityConfidence.Some? ==> c.priorityConfidence.value != Undefined
    requires c.statusConfidence.Some? ==> c.statusConfidence.value != Undefined
    ensures UsablePayload(Responded(ResultJson(c)))
    ensures FromPayload(ResultJson(c)) == c
  {
    var data := ResultJson(c);
    assert Prop(data, "priority") == c.priority;
    assert Prop(data, "status") == c.status;
    assert Prop(data, "source") == c.source;
    assert OptionalField(data, "confidence") == c.confidence;
    assert OptionalField(data, "priority_confidence") == c.priorityConfidence;
    assert OptionalField(data, "status_confidence") == c.statusConfidence;
  }

  /** Every fallback result is itself a well-formed payload, so parsing it gives it back. */
  lemma FallbackIsWellFormedPayload(description: string)
    ensures FromPayload(ResultJson(FallbackPredict(description))) == FallbackPredict(description)
  {
    PayloadRoundTrip(FallbackPredict(description));
  }

  /** A JSON array is `typeof 'object'`, so it is parsed as an object with every field missing. */
  lemma ArrayPayloadGivesDefaults(description: string, url: string, items: seq<Value>)
    requires !Blank(description) && url != []
    ensures Classify(description, Some(url), Responded(Arr(items))).result
            == Classification(Str("medium"), Str("todo"), Str("classifier"), None, None, None)
  {
    SentPayloadIsParsed(description, url, Responded(Arr(items)));
    NonObjectPayloadGivesDefaults(Arr(items));
  }

  /** With a URL and a non-blank description, a usable payload is what the result is parsed from. */
  lemma SentPayloadIsParsed(description: string, url: string, remote: RemoteOutcome)
    requires !Blank(description) && url != [] && UsablePayload(remote)
    ensures Classify(description, Some(url), remote).result == FromPayload(remote.data)
  {
    var c := Classify(description, Some(url), remote);
    assert c.sent.Some?;
  }

  /** A payload that is not an object has every field missing, so every field takes its default. */
  lemma NonObjectPayloadGivesDefaults(data: Value)
    requires !data.Obj?
    ensures FromPayload(data) == Classification(Str("medium"), Str("todo"), Str("classifier"), None, None, None)
  {
  }

  /** "urgent cleanup" matches the first and the third rule; the first wins. */
  lemma UrgentCleanupIsHighProgress()
    ensures FallbackPredict("urgent cleanup")
            == Classification(Str("high"), Str("progress"), Str("fallback"), None, None, None)
  {
    var text := Lower("urgent cleanup");
    assert text == "urgent cleanup";
    ContainsAt(text, "urgent", 0);
    assert FallbackRules[0].keywords[0] == "urgent";
    assert RuleMatches(FallbackRules[0], text);
  }

  /** With no classifier URL, "This is urgent and critical" is classified high/progress by the fallback. */
  lemma UrgentAndCriticalWithoutUrl()
    ensures Classify("This is urgent and critical", Some(""), Failed)
            == Call(Classification(Str("high"), Str("progress"), Str("fallback"), None, None, None), None)
  {
    var d := "This is urgent and critical";
    assert !Blank(d) by {
      assert !IsJsSpace(d[0]);
    }
    assert Classify(d, Some(""), Failed) == Call(FallbackPredict(d), None);
    UrgentAndCriticalIsHighProgress();
  }

  lemma UrgentAndCriticalIsHighProgress()
    ensures FallbackPredict("This is urgent and critical")
            == Classification(Str("high"), Str("progress"), Str("fallback"), None, None, None)
  {
    var d := "This is urgent and critical";
    var text := Lower(d);
    assert d[8..14] == "urgent";
    FoundAfterLowering(d, "urgent", 8);
    assert FallbackRules[0].keywords[0] == "urgent";
    assert RuleMatches(FallbackRules[0], text);
  }

  /** Letters of which every fallback keyword holds at least one. */
  const MarkerLetters: set<char> := {'b', 'c', 'd', 'f', 'g', 'i', 'r'}

  lemma KeywordsHoldMarkerLetter(i: nat, k: nat)
    requires i < |FallbackRules| && k < |FallbackRules[i].keywords|
    ensures exists j :: 0 <= j < |FallbackRules[i].keywords[k]| && FallbackRules[i].keywords[k][j] in MarkerLetters
  {
    var kw := FallbackRules[i].keywords[k];
    assert 'r' in kw || 'g' in kw || 'b' in kw || 'f' in kw || 'i' in kw || 'd' in kw || 'c' in kw;
  }

  /** A text without any of the marker letters matches no fallback rule. */
  lemma NoMarkerLetterMatchesNoRule(text: string)
    requires forall c :: c in MarkerLetters ==> c !in text
    ensures forall i :: 0 <= i < |FallbackRules| ==> !RuleMatches(FallbackRules[i], text)
  {
    forall i, k | 0 <= i < |FallbackRules| && 0 <= k < |FallbackRules[i].keywords|
      ensures !Contains(text, FallbackRules[i].keywords[k])
    {
      KeywordsHoldMarkerLetter(i, k);
      var kw := FallbackRules[i].keywords[k];
      var j :| 0 <= j < |kw| && kw[j] in MarkerLetters;
      NotContainedWhenCharMissing(text, kw, j);
    }
  }

  /** A description with no keyword gets the fallback default. */
  lemma NoteGetsDefault()
    ensures FallbackPredict("Just a note") == DefaultFallback
  {
    var text := Lower("Just a note");
    assert text == "just a note";
    NoMarkerLetterMatchesNoRule(text);
    NoMatchGivesDefault("Just a note");
  }
}
