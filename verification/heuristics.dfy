/**
 * The classifier service's weighted keyword heuristic. Scores are kept in
 * hundredths, so a weight of 0.9 is 90 and the keyword bonus 0.3 is 30; the
 * priority and status with the highest score win, ties going to the earlier
 * entry of the score table.
 */
module Heuristics {
  import opened Json
  import opened Text
  import opened Seqs
  import opened Domain

  /** A weighted rule: each of its keywords found adds `weight` to both its priority and its status. */
  datatype WeightedRule = WeightedRule(keywords: seq<string>, priority: Priority, status: Status, weight: nat)

  // The keyword lists of the weighted rules, one constant per rule.
  const EmergencyWords: seq<string> := ["crash", "outage", "urgent", "critical", "emergency", "asap", "immediate", "security vulnerability"]
  const CriticalFixWords: seq<string> := ["critical bug", "critical issue", "critical fix", "urgent fix", "emergency fix"]
  const PaymentWords: seq<string> := ["payment bug", "payment fail", "checkout bug", "authentication bug"]
  const BuildWords: seq<string> := ["implement", "develop", "building", "creating", "working on", "developing"]
  const DesignWords: seq<string> := ["design", "draft", "spec", "review", "testing", "test", "qa", "verify"]
  const ImproveWords: seq<string> := ["refactor", "update", "improve", "optimize", "investigate"]
  const PlanWords: seq<string> := ["plan", "planning", "review", "update documentation"]
  const ExploreWords: seq<string> := ["idea", "research", "explore", "exploring", "later", "someday", "future"]
  const CleanupWords: seq<string> := ["cleanup", "clean up", "organize", "organizing"]
  const DocsWords: seq<string> := ["docs", "document", "documentation", "write notes", "release notes"]
  const DoneWords: seq<string> := ["done", "completed", "finished", "resolved", "closed", "fixed"]
  const CompletedWorkWords: seq<string> := ["completed", "finished implementing", "resolved issue"]
  const CompletedStudyWords: seq<string> := ["completed research", "finished documentation"]

  /** The weighted rules, in the order they are applied. */
  const Rules: seq<WeightedRule> := [
    WeightedRule(EmergencyWords, High, Progress, 90),
    WeightedRule(CriticalFixWords, High, Progress, 95),
    WeightedRule(PaymentWords, High, Todo, 85),
    WeightedRule(BuildWords, Medium, Progress, 80),
    WeightedRule(DesignWords, Medium, Progress, 75),
    WeightedRule(ImproveWords, Medium, Progress, 70),
    WeightedRule(PlanWords, Medium, Todo, 70),
    WeightedRule(ExploreWords, Low, Todo, 70),
    WeightedRule(CleanupWords, Low, Todo, 65),
    WeightedRule(DocsWords, Low, Todo, 60),
    WeightedRule(DoneWords, Medium, Done, 90),
    WeightedRule(CompletedWorkWords, High, Done, 85),
    WeightedRule(CompletedStudyWords, Low, Done, 80)
  ]

  const CompletionKeywords: seq<string> := ["done", "completed", "finished", "resolved", "closed", "fixed"]

  /** Status-specific keyword lists, in the dictionary's insertion order. */
  const StatusKeywords: seq<(Status, seq<string>)> := [
    (Progress, ["working on", "implementing", "developing", "building", "testing", "reviewing", "fixing"]),
    (Done, ["done", "completed", "finished", "resolved", "closed", "fixed", "deployed"]),
    (Todo, ["plan", "planning", "need to", "should", "will", "todo", "task"])
  ]

  /** Priority-specific keyword lists, in the dictionary's insertion order. */
  const PriorityKeywords: seq<(Priority, seq<string>)> := [
    (High, ["urgent", "critical", "emergency", "asap", "immediate", "important", "bug", "error", "fail", "crash", "outage"]),
    (Medium, ["implement", "develop", "design", "update", "improve", "review"]),
    (Low, ["research", "explore", "idea", "plan", "cleanup", "documentation", "later"])
  ]

  const CompletionBonus: nat := 90
  const KeywordBonus: nat := 30

  /** How many entries of a keyword list occur in the text (each entry counts once). */
  function Hits(text: string, keywords: seq<string>): nat {
    Count(keywords, (k: string) => Contains(text, k))
  }

  /** The score tables: priorities in the order high, medium, low and statuses in the order todo, progress, done. */
  datatype Scores = Scores(high: nat, medium: nat, low: nat, todo: nat, progress: nat, done: nat) {

    function OfPriority(p: Priority): nat {
      match p
      case High => high
      case Medium => medium
      case Low => low
    }

    function OfStatus(s: Status): nat {
      match s
      case Todo => todo
      case Progress => progress
      case Done => done
    }

    function AddPriority(p: Priority, n: nat): (r: Scores)
      ensures r.OfPriority(p) == OfPriority(p) + n
      ensures forall q :: q != p ==> r.OfPriority(q) == OfPriority(q)
      ensures forall s :: r.OfStatus(s) == OfStatus(s)
    {
      match p
      case High => this.(high := high + n)
      case Medium => this.(medium := medium + n)
      case Low => this.(low := low + n)
    }

    function AddStatus(s: Status, n: nat): (r: Scores)
      ensures r.OfStatus(s) == OfStatus(s) + n
      ensures forall t :: t != s ==> r.OfStatus(t) == OfStatus(t)
      ensures forall p :: r.OfPriority(p) == OfPriority(p)
    {
      match s
      case Todo => this.(todo := todo + n)
      case Progress => this.(progress := progress + n)
      case Done => this.(done := done + n)
    }

    function PriorityTotal(): nat { high + medium + low }

    function StatusTotal(): nat { todo + progress + done }
  }

  const Zero := Scores(0, 0, 0, 0, 0, 0)

  /** The weighted-rule loop: each rule with `m > 0` hits adds `weight * m` to its priority and to its status. */
  function ApplyRules(rules: seq<WeightedRule>, text: string, acc: Scores): Scores
    decreases |rules|
  {
    if rules == [] then acc
    else
      var m := Hits(text, rules[0].keywords);
      var next := if m > 0 then acc.AddPriority(rules[0].priority, rules[0].weight * m)
                                   .AddStatus(rules[0].status, rules[0].weight * m)
                  else acc;
      ApplyRules(rules[1..], text, next)
  }

  /** The status-keyword loop: each list with `m > 0` hits adds `0.3 * m` to its status. */
  function ApplyStatusKeywords(lists: seq<(Status, seq<string>)>, text: string, acc: Scores): Scores
    decreases |lists|
  {
    if lists == [] then acc
    else
      var m := Hits(text, lists[0].1);
      ApplyStatusKeywords(lists[1..], text, if m > 0 then acc.AddStatus(lists[0].0, KeywordBonus * m) else acc)
  }

  /** The priority-keyword loop: each list with `m > 0` hits adds `0.3 * m` to its priority. */
  function ApplyPriorityKeywords(lists: seq<(Priority, seq<string>)>, text: string, acc: Scores): Scores
    decreases |lists|
  {
    if lists == [] then acc
    else
      var m := Hits(text, lists[0].1);
      ApplyPriorityKeywords(lists[1..], text, if m > 0 then acc.AddPriority(lists[0].0, KeywordBonus * m) else acc)
  }

  /** The four keyword tables the scoring reads. */
  datatype Tables = Tables(completion: seq<string>, rules: seq<WeightedRule>,
                           statusLists: seq<(Status, seq<string>)>, priorityLists: seq<(Priority, seq<string>)>)

  /** The tables the service ships with. */
  const Service := Tables(CompletionKeywords, Rules, StatusKeywords, PriorityKeywords)

  /**
   * All scores for a prepared text under some tables: completion bonus,
   * weighted rules, then the two keyword tables. Every priority's score is
   * weight times hits for each rule naming it plus the keyword bonus times
   * hits for its own list; every status's score is the same plus the
   * completion bonus, which only `done` receives.
   */
  function ScoreWith(tables: Tables, text: string): (r: Scores)
    ensures forall p :: r.OfPriority(p)
                        == RulePriorityPoints(tables.rules, text, p) + ListPoints(tables.priorityLists, text, p)
    ensures forall s :: r.OfStatus(s)
                        == CompletionPoints(tables.completion, text, s) + RuleStatusPoints(tables.rules, text, s)
                           + ListPoints(tables.statusLists, text, s)
  {
    var start := if Hits(text, tables.completion) > 0 then Zero.AddStatus(Done, CompletionBonus) else Zero;
    var afterRules := ApplyRules(tables.rules, text, start);
    var afterStatus := ApplyStatusKeywords(tables.statusLists, text, afterRules);
    ApplyRulesAdds(tables.rules, text, start);
    ApplyStatusKeywordsAdds(tables.statusLists, text, afterRules);
    ApplyPriorityKeywordsAdds(tables.priorityLists, text, afterStatus);
    ApplyPriorityKeywords(tables.priorityLists, text, afterStatus)
  }

  function PriorityRank(p: Priority): nat {
    match p
    case High => 0
    case Medium => 1
    case Low => 2
  }

  function StatusRank(s: Status): nat {
    match s
    case Todo => 0
    case Progress => 1
    case Done => 2
  }

  /** `p` has the highest priority score, and every entry before it in the table scores strictly less. */
  predicate IsFirstBestPriority(sc: Scores, p: Priority) {
    (forall q :: sc.OfPriority(q) <= sc.OfPriority(p))
    && (forall q :: PriorityRank(q) < PriorityRank(p) ==> sc.OfPriority(q) < sc.OfPriority(p))
  }

  /** `s` has the highest status score, and every entry before it in the table scores strictly less. */
  predicate IsFirstBestStatus(sc: Scores, s: Status) {
    (forall t :: sc.OfStatus(t) <= sc.OfStatus(s))
    && (forall t :: StatusRank(t) < StatusRank(s) ==> sc.OfStatus(t) < sc.OfStatus(s))
  }

  /** `max(priority_scores, key=priority_scores.get)`: scan in table order, replacing only on a strictly larger score. */
  function BestPriority(sc: Scores): (p: Priority)
    ensures IsFirstBestPriority(sc, p)
  {
    var b1 := High;
    var b2 := if sc.medium > sc.OfPriority(b1) then Medium else b1;
    if sc.low > sc.OfPriority(b2) then Low else b2
  }

  /** `max(status_scores, key=status_scores.get)`. */
  function BestStatus(sc: Scores): (s: Status)
    ensures IsFirstBestStatus(sc, s)
  {
    var b1 := Todo;
    var b2 := if sc.progress > sc.OfStatus(b1) then Progress else b1;
    if sc.done > sc.OfStatus(b2) then Done else b2
  }

  /** The heuristic's answer. The confidence is computed in exact rationals. */
  datatype Guess = Guess(priority: Priority, status: Status, source: string, confidence: real)

  /**
   * The text the heuristic matches against: lower-cased, then stripped. It
   * holds no upper-case ASCII letter, and it is empty exactly when the
   * description is whitespace only.
   */
  function Prepare(description: string): (r: string)
    ensures |r| <= |description|
    ensures forall i :: 0 <= i < |r| ==> !('A' <= r[i] <= 'Z')
    ensures r == [] <==> AllSpace(description, IsPySpace)
    ensures r == [] || (!IsPySpace(r[0]) && !IsPySpace(r[|r| - 1]))
    ensures TrimmedSlice(r, Lower(description), IsPySpace)
  {
    PreparedHasNoUpper(description);
    PreparedEmptyIffSpace(description);
    Trim(Lower(description), IsPySpace)
  }

  lemma PreparedHasNoUpper(description: string)
    ensures forall i :: 0 <= i < |Trim(Lower(description), IsPySpace)| ==> !('A' <= Trim(Lower(description), IsPySpace)[i] <= 'Z')
  {
    TrimKeeps(Lower(description), IsPySpace, c => !('A' <= c <= 'Z'));
  }

  lemma PreparedEmptyIffSpace(description: string)
    ensures Trim(Lower(description), IsPySpace) == [] <==> AllSpace(description, IsPySpace)
  {
    LowerSpaceIff(description, IsPySpace);
    TrimEmptyIffAllSpace(Lower(description), IsPySpace);
  }


  function Min(a: real, b: real): real { if a <= b then a else b }

  function Max(a: real, b: real): real { if a >= b then a else b }

  /** A share of the total score capped at 0.95, or 0.5 when nothing scored. */
  function Share(score: nat, total: nat): (r: real)
    requires score <= total
    ensures 0.0 <= r <= 0.95
    ensures total == 0 ==> r == 0.5
  {
    if total == 0 then 0.5
    else
      var denominator := if total >= 100 then total else 100;
      Min(score as real / denominator as real, 0.95)
  }

  /**
   * The decision on a score table: the first highest-scoring priority and
   * status, medium and todo when nothing scored, and a confidence averaging
   * the two winners' shares, never below 0.5.
   */
  function Decide(sc: Scores): (g: Guess)
    ensures g.source == "heuristic"
    ensures sc.PriorityTotal() == 0 ==> g.priority == Medium
    ensures sc.PriorityTotal() > 0 ==> IsFirstBestPriority(sc, g.priority)
    ensures sc.StatusTotal() == 0 ==> g.status == Todo
    ensures sc.StatusTotal() > 0 ==> IsFirstBestStatus(sc, g.status)
    ensures 0.5 <= g.confidence <= 0.95
    ensures sc.PriorityTotal() == 0 && sc.StatusTotal() == 0 ==> g.confidence == 0.5
  {
    var priority := if sc.PriorityTotal() == 0 then Medium else BestPriority(sc);
    var status := if sc.StatusTotal() == 0 then Todo else BestStatus(sc);
    var pc := Share(sc.OfPriority(priority), sc.PriorityTotal());
    var stc := Share(sc.OfStatus(status), sc.StatusTotal());
    Guess(priority, status, "heuristic", Max((pc + stc) / 2.0, 0.5))
  }

  /**
   * `heuristic_predict`: a non-string or empty input gets medium/todo tagged
   * `heuristic-default`; any other string is scored on its prepared text and
   * decided, tagged `heuristic`.
   */
  function HeuristicPredict(description: Value): (g: Guess)
    ensures !(description.Str? && description.s != []) ==> g == Guess(Medium, Todo, "heuristic-default", 0.5)
    ensures description.Str? && description.s != [] ==> g == Decide(ScoreWith(Service, Prepare(description.s)))
    ensures g.source == "heuristic-default" || g.source == "heuristic"
    ensures 0.5 <= g.confidence <= 0.95
  {
    if description.Str? && description.s != [] then Decide(ScoreWith(Service, Prepare(description.s)))
    else Guess(Medium, Todo, "heuristic-default", 0.5)
  }

  // Reference sums: what each table contributes to one priority or status,
  // written as plain sums over the table instead of a fold over a score
  // record.

  /** Weight times hits, summed over the rules that name priority `p`. */
  function RulePriorityPoints(rules: seq<WeightedRule>, text: string, p: Priority): nat
    decreases |rules|
  {
    if rules == [] then 0
    else (if rules[0].priority == p then rules[0].weight * Hits(text, rules[0].keywords) else 0)
         + RulePriorityPoints(rules[1..], text, p)
  }

  /** Weight times hits, summed over the rules that name status `s`. */
  function RuleStatusPoints(rules: seq<WeightedRule>, text: string, s: Status): nat
    decreases |rules|
  {
    if rules == [] then 0
    else (if rules[0].status == s then rules[0].weight * Hits(text, rules[0].keywords) else 0)
         + RuleStatusPoints(rules[1..], text, s)
  }

  /** The keyword bonus times hits, summed over the lists filed under `key`. */
  function ListPoints<K(==)>(lists: seq<(K, seq<string>)>, text: string, key: K): nat
    decreases |lists|
  {
    if lists == [] then 0
    else (if lists[0].0 == key then KeywordBonus * Hits(text, lists[0].1) else 0)
         + ListPoints(lists[1..], text, key)
  }

  /** The completion bonus, which only `done` receives. */
  function CompletionPoints(completion: seq<string>, text: string, s: Status): nat {
    if s == Done && Hits(text, completion) > 0 then CompletionBonus else 0
  }

  lemma {:induction false} ApplyRulesAdds(rules: seq<WeightedRule>, text: string, acc: Scores)
    ensures forall p :: ApplyRules(rules, text, acc).OfPriority(p) == acc.OfPriority(p) + RulePriorityPoints(rules, text, p)
    ensures forall s :: ApplyRules(rules, text, acc).OfStatus(s) == acc.OfStatus(s) + RuleStatusPoints(rules, text, s)
    decreases |rules|
  {
    if rules != [] {
      var m := Hits(text, rules[0].keywords);
      var next := if m > 0 then acc.AddPriority(rules[0].priority, rules[0].weight * m)
                                   .AddStatus(rules[0].status, rules[0].weight * m)
                  else acc;
      ApplyRulesAdds(rules[1..], text, next);
    }
  }

  lemma {:induction false} ApplyStatusKeywordsAdds(lists: seq<(Status, seq<string>)>, text: string, acc: Scores)
    ensures forall p :: ApplyStatusKeywords(lists, text, acc).OfPriority(p) == acc.OfPriority(p)
    ensures forall s :: ApplyStatusKeywords(lists, text, acc).OfStatus(s) == acc.OfStatus(s) + ListPoints(lists, text, s)
    decreases |lists|
  {
    if lists != [] {
      var m := Hits(text, lists[0].1);
      ApplyStatusKeywordsAdds(lists[1..], text, if m > 0 then acc.AddStatus(lists[0].0, KeywordBonus * m) else acc);
    }
  }

  lemma {:induction false} ApplyPriorityKeywordsAdds(lists: seq<(Priority, seq<string>)>, text: string, acc: Scores)
    ensures forall p :: ApplyPriorityKeywords(lists, text, acc).OfPriority(p) == acc.OfPriority(p) + ListPoints(lists, text, p)
    ensures forall s :: ApplyPriorityKeywords(lists, text, acc).OfStatus(s) == acc.OfStatus(s)
    decreases |lists|
  {
    if lists != [] {
      var m := Hits(text, lists[0].1);
      ApplyPriorityKeywordsAdds(lists[1..], text, if m > 0 then acc.AddPriority(lists[0].0, KeywordBonus * m) else acc);
    }
  }

  /** No keyword of any table occurs in the text. */
  predicate Silent(tables: Tables, text: string) {
    && Hits(text, tables.completion) == 0
    && (forall i :: 0 <= i < |tables.rules| ==> Hits(text, tables.rules[i].keywords) == 0)
    && (forall i :: 0 <= i < |tables.statusLists| ==> Hits(text, tables.statusLists[i].1) == 0)
    && (forall i :: 0 <= i < |tables.priorityLists| ==> Hits(text, tables.priorityLists[i].1) == 0)
  }

  lemma {:induction false} QuietRulesAddNothing(rules: seq<WeightedRule>, text: string, acc: Scores)
    requires forall i :: 0 <= i < |rules| ==> Hits(text, rules[i].keywords) == 0
    ensures ApplyRules(rules, text, acc) == acc
    decreases |rules|
  {
    if rules != [] {
      assert Hits(text, rules[0].keywords) == 0;
      QuietRulesAddNothing(rules[1..], text, acc);
    }
  }

  lemma {:induction false} QuietStatusListsAddNothing(lists: seq<(Status, seq<string>)>, text: string, acc: Scores)
    requires forall i :: 0 <= i < |lists| ==> Hits(text, lists[i].1) == 0
    ensures ApplyStatusKeywords(lists, text, acc) == acc
    decreases |lists|
  {
    if lists != [] {
      assert Hits(text, lists[0].1) == 0;
      QuietStatusListsAddNothing(lists[1..], text, acc);
    }
  }

  lemma {:induction false} QuietPriorityListsAddNothing(lists: seq<(Priority, seq<string>)>, text: string, acc: Scores)
    requires forall i :: 0 <= i < |lists| ==> Hits(text, lists[i].1) == 0
    ensures ApplyPriorityKeywords(lists, text, acc) == acc
    decreases |lists|
  {
    if lists != [] {
      assert Hits(text, lists[0].1) == 0;
      QuietPriorityListsAddNothing(lists[1..], text, acc);
    }
  }

  /** A text in which no keyword occurs scores zero everywhere. */
  lemma SilentScoresZero(tables: Tables, text: string)
    requires Silent(tables, text)
    ensures ScoreWith(tables, text) == Zero
  {
    QuietRulesAddNothing(tables.rules, text, Zero);
    QuietStatusListsAddNothing(tables.statusLists, text, Zero);
    QuietPriorityListsAddNothing(tables.priorityLists, text, Zero);
  }

  /** When no keyword matches anywhere, the heuristic answers medium and todo with confidence 0.5. */
  lemma SilentGivesMediumTodo(description: string)
    requires description != [] && Silent(Service, Prepare(description))
    ensures HeuristicPredict(Str(description)) == Guess(Medium, Todo, "heuristic", 0.5)
  {
    SilentDecidesMediumTodo(Service, Prepare(description));
  }

  lemma SilentDecidesMediumTodo(tables: Tables, text: string)
    requires Silent(tables, text)
    ensures Decide(ScoreWith(tables, text)) == Guess(Medium, Todo, "heuristic", 0.5)
  {
    SilentTotalsZero(tables, text);
    DecideOnZero(ScoreWith(tables, text));
  }

  lemma SilentTotalsZero(tables: Tables, text: string)
    requires Silent(tables, text)
    ensures ScoreWith(tables, text).PriorityTotal() == 0 && ScoreWith(tables, text).StatusTotal() == 0
  {
    SilentScoresZero(tables, text);
  }

  /** Nothing scored: medium, todo, confidence 0.5. */
  lemma DecideOnZero(sc: Scores)
    requires sc.PriorityTotal() == 0 && sc.StatusTotal() == 0
    ensures Decide(sc) == Guess(Medium, Todo, "heuristic", 0.5)
  {
  }

  /** No keyword list holds the empty string, so nothing occurs in the empty text. */
  lemma {:induction false} NoHitsInEmptyText(keywords: seq<string>)
    requires forall i :: 0 <= i < |keywords| ==> keywords[i] != []
    ensures Hits([], keywords) == 0
  {
    FilterNone(keywords, (k: string) => Contains([], k));
  }

  /** No entry of any table is the empty string. */
  predicate NoEmptyKeyword(tables: Tables) {
    && (forall j :: 0 <= j < |tables.completion| ==> tables.completion[j] != [])
    && (forall i, j :: 0 <= i < |tables.rules| && 0 <= j < |tables.rules[i].keywords| ==> tables.rules[i].keywords[j] != [])
    && (forall i, j :: 0 <= i < |tables.statusLists| && 0 <= j < |tables.statusLists[i].1| ==> tables.statusLists[i].1[j] != [])
    && (forall i, j :: 0 <= i < |tables.priorityLists| && 0 <= j < |tables.priorityLists[i].1| ==> tables.priorityLists[i].1[j] != [])
  }

  lemma ServiceHasNoEmptyKeyword()
    ensures NoEmptyKeyword(Service)
  {
    forall i | 0 <= i < |Rules|
      ensures forall j :: 0 <= j < |Rules[i].keywords| ==> Rules[i].keywords[j] != []
    {
      RuleHasNoEmptyKeyword(i);
    }
  }

  lemma RuleHasNoEmptyKeyword(i: nat)
    requires i < |Rules|
    ensures forall j :: 0 <= j < |Rules[i].keywords| ==> Rules[i].keywords[j] != []
  {
  }

  /** Tables without an empty entry find nothing in the empty text. */
  lemma EmptyTextIsSilent(tables: Tables)
    requires NoEmptyKeyword(tables)
    ensures Silent(tables, [])
  {
    NoHitsInEmptyText(tables.completion);
    forall i | 0 <= i < |tables.rules|
      ensures Hits([], tables.rules[i].keywords) == 0
    {
      NoHitsInEmptyText(tables.rules[i].keywords);
    }
    forall i | 0 <= i < |tables.statusLists|
      ensures Hits([], tables.statusLists[i].1) == 0
    {
      NoHitsInEmptyText(tables.statusLists[i].1);
    }
    forall i | 0 <= i < |tables.priorityLists|
      ensures Hits([], tables.priorityLists[i].1) == 0
    {
      NoHitsInEmptyText(tables.priorityLists[i].1);
    }
  }

  /**
   * A non-empty whitespace-only string is not the empty-input case: it is
   * stripped to nothing, scores zero, and is answered medium/todo tagged
   * `heuristic` with confidence 0.5.
   */
  lemma WhitespaceOnlyIsHeuristic(description: string)
    requires description != [] && AllSpace(description, IsPySpace)
    ensures HeuristicPredict(Str(description)) == Guess(Medium, Todo, "heuristic", 0.5)
  {
    LowerKeepsSpace(description, IsPySpace);
    TrimEmptyIffAllSpace(Lower(description), IsPySpace);
    ServiceHasNoEmptyKeyword();
    EmptyTextIsSilent(Service);
    SilentGivesMediumTodo(description);
  }
}
