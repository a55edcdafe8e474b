# Task manager core, modelled in Dafny

The system is a small task manager with three parts:

- a Node/Express backend that validates task bodies, keeps tasks in an in-memory store and asks a classifier service for a suggested priority and status;
- a Python/Flask classifier service that scores a description with weighted keyword rules, or with a trained model when one is loaded;
- a React front end that groups tasks into a board, greets the user, and draws analytics.

This project models the pure logic of all three as functions over immutable data. The logic modelled is:

- the backend's keyword fallback and `classify` decision tree;
- the in-memory store;
- the Joi request schemas;
- the controller's status-code mapping;
- the service's `heuristic_predict`, `predict_with_model` and `/predict` checks;
- the front end's weight-and-group board, cache updates, greeting, analytics filters and per-day chart buckets.

Dynamic values from both languages are one JSON-like type, `Json.Value`. JavaScript and Python truthiness are separate predicates over it. Everything that is not pure becomes a parameter:

- the clock, in four forms: instants, today's midnight, the cut-offs, and the hour;
- the random task id;
- the remote classifier's outcome;
- the ML model's labels and confidences;
- the session email;
- the browser's day-label formatter and parser.

Modules follow the source files:

| module | file | models |
|---|---|---|
| `Wrappers` | `wrappers.dfy` | `Option` and `Result` |
| `Text` | `text.dfy` | trimming, ASCII case mapping, substring search, joining, splitting at a separator |
| `Seqs` | `seqs.dfy` | filter and count, plus the stable sort by a small key |
| `Json` | `json.dfy` | the value type and truthiness |
| `Domain` | `domain.dfy` | the priority and status enumerations, the task record, and the per-value tally |
| `ClassifierClient` | `classifier_client.dfy` | `backend/src/services/classifierClient.js` |
| `MemoryStore` | `memory_store.dfy` | `backend/src/services/memoryTaskStore.js` |
| `Validators` | `validators.dfy` | `backend/src/utils/validators.js` |
| `TaskController` | `task_controller.dfy` | `backend/src/controllers/taskController.js` |
| `Heuristics` | `heuristics.dfy` | `classifier/heuristics.py` |
| `ClassifierApp` | `classifier_app.dfy` | `classifier/app.py` |
| `UseTasks` | `use_tasks.dfy` | `frontend/hooks/useTasks.js` |
| `Dashboard` | `dashboard.dfy` | `frontend/pages/dashboard.js` |
| `AnalyticsPage` | `analytics_page.dfy` | `frontend/pages/analytics.js` |
| `TasksOverTime` | `tasks_over_time.dfy` | `frontend/components/analytics/TasksOverTimeChart.js` |

Heuristic weights are whole hundredths: 0.9 becomes 90 and 0.3 becomes 30, so argmax and ties are exact integer comparisons. Confidences are exact reals.

## Model

| member | source | states |
|---|---|---|
| Text.Trim | backend/src/services/classifierClient.js:32 | The result is a contiguous piece of the input with only whitespace before and after it, and neither starts nor ends with whitespace |
| Text.TrimEmptyIffAllSpace | classifier/app.py:158 | A string trims to nothing exactly when every character is whitespace |
| Text.TrimKeeps | classifier/heuristics.py:63 | Every character left after trimming has any property all input characters have |
| Text.Lower | backend/src/services/classifierClient.js:22 | Lower-casing keeps the length and maps each character by the ASCII case map |
| Text.LowerSpaceIff | classifier/heuristics.py:63 | Lower-casing neither makes nor unmakes a whitespace-only string |
| Text.Contains | backend/src/services/classifierClient.js:24 | The empty pattern is always found, and a found pattern is no longer than the text |
| Text.ContainsAt | backend/src/services/classifierClient.js:24 | A pattern written at some position of the text is found |
| Text.ContainsWhere | backend/src/services/classifierClient.js:24 | A found pattern is written at some position of the text |
| Text.JoinHasPart | backend/src/controllers/taskController.js:18 | Every part occurs in the joined string |
| Text.JoinSnoc | backend/src/controllers/taskController.js:18 | Joining one more part appends the separator and then that part to the earlier join |
| ClassifierClient.FirstMatch | backend/src/services/classifierClient.js:23-27 | The index returned is of a rule with a keyword contained in the text, and no earlier rule matches; `None` only when no rule matches |
| ClassifierClient.FallbackPredict | backend/src/services/classifierClient.js:3-29 | Tagged "fallback" exactly when some rule matches the lower-cased text, and then it carries the first matching rule's priority and status; otherwise it is medium/todo/"fallback-default"; the priority is always an enumeration value and the status is never done |
| ClassifierClient.OptionalField | backend/src/services/classifierClient.js:62-70 | A confidence field is copied exactly when the payload's property is not undefined |
| ClassifierClient.FromPayload | backend/src/services/classifierClient.js:56-71 | The three tags are always truthy: each is the payload's truthy property or its default (medium, todo, classifier); each confidence is kept exactly when the payload defines it |
| ClassifierClient.UsablePayload | backend/src/services/classifierClient.js:55 | A response is used exactly when its data is an object or an array, since `null` is falsy |
| ClassifierClient.FieldOr | backend/src/services/classifierClient.js:57-59 | A truthy payload property is taken as is, a falsy one is replaced by the default |
| ClassifierClient.WithOptional | backend/src/services/classifierClient.js:61-70 | The result carries the key exactly when the input did or the optional value is present; a present value is stored under it; every other key and value is kept |
| ClassifierClient.Classify | backend/src/services/classifierClient.js:31-85 | Blank input gives the default fallback with no request; a missing or empty URL gives the fallback of the description with no request; otherwise the trimmed (non-empty) description is sent, an object payload is parsed with defaults, and any other outcome gives the fallback |
| ClassifierClient.NoLetterMatchesNoRule | backend/src/services/classifierClient.js:3-19 | A text with no lower-case letter matches no rule, since every keyword starts with one |
| ClassifierClient.KeywordsStartWithLetter | backend/src/services/classifierClient.js:3-19 | Every fallback keyword is non-empty and starts with a lower-case ASCII letter |
| ClassifierClient.KeywordsHoldMarkerLetter | backend/src/services/classifierClient.js:3-19 | Every fallback keyword holds one of the letters b, c, d, f, g, i, r |
| ClassifierClient.NoMarkerLetterMatchesNoRule | backend/src/services/classifierClient.js:21-27 | A text holding none of those letters matches no rule |
| ClassifierClient.NoMatchGivesDefault | backend/src/services/classifierClient.js:21-29 | When no rule matches the lower-cased description the fallback is medium/todo/"fallback-default" |
| ClassifierClient.BlankFallsToDefault | backend/src/services/classifierClient.js:32-34 | A blank description falls to medium/todo/"fallback-default" |
| ClassifierClient.PayloadRoundTrip | backend/src/services/classifierClient.js:55-71 | Serialising a result with truthy tags and defined confidences and parsing it back as a payload gives the same result |
| ClassifierClient.FallbackIsWellFormedPayload | backend/src/services/classifierClient.js:21-29 | A fallback result survives the payload parser unchanged |
| ClassifierClient.ArrayPayloadGivesDefaults | backend/src/services/classifierClient.js:55-60 | An array payload counts as an object and yields medium/todo/"classifier" |
| ClassifierClient.SentPayloadIsParsed | backend/src/services/classifierClient.js:37-72 | With a URL and a non-blank description, an object-typed payload is what the result is parsed from |
| ClassifierClient.NonObjectPayloadGivesDefaults | backend/src/services/classifierClient.js:55-60 | A payload that is not a plain object has no fields, so priority, status and source take medium/todo/"classifier" and no confidence is copied |
| ClassifierClient.UrgentCleanupIsHighProgress | backend/src/services/classifierClient.js:21-27 | "urgent cleanup" matches the first rule before the third: high/progress/"fallback" |
| ClassifierClient.UrgentAndCriticalWithoutUrl | backend/src/services/classifierClient.js:37-40 | With an empty URL an urgent description is answered by the fallback and nothing is sent |
| ClassifierClient.UrgentAndCriticalIsHighProgress | backend/src/services/classifierClient.js:21-26 | "This is urgent and critical" matches the first rule: high/progress/"fallback" |
| ClassifierClient.NoteGetsDefault | backend/src/services/classifierClient.js:21-29 | "Just a note" matches no rule and gets the default |
| MemoryStore.FindIndex | backend/src/services/memoryTaskStore.js:34 | The index found holds the id and no earlier task does; `None` exactly when no task has the id |
| MemoryStore.GetById | backend/src/services/memoryTaskStore.js:14-16 | The first task with the id, `None` exactly when there is none |
| MemoryStore.Create | backend/src/services/memoryTaskStore.js:18-31 | Exactly one task is appended at the end; it has the fresh id, the title, both timestamps equal to now, and falsy description/priority/status replaced by ""/medium/todo |
| MemoryStore.Merge | backend/src/services/memoryTaskStore.js:37-41 | Every field the payload carries overwrites the task's, every other is kept, and updatedAt becomes now |
| MemoryStore.Update | backend/src/services/memoryTaskStore.js:33-43 | An absent id changes nothing and returns nothing; otherwise exactly the first task with the id is replaced by its merge, in place, and returned |
| MemoryStore.Remove | backend/src/services/memoryTaskStore.js:45-50 | An absent id changes nothing; otherwise exactly the first task with the id is cut out and returned, the others keeping their order |
| MemoryStore.WalkedIsTally | backend/src/services/memoryTaskStore.js:53-59 | Starting from zero counts and adding each task's known priority and status, in store order, ends at the tally of the store |
| MemoryStore.Analytics | backend/src/services/memoryTaskStore.js:52-62 | The loop's counts equal the tally of the store; each breakdown sums to at most the store size, and to exactly it when every value is an enumeration member |
| MemoryStore.CreateThenGet | backend/src/services/memoryTaskStore.js:14-31 | A task created under an unused id is what a lookup of that id returns |
| MemoryStore.CreateWithTakenIdIsShadowed | backend/src/services/memoryTaskStore.js:6-8 | A task created under an id already in use is never found: the lookup still returns the older task |
| MemoryStore.RemoveThenGet | backend/src/services/memoryTaskStore.js:45-50 | After removing an id held by at most one task, a lookup of it finds nothing |
| MemoryStore.UpdateKeepsCreatedAt | backend/src/services/memoryTaskStore.js:33-43 | An update whose payload carries no id or createdAt keeps the creation time, and the updated task is what a lookup returns |
| Domain.ParsePriority | backend/src/utils/validators.js:6 | Parsing gives the member named by the string, and fails exactly for a string no member is named |
| Domain.ParseStatus | backend/src/utils/validators.js:7 | Parsing gives the member named by the string, and fails exactly for a string no member is named |
| Domain.Tally | frontend/pages/analytics.js:71-80 | Counting only the enumeration strings, each breakdown counts a task at most once, so it sums to at most the number of tasks |
| Domain.TallyBounds | backend/src/services/memoryTaskStore.js:56-59 | When every task holds a valid priority (status), the priority (status) counts sum to exactly the number of tasks |
| Domain.CompletionTime | frontend/pages/analytics.js:96 | The completion time is the update time when the task has one, and the creation time otherwise |
| Domain.TallySnoc | backend/src/services/memoryTaskStore.js:56-59 | One more task adds one to the count of its priority and of its status when they are enumeration strings, and nothing else changes |
| Validators.TitleViolation | backend/src/utils/validators.js:4 | The title passes exactly when it is a string of length at least one; it is not trimmed |
| Validators.DescriptionViolation | backend/src/utils/validators.js:5 | The description passes exactly when it is absent, null or a string (the empty string included) |
| Validators.PriorityViolation | backend/src/utils/validators.js:6 | The priority passes exactly when it is absent or one of the three strings, case-sensitively |
| Validators.StatusViolation | backend/src/utils/validators.js:7 | The status passes exactly when it is absent or one of the three strings, case-sensitively |
| Validators.ValidateTask | backend/src/utils/validators.js:3-16 | Success exactly when every property passes; the output keeps the title, defaults the description to "" and priority/status to medium/todo, and always holds enumeration members; a failure of an object body is exactly the schema-ordered list of its properties' violations |
| Validators.TaskViolations | backend/src/utils/validators.js:3-16 | Each property is reported exactly when its own rule fails, at most once, in schema order, and nothing outside the four properties is reported |
| Validators.ClassifyViolation | backend/src/utils/validators.js:11 | The classify description passes exactly when it is a string of at least five characters, untrimmed |
| Validators.ValidateClassifier | backend/src/utils/validators.js:10-20 | Success exactly when the description is a string of length at least five, which is returned unchanged |
| Validators.SpacesTitleAccepted | backend/src/utils/validators.js:4-7 | A whitespace-only title is accepted, with the defaults filled in |
| Validators.NullDescriptionKept | backend/src/utils/validators.js:5 | A null description is accepted and kept as null |
| Validators.AllViolationsReported | backend/src/utils/validators.js:14-16 | A body that breaks all four rules reports all four violations, in schema order |
| Validators.FiveSpacesClassifiable | backend/src/utils/validators.js:11 | Five spaces are a valid classify description |
| TaskController.CreateTask | backend/src/controllers/taskController.js:15-29 | An invalid body gives 400 with the joined messages and leaves the store alone; a valid one gives 201 with a task appended to the store, carrying the fresh id, the title, the description (a falsy one becomes ""), enumeration-valued priority and status, and both timestamps now |
| TaskController.GetTasks | backend/src/controllers/taskController.js:31-37 | The store's tasks are answered with 200, in store order, and the store is unchanged |
| TaskController.GetTaskById | backend/src/controllers/taskController.js:47-54 | 404 "Task not found" exactly when no task has the id; otherwise 200 with the first such task |
| TaskController.UpdateTask | backend/src/controllers/taskController.js:56-70 | Validation comes before the lookup, so an invalid body gives 400 even for an unknown id; an unknown id gives 404; otherwise 200 with the validated fields merged over the first task with the id, keeping its id and creation time, and the store is the old one with exactly that position replaced |
| TaskController.DeleteTask | backend/src/controllers/taskController.js:72-79 | An unknown id gives 404 and no change; otherwise 204 with the first such task removed |
| TaskController.ErrorText | backend/src/controllers/taskController.js:18 | No violation gives the empty text and one gives its own message; each further violation appends ", " and its message, in order, so every message appears in the text |
| TaskController.ClassifyTask | backend/src/controllers/taskController.js:81-89 | An invalid body gives 400 and nothing is sent; otherwise 200 with the classification of the validated description |
| TaskController.GetAnalytics | backend/src/controllers/taskController.js:91-94 | The memory-store analytics is the tally of the store, answered with 200 |
| TaskController.ReshapeStats | backend/src/controllers/taskController.js:110-130 | No aggregate row gives all six counts zero; otherwise the nested counts add up to the row's |
| TaskController.ReshapeRoundTrip | backend/src/controllers/taskController.js:110-130 | Flattening and reshaping are inverse: the row and the nested response carry the same six counts |
| TaskController.ShortDescriptionRefused | backend/src/controllers/taskController.js:81-85 | A description shorter than five characters gives 400 and no request to the classifier |
| TaskController.ClassifyUrgentWithoutUrl | backend/src/controllers/taskController.js:81-89 | With no classifier URL the example description "This is urgent and critical" is answered 200 with high/progress/"fallback" |
| TaskController.CreateThenGetTask | backend/src/controllers/taskController.js:15-54 | A task created under an unused id is answered by a following get with 200 and the same body |
| TaskController.UpdateThenGetTask | backend/src/controllers/taskController.js:47-70 | After a successful update, a get of the id answers 200 with the updated task |
| TaskController.DeleteThenGetTask | backend/src/controllers/taskController.js:47-79 | After deleting an id held by at most one task, a get of it gives 404 |
| Heuristics.BestPriority | classifier/heuristics.py:98 | The chosen priority has the top score, and every priority before it in table order scores strictly less |
| Heuristics.BestStatus | classifier/heuristics.py:99 | The chosen status has the top score, and every status before it in table order scores strictly less |
| Heuristics.Share | classifier/heuristics.py:105-115 | A confidence share lies between 0 and 0.95, and is 0.5 when nothing scored |
| Heuristics.Decide | classifier/heuristics.py:98-128 | The source is "heuristic"; a zero total gives medium (or todo), otherwise the first-best entry; the confidence lies between 0.5 and 0.95, and is 0.5 when nothing scored |
| Heuristics.Prepare | classifier/heuristics.py:63 | The prepared text is no longer than the description, holds no upper-case ASCII letter, is a contiguous piece of the lower-cased description with only Python whitespace around it, neither starts nor ends with Python whitespace, and is empty exactly when the description is whitespace only |
| Heuristics.ScoreWith | classifier/heuristics.py:67-95 | Each priority's score is its rule points plus its keyword points; each status's score is the completion bonus (done only), plus its rule points, plus its keyword points |
| Heuristics.HeuristicPredict | classifier/heuristics.py:53-128 | An empty string or a non-string gives medium/todo/"heuristic-default"/0.5; any other string is decided on the scores of its lower-cased, stripped text; the confidence lies between 0.5 and 0.95 |
| Heuristics.ApplyRulesAdds | classifier/heuristics.py:78-83 | The rule loop adds to each priority and each status exactly the weight times hits of the rules naming it |
| Heuristics.ApplyStatusKeywordsAdds | classifier/heuristics.py:86-89 | The status-keyword loop adds 30 per hit to its status and leaves priorities alone |
| Heuristics.ApplyPriorityKeywordsAdds | classifier/heuristics.py:92-95 | The priority-keyword loop adds 30 per hit to its priority and leaves statuses alone |
| Heuristics.SilentScoresZero | classifier/heuristics.py:67-95 | A text with no keyword hit in any table scores zero everywhere |
| Heuristics.SilentGivesMediumTodo | classifier/heuristics.py:105-128 | A non-empty string whose prepared text hits no keyword gives medium/todo/"heuristic"/0.5 |
| Heuristics.SilentDecidesMediumTodo | classifier/heuristics.py:98-128 | For any keyword tables, a text that hits no keyword is decided medium/todo/"heuristic"/0.5 |
| Heuristics.SilentTotalsZero | classifier/heuristics.py:67-95 | A text that hits no keyword has a zero priority total and a zero status total |
| Heuristics.DecideOnZero | classifier/heuristics.py:105-128 | Scores with both totals zero decide medium/todo with confidence 0.5 |
| Heuristics.QuietRulesAddNothing | classifier/heuristics.py:78-83 | Rules none of whose keywords occur leave the scores unchanged |
| Heuristics.QuietStatusListsAddNothing | classifier/heuristics.py:86-89 | Status lists with no hit leave the scores unchanged |
| Heuristics.QuietPriorityListsAddNothing | classifier/heuristics.py:92-95 | Priority lists with no hit leave the scores unchanged |
| Heuristics.ServiceHasNoEmptyKeyword | classifier/heuristics.py:5-40 | No keyword in any of the service's tables is the empty string |
| Heuristics.EmptyTextIsSilent | classifier/heuristics.py:67-95 | Tables without an empty keyword find no hit in the empty text |
| Heuristics.WhitespaceOnlyIsHeuristic | classifier/heuristics.py:55-128 | A whitespace-only string is not the default case: it gives medium/todo with source "heuristic" and confidence 0.5 |
| ClassifierApp.GuessDict | classifier/heuristics.py:123-128 | The heuristic's answer as a dictionary has exactly the four keys and is well formed |
| ClassifierApp.ModelDict | classifier/app.py:110-117 | A model answer is well formed, carries the labels, and is tagged "model" |
| ClassifierApp.PredictWithModel | classifier/app.py:76-122 | With no model, or no usable text, the heuristic answers for the text as given; otherwise the answer is tagged "model" exactly when both labels are enumeration values, carries those labels, and falls back to the heuristic on the stripped text when the model raises or a label is invalid |
| ClassifierApp.HeuristicIsNotModel | classifier/heuristics.py:123-128 | An answer sourced "heuristic" or "heuristic-default" is never tagged "model" |
| ClassifierApp.HeuristicWithoutModel | classifier/app.py:76-88 | Without a model the answer is the heuristic's for the text as given |
| ClassifierApp.SetDefault | classifier/app.py:168-171 | A missing key is added with the default, and a present key leaves the dictionary unchanged |
| ClassifierApp.WithDefaults | classifier/app.py:168-171 | The four keys are all present afterwards; every key already present keeps its value, and each missing one gets medium, todo, "heuristic" or 0.5 |
| ClassifierApp.Coerce | classifier/app.py:177-187 | The keys are unchanged; the coerced key keeps its value when valid and takes the default otherwise; every other key keeps its value |
| ClassifierApp.Normalise | classifier/app.py:168-187 | After the defaults, normalisation fails exactly when the priority or status is a list or dictionary; otherwise it replaces an invalid priority/status with medium/todo and a non-number confidence with 0.5, and keeps the source and all other keys |
| ClassifierApp.NormaliseIsIdempotent | classifier/app.py:168-187 | A normalised answer is well formed, and normalising it again changes nothing |
| ClassifierApp.NormaliseKeepsWellFormed | classifier/app.py:168-187 | A well-formed answer passes normalisation unchanged |
| ClassifierApp.Answer | classifier/app.py:146-193 | Falsy gives 400 "required" before the type check; a non-string gives 400; a whitespace-only string gives 400 "cannot be empty"; anything else gives 200 with the model-or-heuristic answer for the stripped text, always well formed |
| ClassifierApp.Predict | classifier/app.py:125-204 | Non-JSON gives 400; an unparseable or null body gives 400; a body that is not an object gives the 500 error fallback; an object is answered by its description (default "") |
| ClassifierApp.WithoutModelTheHeuristicAnswers | classifier/app.py:143-165 | With no model the response is 200 with the heuristic's answer for the stripped description |
| ClassifierApp.AnswerWithoutModel | classifier/app.py:143-193 | Without a model a string with a non-blank stripped form is answered 200 with the heuristic's answer for the stripped text |
| ClassifierApp.UsableLabelsAreSent | classifier/app.py:90-117 | Valid model labels reach the response tagged "model" |
| ClassifierApp.FalsyDescriptionsAreMissing | classifier/app.py:143-150 | 0, an empty list and a missing description are all reported as "description is required" |
| ClassifierApp.FalsyDescriptionIsMissing | classifier/app.py:143-150 | A dictionary body whose description is absent or falsy gets 400 "description is required", whatever the model |
| ClassifierApp.ListBodyFails | classifier/app.py:195-204 | A JSON list body makes `get` raise and gives the 500 error fallback |
| UseTasks.WeightForPriority | frontend/hooks/useTasks.js:7-14 | The weight is between 1 and 4; a falsy priority weighs 4; a weight below 4 means the value's text lower-cases to high, medium or low |
| UseTasks.WeightFollowsPriority | frontend/hooks/useTasks.js:7-14 | high, medium and low weigh 1, 2 and 3 |
| UseTasks.OtherTextWeighsFour | frontend/hooks/useTasks.js:9-13 | Any string whose lower-case form is not high, medium or low weighs 4 |
| UseTasks.WeightIgnoresCase | frontend/hooks/useTasks.js:9 | A string weighs what its lower-case form weighs |
| UseTasks.SingletonArrayIsWeighedByItsText | frontend/hooks/useTasks.js:9 | `String` of a one-element array is its element's text, so `["HIGH"]` weighs 1 |
| UseTasks.SortByWeight | frontend/hooks/useTasks.js:29-31 | The sort is a permutation, ordered by weight, and keeps the input order among tasks of equal weight |
| UseTasks.ColumnOf | frontend/hooks/useTasks.js:23-32 | A column holds exactly the tasks shown in it, ordered by weight, keeping input order within a weight |
| UseTasks.Column | frontend/hooks/useTasks.js:24 | A task shows in the column its status names when that is one of the three, and in todo otherwise |
| UseTasks.GroupAndSortTasks | frontend/hooks/useTasks.js:16-35 | A missing list gives three empty columns; otherwise the three columns together are a permutation of the input and each is that status's sorted column |
| UseTasks.ColumnsPartition | frontend/hooks/useTasks.js:23-26 | The three columns' memberships together are exactly the input tasks, each once |
| UseTasks.NoTasksNoColumn | frontend/hooks/useTasks.js:16-23 | With no tasks every column is empty |
| UseTasks.UnknownStatusGoesToTodo | frontend/hooks/useTasks.js:24 | A task whose status is not one of the three is shown in todo |
| UseTasks.AfterCreate | frontend/hooks/useTasks.js:47-51 | The created task is appended to the cache, an absent cache counting as empty |
| UseTasks.AfterUpdate | frontend/hooks/useTasks.js:57-61 | Exactly the entries with the updated id are replaced, all in place |
| UseTasks.AfterDelete | frontend/hooks/useTasks.js:66-70 | Exactly the entries with that id are removed; the rest are kept, and the removed count plus the kept count is the cache size |
| UseTasks.DeleteKeepsOrder | frontend/hooks/useTasks.js:66-70 | The delete distributes over concatenation and drops a single entry exactly when it has the id, so the survivors keep their order and multiplicity |
| UseTasks.UpdateIsIdempotent | frontend/hooks/useTasks.js:57-61 | An update keeps every id in place, and applying it twice is the same as once |
| UseTasks.DeleteUndoesCreate | frontend/hooks/useTasks.js:47-70 | Deleting the id of a task just created leaves what deleting it before the create leaves |
| Dashboard.TimeGreeting | frontend/pages/dashboard.js:57-69 | 5-11 is "Good morning", 12-16 "Good afternoon", 17-20 "Good evening", and any other hour "Hello" |
| Dashboard.Username | frontend/pages/dashboard.js:43-51 | No email or an empty local part gives no name; otherwise the local part with its first character upper-cased and the rest lower-cased |
| Dashboard.Greet | frontend/pages/dashboard.js:39-76 | Without a name: "Hi, User" and "U"; with one, the initial is its upper-cased first character and the greeting is the time greeting and the name, unless the name is "User" |
| Dashboard.InitialIsFirstLetter | frontend/pages/dashboard.js:49-50 | The initial is the upper-cased first character of the email |
| Dashboard.PlainGreetingExactlyForUser | frontend/pages/dashboard.js:72-76 | "Hi, User" is shown exactly when there is no name or the local part reads "user" in any letter case |
| Dashboard.GreetingIgnoresCaseAfterFirstLetter | frontend/pages/dashboard.js:45-50 | Two emails whose local parts agree up to letter case get the same header |
| Dashboard.DefaultStatus | frontend/pages/dashboard.js:90-94 | A truthy column status is the default, anything else gives todo |
| Dashboard.FinalPayload | frontend/pages/dashboard.js:105-109 | Every form field but status is kept; status is the default when creating and the form's own when editing |
| Dashboard.CreatedTaskTakesColumnStatus | frontend/pages/dashboard.js:90-109 | A task added from a column is submitted with that column's status whatever the form holds |
| Dashboard.EditKeepsFormStatus | frontend/pages/dashboard.js:105-109 | Editing submits the form unchanged |
| AnalyticsPage.FilteredTasks | frontend/pages/analytics.js:29-67 | The chained filters keep, in order, exactly the tasks passing all three filters; an "all" filter or other date range does not filter |
| AnalyticsPage.ChainIsOneFilter | frontend/pages/analytics.js:32-64 | The three optional filters in a row equal one filter by their conjunction |
| AnalyticsPage.AllFiltersKeepEverything | frontend/pages/analytics.js:35-64 | With every filter at "all" every task is shown, in order |
| AnalyticsPage.AnalyticsData | frontend/pages/analytics.js:69-109 | The total is the filtered count and the breakdown is its tally; high priority equals the high count; created-today counts the tasks created since midnight; completed-today counts, among the done tasks, those whose completion time (`updatedAt`, else `createdAt`) is since midnight, so at most the done count; each breakdown sums to at most the total |
| AnalyticsPage.CreatedTodaySplitsTotal | frontend/pages/analytics.js:86-91 | The tasks created today and those created before midnight together are the total |
| AnalyticsPage.TodayFiguresSnoc | frontend/pages/analytics.js:86-98 | One more task raises created-today exactly when it was created since midnight, and completed-today exactly when it is done with a completion time since midnight |
| AnalyticsPage.TodayRangeCountsOnlyToday | frontend/pages/analytics.js:46-91 | Under the "today" range with the same midnight, every shown task counts as created today |
| AnalyticsPage.StatusFilterConcentrates | frontend/pages/analytics.js:40-80 | Filtering to one status puts every shown task in that status's count, and the status counts add up to the total |
| TasksOverTime.Bump | frontend/components/analytics/TasksOverTimeChart.js:15-31 | Adding to a day opens its bucket if needed, keeps labels distinct, and raises that day's counts and the totals by exactly the amounts added |
| TasksOverTime.FindIsUnique | frontend/components/analytics/TasksOverTimeChart.js:15-17 | With distinct labels a day's bucket is found at its one index |
| TasksOverTime.TotalsAfterUpdate | frontend/components/analytics/TasksOverTimeChart.js:18-31 | Replacing one bucket changes the totals by the difference of its counts |
| TasksOverTime.BumpInPlace | frontend/components/analytics/TasksOverTimeChart.js:15-31 | Raising an existing day keeps labels distinct and raises exactly that day's counts and the totals |
| TasksOverTime.BumpAtEnd | frontend/components/analytics/TasksOverTimeChart.js:15-16 | Opening a new day at the end keeps labels distinct and adds exactly that day's counts to the totals |
| TasksOverTime.Record | frontend/components/analytics/TasksOverTimeChart.js:10-32 | One task adds one created mark on its creation day and, when done, one completed mark on its completion day; nothing else changes |
| TasksOverTime.MarksCount | frontend/components/analytics/TasksOverTimeChart.js:11-31 | The created mark and the optional completed mark change each day's counts and the totals by exactly the task's own indicators |
| TasksOverTime.Group | frontend/components/analytics/TasksOverTimeChart.js:9-33 | The grouped buckets have distinct day labels and none of them is empty |
| TasksOverTime.GroupCountsTasks | frontend/components/analytics/TasksOverTimeChart.js:9-33 | Each day's created count is the number of tasks created that day, its completed count the number of done tasks completed that day; created counts total the task count and completed counts the done count |
| TasksOverTime.Insert | frontend/components/analytics/TasksOverTimeChart.js:36-40 | Inserting into a day-sorted list keeps it sorted and adds exactly that bucket |
| TasksOverTime.SortByDay | frontend/components/analytics/TasksOverTimeChart.js:36-40 | The sort is a permutation, ordered by the day each label reads back as |
| TasksOverTime.LastFourteen | frontend/components/analytics/TasksOverTimeChart.js:41 | The result is a suffix of length min(14, n) |
| TasksOverTime.Latest | frontend/components/analytics/TasksOverTimeChart.js:36-41 | The bars are sorted by day, number min(14, buckets), are drawn from the buckets, are all of them when there are at most 14, and every bucket left out is no later than every bar kept |
| TasksOverTime.DroppedAreEarlier | frontend/components/analytics/TasksOverTimeChart.js:36-41 | Cutting a day-sorted list keeps part of it, and everything cut off is no later than anything kept |
| TasksOverTime.ChartData | frontend/components/analytics/TasksOverTimeChart.js:5-42 | A missing or empty list gives no bars; otherwise at most fourteen non-empty bars, sorted by day, drawn from the day buckets, and none of the days left out is later than a day shown |
| TasksOverTime.ChartShowsDayCounts | frontend/components/analytics/TasksOverTimeChart.js:9-41 | Every bar shown counts exactly the tasks created on its day and the done tasks completed on it, and at least one task |

## Left out

- Case mapping is ASCII only. JavaScript `toLowerCase`/`toUpperCase` and Python `lower` map other letters too.
- Strings are sequences of code points. JavaScript's UTF-16 indexing (`charAt(0)` on an astral character) is not modelled. Neither is Joi's length count: `min(5)` counts UTF-16 code units, so a description of three astral characters passes Joi but fails `ClassifyViolation`.
- The whitespace sets for `trim` and `strip` are written out as fixed character lists (ECMAScript WhiteSpace and LineTerminator; Python's `str.isspace`). Characters a later Unicode version might add to the space separators are not followed.
- Joi behaviour not written in the schema is not modelled: unknown keys, type conversion, and the error `details` objects beyond their messages. The messages use Joi's default wording.
- The MongoDB branch of every controller function is left out, including the `getAnalytics` aggregation pipeline. Only its reshaping of the stats row is modelled (`TaskController.ReshapeStats`). The choice of store is fixed to the memory store.
- The 500 answers of `createTask` and `getTasks` are left out: the memory store never throws.
- HTTP, Express, Flask and CORS plumbing, logging, axios and its 5000 ms timeout are left out. The remote outcome is a parameter, so a timeout is one more failed outcome.
- `generateId` is left out: the fresh id is a parameter. Uniqueness is not assumed, and `MemoryStore.CreateWithTakenIdIsShadowed` shows what a collision does.
- The clock is a parameter. That covers `new Date()`, `toISOString`, `setHours`/`setDate`/`setMonth`, and the hour of day.
- `toLocaleDateString` and the reparse of the label with the current year are parameters (`dayOf`, `when`). This means the year-boundary and 29 February behaviour of that reparse is not modelled. Timestamps are integers, so a `createdAt` that does not parse cannot be expressed: in the browser it yields an "Invalid Date" label, whose reparse makes the sort comparator return NaN (frontend/components/analytics/TasksOverTimeChart.js:37-39).
- `TasksOverTime.SortByDay`: states sortedness and permutation but not stability among labels that read back as the same instant.
- Heuristics.HeuristicPredict: confidence is exact real arithmetic without `round(…, 2)`, and floating-point sums are replaced by integer hundredths. Ties that only arise or vanish under float rounding are therefore not claimed.
- Heuristics.HeuristicPredict: the choice is stated against the score tables (`Decide` and the contract of `ScoreWith`, which holds for any keyword tables and so for the service's own), not as closed per-rule sums for the service's tables.
- `calculate_confidence`, `load_model`, `get_prediction_confidence` and the training script are left out. The model's labels and confidences are inputs.
- ClassifierApp.PredictWithModel: any exception the model raises is the single `Raises` outcome. The rounding of the model confidence is not modelled.
- MemoryStore.Analytics: counts a priority or status only when it is exactly one of the enumeration strings. JavaScript's `byPriority[t.priority]` would also count a value that converts to such a key (a one-element array `["high"]`), and inherited names such as "constructor" would corrupt the counts. The request schemas (`backend/src/utils/validators.js`) let only the three strings or the default through.
- `completionRate` on the analytics page is left out (floating-point `toFixed`).
- UseTasks.WeightForPriority: `String` of a number is not spelled out. Such a text never equals a priority word, so its weight is 4 either way.
- Validators.ValidateTask, Validators.ValidateClassifier: the body is taken to be what `express.json()` parsed, an object or an array. Neither schema is `.required()`, so Joi accepts an absent (undefined) payload. The model reports `Undefined` as not an object instead, and does not promise Joi's acceptance of a missing body.
- Validators.ValidateTask: reports one violation per failing property, the one the schema text names. Joi's `abortEarly: false` may add a second message for the same property when a value outside `valid(...)` also fails the string rules (`""`, a number, `null`). The controllers would then join both messages into the 400 text. That extra message comes from the library, not from the schema, and is not modelled.
- The auth stubs, UI components and rendering are left out.
