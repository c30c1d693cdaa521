# page-pilot goal execution, modelled in Dafny

This project models the goal-execution engine of the page-pilot Node package.
The engine drives a browser page towards a goal written in plain language, and
it takes its decisions from a language-model "oracle". The model covers:

- **Accessibility snapshot** (`AccessibilityTree`). Rebuilds the page's
  accessibility tree from the platform's flat list of records. It keeps the
  object graph the source builds: a node table keyed by id, the ordered child
  ids of every node that has children, and the root id.
- **Selector cache** (`SelectorCache`). The goal → selector memo. It is loaded
  once from its backing file and saved in full after every `set`. A failed
  load gives an empty cache, and a failed save is swallowed.
- **Oracle replies** (`OracleReplies`). The shape rules that turn one reply
  into what the engine consumes: a decision (a synthetic `fail` on any error),
  a selector or null, a task plan, or a list of sub-goals. The rules also
  cover the history paragraph of the decision prompt.
- **Action history** (`ActionHistory`). The lines a task's history records: one
  per decision, and one per action that failed on the page, with the
  corrective tip.
- **Worker loop** (`AgentLoop`). `executeTask`: the navigation shortcut, then at
  most 5 observe–decide–act steps. It covers snapshot retries (3 attempts),
  the folding of extracted results, the `done`/`fail` exits, and
  `performAction` with its "not found" check.
- **Single-goal act** (`SingleAct`). `act`: the cache fast path, the
  oracle fallback, and the cache write after a successful click.
- **Planner** (`Orchestrator`). `execute` with decomposition, the batch path
  and the plan path. It also covers `mergeContext`, `runBatch`'s result
  shape, description defaulting, and strictly sequential tasks.

JavaScript values are a closed datatype (`JsValue.Value`). Truthiness, `typeof`,
property reads that throw on null or undefined, `in`, object spread,
`Object.values` order and `String(v)` are each written out explicitly.

The page and the oracle are scripted (`Environment.World`):
- the n-th snapshot attempt, oracle request, page interaction and sub-goal run
  receives the n-th scripted answer;
- a `Session` records every call made;
- contracts about "no oracle call", "one click" or "the goal passed to the
  oracle" are stated over that record.

Some behaviours of the source that the model keeps as written:
- The batch path merges into the instance's accumulated context
  (node/src/core/Orchestrator.ts:15, 38-41), so keys from earlier `execute`
  calls stay.
- The cache file is read once, when the cache manager is built
  (node/src/cache/CacheManager.ts:10-13).
- `decomposeComplexGoal` passes an empty `goals` array through
  (node/src/ai/PortkeyProvider.ts:159). The refined goal is then `undefined`
  (node/src/core/Orchestrator.ts:44).
- `done` returns the collected data whenever it is truthy
  (node/src/core/PagePilot.ts:73), so an empty object `{}` is returned
  rather than the action's own result.
- Listing the plan reads every step's `type` before the first task runs
  (node/src/core/Orchestrator.ts:53), so a null or undefined step throws
  before any task.

## Model

| member | source | states |
|---|---|---|
| JsValue.ErrorText | node/src/core/PagePilot.ts:89 | `String(error)` of an Error: `name: message`, or whichever of the two is non-empty alone |
| JsValue.Or | node/src/core/PagePilot.ts:73 | `a \|\| b` is truthy iff either operand is, and is `a` whenever `a` is truthy |
| JsValue.NatToString | node/src/core/PagePilot.ts:53 | the step number prints as a canonical decimal numeral (no leading zero) that denotes exactly that number |
| JsValue.GetProp | node/src/core/PagePilot.ts:52 | reading a property throws exactly when the base is null or undefined, with the "Cannot read properties of …" TypeError; otherwise it gives the member value, which on a plain object is defined only for an own key |
| JsValue.OptionalMember | node/src/core/PagePilot.ts:27 | `v?.k` is undefined on null or undefined, and otherwise is the ordinary member read |
| JsValue.HasProperty | node/src/core/PagePilot.ts:60 | `k in v` throws exactly when `v` is not an object; on a plain object it answers own-key membership; a false answer means the member read is undefined |
| JsValue.Put | node/src/core/Orchestrator.ts:120 | after `o[k] = v`, `k` holds `v` and every other key reads as before |
| JsValue.Spread | node/src/core/Orchestrator.ts:118 | in `{...a, ...b}` every key reads `b`'s value when `b` has the key, else `a`'s value |
| JsValue.FirstOwnValue | node/src/ai/PortkeyProvider.ts:122-123 | `Object.values(o)[0]` is absent only for `{}`; it is the value of the smallest array-index key when there is one, else the first key's value |
| AccessibilityTree.Attach | node/src/utils/accessibility.ts:52-60 | the second pass gives each known parent exactly the ids of the records naming it, in record order, and no parent gets an empty list |
| AccessibilityTree.FirstRoot | node/src/utils/accessibility.ts:61-63 | absent iff every record has a parent; otherwise it is the id of the first parentless record, with all earlier records parented |
| AccessibilityTree.Build | node/src/utils/accessibility.ts:24-74 | null iff no record lacks a parent; otherwise a well-formed snapshot rooted at the first parentless record, whose node table holds exactly the dump's ids and whose child lists are exactly the non-empty reference lists `ChildIds` |
| AccessibilityTree.GetAccessibilityTree | node/src/utils/accessibility.ts:18-80 | a throwing platform call yields null; otherwise the result is the snapshot built from the records |
| AccessibilityTree.NodeTableKeys | node/src/utils/accessibility.ts:28-49 | every record yields a node: the table's keys are exactly the ids in the dump |
| AccessibilityTree.NodeTableAt | node/src/utils/accessibility.ts:48 | an id maps to the node built from the last record with that id |
| AccessibilityTree.NodeOfRecord | node/src/utils/accessibility.ts:28-48 | a node's role is the raw role value or "generic"; name, value and description are present iff the raw value is present and truthy, and then equal it |
| AccessibilityTree.ChildIdsCount | node/src/utils/accessibility.ts:52-60 | with unique ids, a record occurs once in the child list of the parent it names and never in another list |
| AccessibilityTree.AttachedExactlyOnce | node/src/utils/accessibility.ts:56-59 | a record whose parent id resolves is appended to that parent's children exactly once and appears under no other node |
| AccessibilityTree.Orphaned | node/src/utils/accessibility.ts:56-59 | a record whose parent id names no node of the dump is attached nowhere |
| AccessibilityTree.ChildOrder | node/src/utils/accessibility.ts:52-60 | two children of one parent are listed in the order of their records |
| SelectorCache.Load | node/src/cache/CacheManager.ts:10-25 | a missing or unreadable file gives an empty cache; a stored object becomes the entries |
| SelectorCache.Get | node/src/cache/CacheManager.ts:27-29 | `get` is present exactly for stored goals and returns the stored selector |
| SelectorCache.Set | node/src/cache/CacheManager.ts:31-42 | after `set(g, s)`, `get(g)` is `s` and every other goal reads as before; the file holds the new map iff the save succeeded, and otherwise keeps its old content |
| SelectorCache.EmptyOnLoadFailure | node/src/cache/CacheManager.ts:15-25 | a cache over a missing or unreadable file answers absent for every goal |
| SelectorCache.LastWriterWins | node/src/cache/CacheManager.ts:32 | a second `set` on a goal overwrites the first |
| SelectorCache.ReloadRoundTrip | node/src/cache/CacheManager.ts:15-42 | after a successful save, reloading the file gives back exactly the in-memory entries |
| SelectorCache.FailedSaveNotPersisted | node/src/cache/CacheManager.ts:36-42 | a failed save leaves a later reload seeing the old file, while memory keeps the new entry |
| OracleReplies.HistoryText | node/src/ai/PortkeyProvider.ts:9 | an empty history is "No previous actions.", and any other history starts with the "Action History:" header |
| OracleReplies.HistoryTextRoundTrip | node/src/ai/PortkeyProvider.ts:9 | entries without line breaks can be read back out of the history paragraph, in order |
| OracleReplies.SplitJoin | node/src/ai/PortkeyProvider.ts:9 | splitting the newline-joined entries at newlines gives the entries back |
| OracleReplies.DetermineNextAction | node/src/ai/PortkeyProvider.ts:8-37 | never throws for any reply: a usable reply yields the parsed value as is, and anything else yields reasoning "Failed to communicate with AI." with a `fail` action whose reason is "AI Error: " and the caught error |
| OracleReplies.FailDecisionFields | node/src/ai/PortkeyProvider.ts:32-35 | the synthetic decision reads back its reasoning, its `fail` type and its reason |
| OracleReplies.NoContentReason | node/src/ai/PortkeyProvider.ts:27 | missing content prints as "Error: No content from AI" |
| OracleReplies.GenerateSelector | node/src/ai/PortkeyProvider.ts:48-77 | a selector comes back iff the reply has text that parses to an object with a string `selector` and a numeric `confidence`, and it is that `selector` |
| OracleReplies.SelectorRoundTrip | node/src/ai/PortkeyProvider.ts:64-72 | a reply `{"selector": s, "confidence": c, ...}` yields `s` |
| OracleReplies.PlanOf | node/src/ai/PortkeyProvider.ts:117-131 | `tasks` when it is an array; else the value itself when it is an array; else the first own value when that is an array; `[]` in every other case, null included |
| OracleReplies.GeneratePlan | node/src/ai/PortkeyProvider.ts:111-131 | missing or non-string content and parse failures give `[]`; a parsed reply gives its plan |
| OracleReplies.PlanFromTasksKey | node/src/ai/PortkeyProvider.ts:120 | `{"tasks": [...]}` yields the task array |
| OracleReplies.PlanFromBareArray | node/src/ai/PortkeyProvider.ts:121 | a bare non-empty array yields itself |
| OracleReplies.PlanFromFirstValue | node/src/ai/PortkeyProvider.ts:122-123 | an object with no `tasks` and no index keys whose first value is an array yields that array |
| OracleReplies.DecomposeComplexGoal | node/src/ai/PortkeyProvider.ts:152-164 | a `goals` array in the parsed reply is returned verbatim; in every other case, errors included, the result is exactly `[goal]` |
| OracleReplies.DecomposeEmptyOnlyIfSent | node/src/ai/PortkeyProvider.ts:159 | an empty sub-goal list comes only from an explicit empty `goals` array |
| ActionHistory.Tip | node/src/core/PagePilot.ts:81-87 | a strict-mode violation gets the ambiguity tip even when it also mentions InvalidSelector; an InvalidSelector error alone gets the syntax tip; anything else gets none |
| ActionHistory.DecisionLineText | node/src/core/PagePilot.ts:52-56 | a decision line opens with "Step i+1: " and ends with the description, or for `fail` with "Failed - " and the reason |
| ActionHistory.FailureLineText | node/src/core/PagePilot.ts:89 | a failure line opens with the step and `String(error)`, carries the tip right after it, and ends with the retry advice |
| ActionHistory.StepLabelInjective | node/src/core/PagePilot.ts:53 | different steps get different labels |
| AgentLoop.SnapshotFrom | node/src/core/PagePilot.ts:98-103 | the attempts stop at the first snapshot, and every earlier attempt failed; a null result used up every remaining attempt |
| AgentLoop.GetSnapshotWithRetry | node/src/core/PagePilot.ts:97-104 | at most three attempts; null iff all three fail; otherwise the first success, and nothing but the dump counter moves |
| AgentLoop.CombinedGoal | node/src/core/PagePilot.ts:34-37 | a falsy global goal leaves the description as the goal; otherwise the text names the task, contains the global goal and ends with the passive-scan instruction |
| AgentLoop.MergeCollected | node/src/core/PagePilot.ts:60-67 | a truthy result replaces falsy data; two object-typed values (arrays included) spread with the new keys winning; otherwise the new result replaces the old; the data stays truthy |
| AgentLoop.Issue | node/src/core/PagePilot.ts:106-144 | interactions are issued in order up to the first that throws, whose error is rethrown; a normal completion issued them all and all settled |
| AgentLoop.PerformAction | node/src/core/PagePilot.ts:106-144 | click/type count matches first and throw "not found" on zero; the calls are a prefix of the planned ones; other action types issue nothing; page errors are rethrown unchanged |
| AgentLoop.Conclude | node/src/core/PagePilot.ts:69-90 | `fail` throws "Agent failed: <reason>", `done` returns collected data or else the result, and anything else is performed, with a failure logged as one history line rather than thrown |
| AgentLoop.React | node/src/core/PagePilot.ts:52-90 | the history only grows, by at most two lines per step; a step that continues logged at least one line and a successful exit exactly one; only page calls are made |
| AgentLoop.MissingActionThrows | node/src/core/PagePilot.ts:52 | a missing decision or action throws before anything is recorded |
| AgentLoop.DecisionLogged | node/src/core/PagePilot.ts:52-60 | otherwise the step's decision is the next history line, and a primitive action then throws at `'result' in action` with nothing else changed |
| AgentLoop.ObjectActionConcludes | node/src/core/PagePilot.ts:58-67 | an object action folds a truthy `result` into the data before concluding, and a falsy one leaves it |
| AgentLoop.Step | node/src/core/PagePilot.ts:46-90 | one step makes at most one oracle request, a decision request for the goal with the current history, and makes none exactly when all snapshot attempts fail, which throws |
| AgentLoop.Iterate | node/src/core/PagePilot.ts:43-94 | at most 5 steps and 5 oracle calls, all decision requests for the goal over a growing history; k steps leave between k (less one on a throw) and 2k lines; exhaustion returns the collected data |
| AgentLoop.ExecuteTask | node/src/core/PagePilot.ts:24-95 | a navigate task with a url makes no snapshot and no oracle request, loads the url and returns undefined; any other task asks at most 5 times about the combined goal |
| AgentLoop.FirstDecisionDone | node/src/core/PagePilot.ts:71-74 | `done` with nothing collected returns the action's result as it stands |
| AgentLoop.ExtractionsAccumulate | node/src/core/PagePilot.ts:60-63 | a key only the earlier extracted object has survives a later object extraction |
| SingleAct.CacheHit | node/src/PagePilot.ts:21-22 | the cache offers a selector iff one is stored for the goal and it is non-empty |
| SingleAct.Fallback | node/src/PagePilot.ts:33-61 | one snapshot and one selector request; a null snapshot throws; the cache changes only after the non-empty selector the oracle's reply named was clicked and settled, and then maps the goal to that selector |
| SingleAct.Act | node/src/PagePilot.ts:19-62 | at most one oracle request; a throw leaves the cache; otherwise the cache is unchanged or updated at the goal only |
| SingleAct.CacheHitShortCircuits | node/src/PagePilot.ts:21-27 | a usable cached selector whose click settles ends the call with one click, no snapshot and no oracle request |
| SingleAct.StaleCacheFallsThrough | node/src/PagePilot.ts:28-30 | a failing cached click falls through to the oracle path instead of throwing |
| SingleAct.EmptyCachedSelectorIsMiss | node/src/PagePilot.ts:22 | an empty cached selector is a miss: no click is tried |
| SingleAct.NoSelectorThrows | node/src/PagePilot.ts:47-61 | no selector from the oracle throws, clicks nothing and leaves the cache |
| SingleAct.OracleSelectorClickFails | node/src/PagePilot.ts:49-58 | a failing click on the oracle's selector throws an error naming the selector and the page error, and leaves the cache |
| SingleAct.LearnedSelectorIsCached | node/src/PagePilot.ts:47-55 | after a successful oracle path the raw goal maps to the selector the oracle's reply named, which is the selector last clicked, and no other goal changed |
| Orchestrator.PushAll | node/src/core/Orchestrator.ts:119-124 | appending to a list property throws iff it is truthy and not an array; otherwise the list is the old one (empty when falsy) followed by the items, and nothing else changes |
| Orchestrator.MergeContext | node/src/core/Orchestrator.ts:116-126 | a plain object is spread over the context with its keys winning; an array's elements go to `results`; any other value goes to `values` |
| Orchestrator.MergeKeepsKeys | node/src/core/Orchestrator.ts:116-126 | a successful merge never removes a key |
| Orchestrator.ArraysAppendInOrder | node/src/core/Orchestrator.ts:119-121 | two arrays merged in turn land in `results` in order, after the earlier elements |
| Orchestrator.ScalarJoinsValues | node/src/core/Orchestrator.ts:122-124 | a scalar becomes the last element of `values` |
| Orchestrator.RunBatch | node/src/core/Orchestrator.ts:82-114 | no browser throws before any run; otherwise one entry per goal in goal order, each the run's context or `{error: String(e)}` |
| Orchestrator.MergeableEntries | node/src/core/Orchestrator.ts:38-40 | a failed run's entry is dropped unless its error text is empty; a context is dropped iff it has a truthy `error` of its own |
| Orchestrator.BatchLaterWins | node/src/core/Orchestrator.ts:37-40 | after the batch merge each key holds the value of the last merged entry that has it, else the old context's |
| Orchestrator.AllDroppedKeepsContext | node/src/core/Orchestrator.ts:38-40 | a batch whose entries are all dropped leaves the context as it was |
| Orchestrator.PrepareTask | node/src/core/Orchestrator.ts:58-63 | throws iff the task is nullish, or a primitive that needs a default description; the description is the task's own when truthy, else a truthy `params.description`, else "Execute <type> action" |
| Orchestrator.RunTask | node/src/core/Orchestrator.ts:56-75 | a task asks at most 5 times, only about its combined goal with the refined goal; a throw leaves the context |
| Orchestrator.FalsyResultLeavesContext | node/src/core/Orchestrator.ts:69-71 | a falsy task result completes normally without merging |
| Orchestrator.RunPlan | node/src/core/Orchestrator.ts:55-76 | tasks run in order; the plan completes iff every task did; at most 5 oracle calls per task reached |
| Orchestrator.FirstFailureAborts | node/src/core/Orchestrator.ts:72-75 | the first throwing task ends the plan with its error, with earlier merges kept and no later task run |
| Orchestrator.CompletedTaskContinues | node/src/core/Orchestrator.ts:66-71 | a completed task hands its context and calls on to the next task |
| Orchestrator.PlanKeepsKeys | node/src/core/Orchestrator.ts:55-76 | no task removes a key from the context |
| Orchestrator.ExecuteBatch | node/src/core/Orchestrator.ts:35-42 | the batch path makes no oracle or page call, throws only without a browser, and returns the context it leaves |
| Orchestrator.BatchContext | node/src/core/Orchestrator.ts:35-42 | the batch path's context holds, per key, the last merged sub-goal entry's value |
| Orchestrator.AllFailedBatchIsEmpty | node/src/core/Orchestrator.ts:35-42 | when every sub-goal fails, a fresh instance returns `{}` rather than throwing |
| Orchestrator.ListPlan | node/src/core/Orchestrator.ts:53 | listing the plan throws iff some step is null or undefined, with the TypeError of reading `type` of the first such step |
| Orchestrator.ExecutePlan | node/src/core/Orchestrator.ts:44-79 | the plan path asks for the refined goal's plan first; a plan with a null or undefined step throws after that request alone with the context untouched; on success it returns its context |
| Orchestrator.FirstNullStep | node/src/core/Orchestrator.ts:53 | a null or undefined step makes the listing throw, at that step or an earlier one |
| Orchestrator.NullStepThrowsBeforeTasks | node/src/core/Orchestrator.ts:47-55 | a plan with a null or undefined step throws "Cannot read properties of … (reading 'type')" before any task runs: no page call, no snapshot, no further oracle request, context untouched |
| Orchestrator.EmptyPlanThrows | node/src/core/Orchestrator.ts:47-50 | an empty plan throws "AI failed to generate a valid plan." after the single plan request |
| Orchestrator.Execute | node/src/core/Orchestrator.ts:30-80 | the first request is the decomposition of the goal; a normal completion returns the instance's context |
| Orchestrator.ExecuteDispatch | node/src/core/Orchestrator.ts:33-47 | more than one sub-goal runs only the batch, with no plan request; otherwise the first sub-goal is planned right after decomposition and no batch runs |
| Orchestrator.BatchKeepsKeys | node/src/core/Orchestrator.ts:38-40 | the batch merge never removes a key |
| Orchestrator.ExecuteKeepsKeys | node/src/core/Orchestrator.ts:15 | the context is never reset: every key it had survives any `execute`, thrown or not |

## Left out

- Playwright timing: `waitForTimeout`, the swallowed `networkidle` waits and
  the scroll script's internal pauses are not page calls. Click and fill
  options (timeouts, `force`) are not distinguished. The scroll `amount` is
  computed by the source but never passed on, so nothing is lost.
- Network and SDK calls to the oracle, prompt texts, and the zod validation
  internals are left out. A reply is given as its content plus the outcome of
  `JSON.parse`.
- Numbers are integers. Floating point, NaN and fractional `String(n)` are not
  modelled.
- Console logging is not modelled.
- The CDP session behind `getAccessibilityTree` is not modelled, and neither
  are the raw fields the source never reads (`keyshortcuts`, `focused`,
  `disabled`).
- Snapshots reach the loop as a scripted stream. `GetAccessibilityTree` says
  how each one is built from a dump, but the loop does not rebuild it.
- The oracle's view of the snapshot is not modelled: its JSON rendering in the
  prompt is left out, and the recorded call carries the snapshot itself.
- `runBatch` concurrency, the isolated browser contexts and their closing are
  not modelled. Each sub-goal's run is a scripted outcome, in goal order,
  rather than a nested `Orchestrator.execute`.
- Orchestrator.PrepareTask: models the in-place mutation of the task object
  only through the task view it hands to the worker.
- SelectorCache.Get: does not model goal strings that name properties
  inherited from `Object.prototype` (such as `constructor`). In the source
  these read inherited values.
- SelectorCache.Load: a backing file holding JSON that is not an object (for
  example `null`) is not modelled. In the source it makes a later `get`
  throw. Neither is an object with non-string values (for example
  `{"g": 5}`), for which `get` returns a truthy non-string that reaches
  `page.locator`.
- AgentLoop.Step: a dump in which duplicate node ids make a node its own
  descendant builds a cyclic object graph. Rendering it with `JSON.stringify`
  in the decision prompt (node/src/ai/PortkeyProvider.ts:10) throws outside
  the provider's `try`. The model does not represent that throw.
- SingleAct.Fallback: for the same cyclic snapshot, `act`'s size log
  (node/src/PagePilot.ts:43) throws. The model does not represent that throw.
- AccessibilityTree.Build: the snapshot keeps every node, including those not
  reachable from the root. The source hands on only the root object, and so
  only the subtree under it.
- AgentLoop.Step: it does not state how the prompt text embeds the snapshot
  and the goal. Only the structured request is recorded.
- The provider factory, the other providers, the code-evaluating entry points
  and the end-to-end tests are not part of this model.
