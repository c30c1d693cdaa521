/**
 The planner (node/src/core/Orchestrator.ts): a goal is split into sub-goals;
 several sub-goals run as a batch in fresh browser contexts and their
 contexts are merged, a single one is planned and its tasks are handed to the
 worker in order. Every result lands in one global context that belongs to
 the orchestrator instance, so it accumulates across `execute` calls.
 */
module Orchestrator {
  import opened Outcomes
  import opened JsValue
  import opened OracleReplies
  import opened Environment
  import opened AgentLoop

  const NoPlan: JsError := Error("AI failed to generate a valid plan.")
  const NoBrowser: JsError :=
    Error("Orchestrator requires a Page created from a Browser to run batch operations (browser instance missing).")
  const ResultsKey: string := "results"
  const ValuesKey: string := "values"
  const ErrorKey: string := "error"

  // ---------------------------------------------------------------------------
  // mergeContext
  // ---------------------------------------------------------------------------

  /** What `push` on the context's list property throws when that property is truthy but not an array. */
  function NotAList(key: string): JsError {
    TypeError("this.globalContext." + key + ".push is not a function")
  }

  /** The list property `key` as `push` extends it: its elements, none when it is falsy (reset to `[]`). */
  function ListOf(ctx: Entries, key: string): seq<Value> {
    var current := Member(Obj(ctx), key);
    if current.Arr? then current.elems else []
  }

  /**
   Appends `items` to the list property `key` of the context, which is first
   set to `[]` when falsy; a truthy non-array there makes `push` throw.
   */
  function PushAll(ctx: Entries, key: string, items: seq<Value>): (r: Result<Entries, JsError>)
    ensures r.Err? <==> Truthy(Member(Obj(ctx), key)) && !Member(Obj(ctx), key).Arr?
    ensures r.Err? ==> r.error == NotAList(key)
    ensures r.Ok? ==> Lookup(r.value, key) == Some(Arr(ListOf(ctx, key) + items))
    ensures r.Ok? ==> forall k | k != key :: Lookup(r.value, k) == Lookup(ctx, k)
  {
    var current := Member(Obj(ctx), key);
    if !Truthy(current) then
      assert ListOf(ctx, key) + items == items;
      Ok(Put(ctx, key, Arr(items)))
    else if current.Arr? then Ok(Put(ctx, key, Arr(current.elems + items)))
    else Err(NotAList(key))
  }

  /** `typeof v === 'object' && v !== null && !Array.isArray(v)`: a plain object. */
  predicate IsPlainObject(v: Value) {
    TypeofObject(v) && v != Null && !v.Arr?
  }

  /**
   `mergeContext`: a plain object is spread over the context (its keys
   win); an array's elements are appended in order to `results`; any other
   value is appended to `values`.
   */
  function MergeContext(ctx: Entries, v: Value): (r: Result<Entries, JsError>)
    ensures IsPlainObject(v) ==> r.Ok?
    ensures IsPlainObject(v) ==>
      forall k :: Lookup(r.value, k) == if HasKey(v.entries, k) then Lookup(v.entries, k) else Lookup(ctx, k)
    ensures v.Arr? ==> r == PushAll(ctx, ResultsKey, v.elems)
    ensures !IsPlainObject(v) && !v.Arr? ==> r == PushAll(ctx, ValuesKey, [v])
  {
    if IsPlainObject(v) then Ok(Spread(ctx, SpreadSource(v)))
    else if v.Arr? then PushAll(ctx, ResultsKey, v.elems)
    else PushAll(ctx, ValuesKey, [v])
  }

  /** A successful merge never drops a key: the context only grows. */
  lemma MergeKeepsKeys(ctx: Entries, v: Value, k: string)
    requires MergeContext(ctx, v).Ok? && HasKey(ctx, k)
    ensures HasKey(MergeContext(ctx, v).value, k)
  {
    var r := MergeContext(ctx, v).value;
    assert Lookup(ctx, k).Some?;
    if IsPlainObject(v) {
      assert Lookup(r, k).Some?;
    } else {
      var key := if v.Arr? then ResultsKey else ValuesKey;
      assert Lookup(r, k).Some? by {
        if k == key {
          assert Lookup(r, key).Some?;
        } else {
          assert Lookup(r, k) == Lookup(ctx, k);
        }
      }
    }
  }

  /** Two arrays merged one after the other land in `results` in order, after what was there. */
  lemma ArraysAppendInOrder(ctx: Entries, a: seq<Value>, b: seq<Value>)
    requires MergeContext(ctx, Arr(a)).Ok?
    ensures var first := MergeContext(ctx, Arr(a)).value;
      && MergeContext(first, Arr(b)).Ok?
      && Lookup(MergeContext(first, Arr(b)).value, ResultsKey) == Some(Arr(ListOf(ctx, ResultsKey) + a + b))
  {
    var first := MergeContext(ctx, Arr(a)).value;
    assert Member(Obj(first), ResultsKey) == Arr(ListOf(ctx, ResultsKey) + a);
    assert ListOf(ctx, ResultsKey) + a + b == (ListOf(ctx, ResultsKey) + a) + b;
  }

  /** A value that is neither a plain object nor an array is kept whole, as the last element of `values`. */
  lemma ScalarJoinsValues(ctx: Entries, v: Value)
    requires !IsPlainObject(v) && !v.Arr?
    requires !Truthy(Member(Obj(ctx), ValuesKey)) || Member(Obj(ctx), ValuesKey).Arr?
    ensures MergeContext(ctx, v).Ok?
    ensures var list := Lookup(MergeContext(ctx, v).value, ValuesKey);
      list.Some? && list.value.Arr? && |list.value.elems| > 0 && list.value.elems[|list.value.elems| - 1] == v
  {
  }

  // ---------------------------------------------------------------------------
  // runBatch
  // ---------------------------------------------------------------------------

  /** The entry a sub-goal run contributes: its context, or `{ error: String(e) }`. */
  function BatchEntry(run: Result<Entries, JsError>): Entries {
    match run
    case Ok(ctx) => ctx
    case Err(e) => [(ErrorKey, Str(ErrorText(e)))]
  }

  datatype Batch = Batch(outcome: Result<seq<Entries>, JsError>, session: Session)

  /**
   `runBatch`: without a browser it throws before starting anything;
   otherwise each goal runs in its own context and contributes one entry,
   in goal order.
   */
  function RunBatch(goals: seq<Value>, w: World, s: Session): (r: Batch)
    ensures !w.hasBrowser ==> r == Batch(Err(NoBrowser), s)
    ensures w.hasBrowser ==>
      && r.outcome.Ok? && |r.outcome.value| == |goals|
      && r.session == s.(subGoals := s.subGoals + goals)
      && forall j | 0 <= j < |goals| ::
           r.session.subGoals[|s.subGoals| + j] == goals[j] &&
           r.outcome.value[j] == BatchEntry(w.subGoalRuns(|s.subGoals| + j))
  {
    if !w.hasBrowser then Batch(Err(NoBrowser), s)
    else
      var entries := seq(|goals|, j requires 0 <= j < |goals| => BatchEntry(w.subGoalRuns(|s.subGoals| + j)));
      Batch(Ok(entries), s.(subGoals := s.subGoals + goals))
  }

  /** `res && !res.error`: whether a batch entry is merged (every entry is an object, so truthy). */
  predicate Mergeable(res: Entries) {
    !Truthy(Member(Obj(res), ErrorKey))
  }

  /**
   A failed run's entry is dropped unless its error text is empty; a
   successful run's context is dropped when it has a truthy `error` of its own.
   */
  lemma MergeableEntries(run: Result<Entries, JsError>)
    ensures run.Err? ==> (Mergeable(BatchEntry(run)) <==> ErrorText(run.error) == "")
    ensures run.Ok? ==> (Mergeable(BatchEntry(run)) <==> !Truthy(Member(Obj(run.value), ErrorKey)))
  {
  }

  /** The batch entries folded into the context in order, skipping those with a truthy `error`. */
  function MergeBatch(ctx: Entries, results: seq<Entries>): Entries
    decreases |results|
  {
    if results == [] then ctx
    else
      var next := if Mergeable(results[0]) then MergeContext(ctx, Obj(results[0])).value else ctx;
      MergeBatch(next, results[1..])
  }

  /** The value a key ends up with after the batch merge: from the last merged entry that has it, else the context's. */
  function Winner(ctx: Entries, results: seq<Entries>, k: string): Option<Value>
    decreases |results|
  {
    if results == [] then Lookup(ctx, k)
    else
      var last := results[|results| - 1];
      if Mergeable(last) && HasKey(last, k) then Lookup(last, k)
      else Winner(ctx, results[..|results| - 1], k)
  }

  lemma {:induction false} MergeBatchSnoc(ctx: Entries, results: seq<Entries>, x: Entries)
    ensures MergeBatch(ctx, results + [x]) ==
      if Mergeable(x) then MergeContext(MergeBatch(ctx, results), Obj(x)).value else MergeBatch(ctx, results)
    decreases |results|
  {
    if results != [] {
      assert (results + [x])[1..] == results[1..] + [x];
      var next := if Mergeable(results[0]) then MergeContext(ctx, Obj(results[0])).value else ctx;
      MergeBatchSnoc(next, results[1..], x);
    } else {
      assert (results + [x])[1..] == [];
    }
  }

  /** Later sub-goals win: every key of the merged context holds the value of the last merged entry that has it. */
  lemma {:induction false} BatchLaterWins(ctx: Entries, results: seq<Entries>, k: string)
    ensures Lookup(MergeBatch(ctx, results), k) == Winner(ctx, results, k)
    decreases |results|
  {
    if results != [] {
      var init := results[..|results| - 1];
      var last := results[|results| - 1];
      assert results == init + [last];
      MergeBatchSnoc(ctx, init, last);
      BatchLaterWins(ctx, init, k);
    }
  }

  /** A batch in which every entry is dropped leaves the context exactly as it was. */
  lemma {:induction false} AllDroppedKeepsContext(ctx: Entries, results: seq<Entries>)
    requires forall j | 0 <= j < |results| :: !Mergeable(results[j])
    ensures MergeBatch(ctx, results) == ctx
    decreases |results|
  {
    if results != [] {
      assert !Mergeable(results[0]);
      AllDroppedKeepsContext(ctx, results[1..]);
    }
  }

  // ---------------------------------------------------------------------------
  // The plan loop
  // ---------------------------------------------------------------------------

  /** The TypeError a strict-mode assignment to a property of a primitive throws. */
  function CannotCreate(key: string, v: Value): JsError {
    TypeError("Cannot create property '" + key + "' on " + TypeofName(v) + " '" + ToJsString(v) + "'")
  }

  /**
   The description defaulting before a task runs: a falsy `description`
   takes a truthy `params?.description`, else `Execute <type> action`. Reading
   a property of a null or undefined task throws, and so does writing one
   on a primitive.
   */
  function PrepareTask(task: Value): (r: Result<Task, JsError>)
    ensures r.Err? <==> IsNullish(task) || (!Truthy(Member(task, "description")) && !IsObject(task))
    ensures r.Ok? ==> r.value.kind == Member(task, "type") && r.value.params == Member(task, "params")
    ensures r.Ok? ==> Truthy(r.value.description)
    ensures r.Ok? && Truthy(Member(task, "description")) ==> r.value.description == Member(task, "description")
    ensures r.Ok? && !Truthy(Member(task, "description")) && Truthy(OptionalMember(Member(task, "params"), "description")) ==>
      r.value.description == OptionalMember(Member(task, "params"), "description")
    ensures r.Ok? && !Truthy(Member(task, "description")) && !Truthy(OptionalMember(Member(task, "params"), "description")) ==>
      r.value.description == Str("Execute " + ToJsString(Member(task, "type")) + " action")
  {
    match GetProp(task, "description")
    case Err(e) => Err(e)
    case Ok(description) =>
      if Truthy(description) then Ok(Task(Member(task, "type"), Member(task, "params"), description))
      else if !IsObject(task) then Err(CannotCreate("description", task))
      else
        var fromParams := OptionalMember(Member(task, "params"), "description");
        var d := if Truthy(fromParams) then fromParams
                 else Str("Execute " + ToJsString(Member(task, "type")) + " action");
        Ok(Task(Member(task, "type"), Member(task, "params"), d))
  }

  /** Every oracle request from position `from` on is a decision request about `goal`. */
  predicate AsksAbout(calls: seq<OracleCall>, from: nat, goal: Value) {
    forall j | from <= j < |calls| :: calls[j].Decide? && calls[j].goal == goal
  }

  /** One plan iteration: how it completed, the context after it, the calls made. */
  datatype TaskStep = TaskStep(outcome: Completion, context: Entries, session: Session)

  /**
   One iteration of the plan loop: the task is prepared and handed to the
   worker with the refined goal as its global goal; a truthy result is merged.
   A throw anywhere leaves the context as it was.
   */
  function RunTask(task: Value, goal: Value, ctx: Entries, w: World, s: Session): (r: TaskStep)
    ensures Extends(s, r.session) && r.session.subGoals == s.subGoals
    ensures |r.session.oracle| - |s.oracle| <= MaxSteps
    ensures r.outcome.Thrown? ==> r.context == ctx
    ensures PrepareTask(task).Err? ==> r == TaskStep(Thrown(PrepareTask(task).error), ctx, s)
    ensures PrepareTask(task).Ok? && !IsNavigation(PrepareTask(task).value) ==>
      AsksAbout(r.session.oracle, |s.oracle|, CombinedGoal(PrepareTask(task).value.description, goal))
  {
    match PrepareTask(task)
    case Err(e) => TaskStep(Thrown(e), ctx, s)
    case Ok(t) =>
      var run := ExecuteTask(t, goal, w, s);
      match run.outcome
      case Err(e) => TaskStep(Thrown(e), ctx, run.state.session)
      case Ok(v) =>
        if !Truthy(v) then TaskStep(Normal, ctx, run.state.session)
        else
          match MergeContext(ctx, v)
          case Err(e) => TaskStep(Thrown(e), ctx, run.state.session)
          case Ok(c) => TaskStep(Normal, c, run.state.session)
  }

  /** A task whose worker run ends with a falsy value (`0`, `""`, null, undefined) leaves the context unchanged. */
  lemma FalsyResultLeavesContext(task: Value, goal: Value, ctx: Entries, w: World, s: Session)
    requires PrepareTask(task).Ok?
    requires var run := ExecuteTask(PrepareTask(task).value, goal, w, s);
      run.outcome.Ok? && !Truthy(run.outcome.value)
    ensures RunTask(task, goal, ctx, w, s).outcome == Normal
    ensures RunTask(task, goal, ctx, w, s).context == ctx
  {
  }

  /** A plan run: how it completed, the context, the calls made, and the index of the task it stopped at. */
  datatype PlanRun = PlanRun(outcome: Completion, context: Entries, session: Session, reached: nat)

  /**
   Tasks `i` .. of the plan, strictly in order: the first task that throws
   ends the run with its error, and the context keeps what earlier tasks merged.
   */
  function RunPlan(plan: seq<Value>, i: nat, goal: Value, ctx: Entries, w: World, s: Session): (r: PlanRun)
    requires i <= |plan|
    ensures i <= r.reached <= |plan|
    ensures r.outcome.Normal? <==> r.reached == |plan|
    ensures Extends(s, r.session) && r.session.subGoals == s.subGoals
    ensures |r.session.oracle| - |s.oracle| <= MaxSteps * (r.reached - i + (if r.outcome.Thrown? then 1 else 0))
    decreases |plan| - i
  {
    if i == |plan| then PlanRun(Normal, ctx, s, i)
    else
      var t := RunTask(plan[i], goal, ctx, w, s);
      match t.outcome
      case Thrown(e) => PlanRun(Thrown(e), ctx, t.session, i)
      case Normal =>
        var r := RunPlan(plan, i + 1, goal, t.context, w, t.session);
        ExtendsTransitive(s, t.session, r.session);
        r
  }

  /**
   The first task that throws aborts the rest: the plan run ends with that
   error, the context as the earlier tasks left it, and no call after the
   failing task's own.
   */
  lemma FirstFailureAborts(plan: seq<Value>, i: nat, goal: Value, ctx: Entries, w: World, s: Session)
    requires i < |plan|
    requires RunTask(plan[i], goal, ctx, w, s).outcome.Thrown?
    ensures var t := RunTask(plan[i], goal, ctx, w, s);
      RunPlan(plan, i, goal, ctx, w, s) == PlanRun(t.outcome, ctx, t.session, i)
  {
  }

  /** A task that completes hands its context and session on to the next task. */
  lemma CompletedTaskContinues(plan: seq<Value>, i: nat, goal: Value, ctx: Entries, w: World, s: Session)
    requires i < |plan|
    requires RunTask(plan[i], goal, ctx, w, s).outcome.Normal?
    ensures var t := RunTask(plan[i], goal, ctx, w, s);
      RunPlan(plan, i, goal, ctx, w, s) == RunPlan(plan, i + 1, goal, t.context, w, t.session)
  {
  }

  /** No task ever removes a key from the context. */
  lemma {:induction false} PlanKeepsKeys(plan: seq<Value>, i: nat, goal: Value, ctx: Entries, w: World, s: Session, k: string)
    requires i <= |plan| && HasKey(ctx, k)
    ensures HasKey(RunPlan(plan, i, goal, ctx, w, s).context, k)
    decreases |plan| - i
  {
    if i < |plan| {
      var t := RunTask(plan[i], goal, ctx, w, s);
      if t.outcome.Normal? {
        if t.context != ctx {
          var run := ExecuteTask(PrepareTask(plan[i]).value, goal, w, s);
          MergeKeepsKeys(ctx, run.outcome.value, k);
        }
        PlanKeepsKeys(plan, i + 1, goal, t.context, w, t.session, k);
      }
    }
  }

  // ---------------------------------------------------------------------------
  // execute
  // ---------------------------------------------------------------------------

  /** An `execute` call: its outcome, the instance's context afterwards, the calls made. */
  datatype Execution = Execution(outcome: Result<Value, JsError>, context: Entries, session: Session)

  /** The goal a single-goal run plans for: the first sub-goal (undefined when there is none). */
  function RefinedGoal(subGoals: seq<Value>): Value {
    if subGoals == [] then Undefined else subGoals[0]
  }

  /**
   The batch path of `execute`: the sub-goals run as a batch, and the
   entries without a truthy `error` are merged in order.
   */
  function ExecuteBatch(subGoals: seq<Value>, ctx: Entries, w: World, s: Session): (r: Execution)
    ensures r.session.oracle == s.oracle && r.session.page == s.page && r.session.dumps == s.dumps
    ensures IsPrefix(s.subGoals, r.session.subGoals)
    ensures !w.hasBrowser ==> r == Execution(Err(NoBrowser), ctx, s)
    ensures w.hasBrowser ==> r.outcome == Ok(Obj(r.context))
  {
    var b := RunBatch(subGoals, w, s);
    match b.outcome
    case Err(e) => Execution(Err(e), ctx, b.session)
    case Ok(results) =>
      var merged := MergeBatch(ctx, results);
      Execution(Ok(Obj(merged)), merged, b.session)
  }

  /**
   Listing the plan before it runs reads the `type` of every step in order;
   that read throws at the first null or undefined step. The result is the
   error thrown, if any.
   */
  function ListPlan(plan: seq<Value>): (r: Option<JsError>)
    ensures r.None? <==> forall j | 0 <= j < |plan| :: !IsNullish(plan[j])
    ensures r.Some? ==> exists j | 0 <= j < |plan| ::
      && IsNullish(plan[j])
      && (forall i | 0 <= i < j :: !IsNullish(plan[i]))
      && r.value == CannotRead(plan[j], "type")
  {
    if plan == [] then None
    else
      match GetProp(plan[0], "type")
      case Err(e) => Some(e)
      case Ok(_) =>
        var r := ListPlan(plan[1..]);
        assert forall j | 1 <= j < |plan| :: plan[j] == plan[1..][j - 1];
        if r.Some? then
          var j :| 0 <= j < |plan[1..]| && IsNullish(plan[1..][j])
                   && (forall i | 0 <= i < j :: !IsNullish(plan[1..][i]))
                   && r.value == CannotRead(plan[1..][j], "type");
          assert IsNullish(plan[j + 1]) && forall i | 0 <= i < j + 1 :: !IsNullish(plan[i]);
          r
        else r
  }

  /**
   The single-goal path of `execute`: one plan request for the refined
   goal; an empty plan, or a plan with a null or undefined step, throws
   before any task runs.
   */
  function ExecutePlan(refined: Value, ctx: Entries, w: World, s: Session): (r: Execution)
    ensures Extends(s, r.session) && r.session.subGoals == s.subGoals
    ensures |r.session.oracle| > |s.oracle| && r.session.oracle[|s.oracle|] == PlanFor(refined)
    ensures r.outcome.Ok? ==> r.outcome.value == Obj(r.context)
    ensures var plan := GeneratePlan(w.replies(|s.oracle|));
      plan != [] && ListPlan(plan).Some? ==>
        r == Execution(Err(ListPlan(plan).value), ctx, s.(oracle := s.oracle + [PlanFor(refined)]))
  {
    var p := Ask(w, s, PlanFor(refined));
    var plan := GeneratePlan(p.reply);
    if |plan| == 0 then Execution(Err(NoPlan), ctx, p.session)
    else if ListPlan(plan).Some? then Execution(Err(ListPlan(plan).value), ctx, p.session)
    else
      var run := RunPlan(plan, 0, refined, ctx, w, p.session);
      assert Extends(s, p.session) by {
        assert p.session.oracle[..|s.oracle|] == s.oracle;
      }
      ExtendsTransitive(s, p.session, run.session);
      assert run.session.oracle[|s.oracle|] == run.session.oracle[..|p.session.oracle|][|s.oracle|];
      Execution(if run.outcome.Normal? then Ok(Obj(run.context)) else Err(run.outcome.error), run.context, run.session)
  }

  /**
   `execute(goal)` on an instance whose context is `ctx`: decompose; run
   more than one sub-goal as a batch, otherwise plan the first one. A
   normal completion returns the context itself.
   */
  function Execute(goal: string, ctx: Entries, w: World, s: Session): (r: Execution)
    ensures Extends(s, r.session)
    ensures |r.session.oracle| > |s.oracle| && r.session.oracle[|s.oracle|] == DecomposeFor(Str(goal))
    ensures r.outcome.Ok? ==> r.outcome.value == Obj(r.context)
  {
    var d := Ask(w, s, DecomposeFor(Str(goal)));
    var subGoals := DecomposeComplexGoal(Str(goal), d.reply);
    assert Extends(s, d.session) by {
      assert d.session.oracle[..|s.oracle|] == s.oracle;
    }
    var r := if |subGoals| > 1 then ExecuteBatch(subGoals, ctx, w, d.session)
             else ExecutePlan(RefinedGoal(subGoals), ctx, w, d.session);
    ExtendsTransitive(s, d.session, r.session);
    assert r.session.oracle[|s.oracle|] == r.session.oracle[..|d.session.oracle|][|s.oracle|];
    r
  }

  /** The batch entries of the sub-goal runs that start at position `from` of the run log. */
  function Entries(n: nat, from: nat, w: World): (r: seq<Entries>)
    ensures |r| == n
  {
    seq(n, j requires 0 <= j < n => BatchEntry(w.subGoalRuns(from + j)))
  }

  /**
   With a browser, the batch path returns the merged context, in which
   every key holds the value of the last merged sub-goal entry that has it,
   else the value the context had.
   */
  lemma BatchContext(subGoals: seq<Value>, ctx: Entries, w: World, s: Session, k: string)
    requires w.hasBrowser
    ensures var r := ExecuteBatch(subGoals, ctx, w, s);
      && r.session.subGoals == s.subGoals + subGoals
      && Lookup(r.context, k) == Winner(ctx, Entries(|subGoals|, |s.subGoals|, w), k)
  {
    var b := RunBatch(subGoals, w, s);
    assert b.outcome.value == Entries(|subGoals|, |s.subGoals|, w);
    BatchLaterWins(ctx, b.outcome.value, k);
  }

  /** The entries of runs that all failed with a non-empty error text are all dropped. */
  lemma FailedEntriesDropped(n: nat, from: nat, w: World)
    requires forall m | from <= m < from + n :: w.subGoalRuns(m).Err? && ErrorText(w.subGoalRuns(m).error) != ""
    ensures forall j | 0 <= j < n :: !Mergeable(Entries(n, from, w)[j])
  {
    forall j | 0 <= j < n ensures !Mergeable(Entries(n, from, w)[j]) {
      MergeableEntries(w.subGoalRuns(from + j));
    }
  }

  /**
   A batch in which every sub-goal run failed with a non-empty error text
   merges nothing: on a fresh instance `execute` returns `{}` rather than
   throwing.
   */
  lemma AllFailedBatchIsEmpty(subGoals: seq<Value>, w: World, s: Session)
    requires w.hasBrowser
    requires forall n | |s.subGoals| <= n < |s.subGoals| + |subGoals| ::
      w.subGoalRuns(n).Err? && ErrorText(w.subGoalRuns(n).error) != ""
    ensures ExecuteBatch(subGoals, [], w, s).outcome == Ok(Obj([]))
  {
    var results := Entries(|subGoals|, |s.subGoals|, w);
    assert RunBatch(subGoals, w, s).outcome.value == results;
    FailedEntriesDropped(|subGoals|, |s.subGoals|, w);
    AllDroppedKeepsContext([], results);
  }

  /** An empty plan throws before any task runs: one plan request, and nothing else is asked or done. */
  lemma EmptyPlanThrows(refined: Value, ctx: Entries, w: World, s: Session)
    requires GeneratePlan(w.replies(|s.oracle|)) == []
    ensures ExecutePlan(refined, ctx, w, s) == Execution(Err(NoPlan), ctx, s.(oracle := s.oracle + [PlanFor(refined)]))
  {
  }

  /** Listing a plan that has a null or undefined step throws, at that step or an earlier one. */
  lemma FirstNullStep(plan: seq<Value>, k: nat)
    requires k < |plan| && IsNullish(plan[k])
    ensures ListPlan(plan).Some?
    ensures exists j | 0 <= j <= k :: IsNullish(plan[j]) && ListPlan(plan).value == CannotRead(plan[j], "type")
  {
    var e := ListPlan(plan);
    var j :| 0 <= j < |plan| && IsNullish(plan[j]) && (forall i | 0 <= i < j :: !IsNullish(plan[i]))
             && e.value == CannotRead(plan[j], "type");
    assert j <= k;
  }

  /**
   A plan with a null or undefined step throws the TypeError of reading
   that step's `type` before any task runs: the context is untouched and
   no snapshot, page interaction or further oracle request is made.
   */
  lemma NullStepThrowsBeforeTasks(refined: Value, ctx: Entries, w: World, s: Session, k: nat)
    requires var plan := GeneratePlan(w.replies(|s.oracle|));
      k < |plan| && IsNullish(plan[k])
    ensures var plan := GeneratePlan(w.replies(|s.oracle|));
      var r := ExecutePlan(refined, ctx, w, s);
      && r.context == ctx
      && r.session == s.(oracle := s.oracle + [PlanFor(refined)])
      && exists j | 0 <= j <= k :: IsNullish(plan[j]) && r.outcome == Err(CannotRead(plan[j], "type"))
  {
    FirstNullStep(GeneratePlan(w.replies(|s.oracle|)), k);
  }

  /**
   The path `execute` takes: with more than one sub-goal only the batch
   runs (no plan request, no page interaction); otherwise the refined goal
   is planned right after the decomposition, and batch runs never start.
   */
  lemma ExecuteDispatch(goal: string, ctx: Entries, w: World, s: Session)
    ensures var subGoals := DecomposeComplexGoal(Str(goal), w.replies(|s.oracle|));
      var r := Execute(goal, ctx, w, s);
      && (|subGoals| > 1 ==>
            && r.session.oracle == s.oracle + [DecomposeFor(Str(goal))]
            && r.session.page == s.page
            && r.session.subGoals == (if w.hasBrowser then s.subGoals + subGoals else s.subGoals))
      && (|subGoals| <= 1 ==>
            && |r.session.oracle| > |s.oracle| + 1
            && r.session.oracle[|s.oracle| + 1] == PlanFor(RefinedGoal(subGoals))
            && r.session.subGoals == s.subGoals)
  {
    var d := Ask(w, s, DecomposeFor(Str(goal)));
    var subGoals := DecomposeComplexGoal(Str(goal), d.reply);
    if |subGoals| > 1 {
      assert Execute(goal, ctx, w, s) == ExecuteBatch(subGoals, ctx, w, d.session);
      var b := RunBatch(subGoals, w, d.session);
    } else {
      var p := ExecutePlan(RefinedGoal(subGoals), ctx, w, d.session);
      assert Execute(goal, ctx, w, s) == p;
      assert p.session.oracle[|s.oracle| + 1] == PlanFor(RefinedGoal(subGoals));
    }
  }

  lemma {:induction false} BatchKeepsKeys(ctx: Entries, results: seq<Entries>, k: string)
    requires HasKey(ctx, k)
    ensures HasKey(MergeBatch(ctx, results), k)
    decreases |results|
  {
    if results != [] {
      if Mergeable(results[0]) {
        MergeKeepsKeys(ctx, Obj(results[0]), k);
      }
      var next := if Mergeable(results[0]) then MergeContext(ctx, Obj(results[0])).value else ctx;
      BatchKeepsKeys(next, results[1..], k);
    }
  }

  /**
   The context is never reset: whatever `execute` does, thrown or not,
   every key the instance's context had before the call is still there.
   */
  lemma ExecuteKeepsKeys(goal: string, ctx: Entries, w: World, s: Session, k: string)
    requires HasKey(ctx, k)
    ensures HasKey(Execute(goal, ctx, w, s).context, k)
  {
    var d := Ask(w, s, DecomposeFor(Str(goal)));
    var subGoals := DecomposeComplexGoal(Str(goal), d.reply);
    if |subGoals| > 1 {
      var b := RunBatch(subGoals, w, d.session);
      if b.outcome.Ok? {
        BatchKeepsKeys(ctx, b.outcome.value, k);
      }
    } else {
      var p := Ask(w, d.session, PlanFor(RefinedGoal(subGoals)));
      var plan := GeneratePlan(p.reply);
      if |plan| > 0 && ListPlan(plan).None? {
        PlanKeepsKeys(plan, 0, RefinedGoal(subGoals), ctx, w, p.session, k);
      }
    }
  }
}
