/**
 The worker (node/src/core/PagePilot.ts): one plan task run as a bounded
 observe-decide-act loop. Each step captures a snapshot (with retries), asks
 the oracle for a decision, records it in the action history, folds any
 extracted result into the collected data, and then stops (`fail`, `done`)
 or performs the action on the page. Interaction failures are reported back
 to the oracle through the history instead of ending the task.
 */
module AgentLoop {
  import opened Outcomes
  import opened JsValue
  import opened AccessibilityTree
  import opened OracleReplies
  import opened Environment
  import opened ActionHistory

  /** Decisions per task before the loop gives up and returns what it has. */
  const MaxSteps: nat := 5

  /** Snapshot attempts per step. */
  const SnapshotAttempts: nat := 3

  /** A plan task as the worker reads it: its `type`, `params` and `description` properties. */
  datatype Task = Task(kind: Value, params: Value, description: Value)

  // ---------------------------------------------------------------------------
  // getSnapshotWithRetry
  // ---------------------------------------------------------------------------

  /** Attempts `attempt`, `attempt + 1`, ... until one yields a snapshot or the attempts run out. */
  function SnapshotFrom(w: World, s: Session, attempt: nat): (r: Observed)
    requires attempt < SnapshotAttempts
    ensures s.dumps < r.session.dumps <= s.dumps + (SnapshotAttempts - attempt)
    ensures r.session == s.(dumps := r.session.dumps)
    ensures r.snapshot == w.snapshots(r.session.dumps - 1)
    ensures forall n | s.dumps <= n < r.session.dumps - 1 :: w.snapshots(n).None?
    ensures r.snapshot.None? ==> r.session.dumps == s.dumps + (SnapshotAttempts - attempt)
    decreases SnapshotAttempts - attempt
  {
    var o := Observe(w, s);
    if o.snapshot.Some? || attempt + 1 == SnapshotAttempts then o
    else SnapshotFrom(w, o.session, attempt + 1)
  }

  /**
   `getSnapshotWithRetry`: the first of up to three consecutive dumps that
   yields a snapshot; absent exactly when all three fail. Only the dump
   counter of the session moves.
   */
  function GetSnapshotWithRetry(w: World, s: Session): (r: Observed)
    ensures s.dumps < r.session.dumps <= s.dumps + SnapshotAttempts
    ensures r.session == s.(dumps := r.session.dumps)
    ensures r.snapshot.None? <==>
      forall n | s.dumps <= n < s.dumps + SnapshotAttempts :: w.snapshots(n).None?
    ensures r.snapshot.Some? ==>
      && r.snapshot == w.snapshots(r.session.dumps - 1)
      && forall n | s.dumps <= n < r.session.dumps - 1 :: w.snapshots(n).None?
  {
    SnapshotFrom(w, s, 0)
  }

  const SnapshotLost: JsError := Error("Failed to capture accessibility snapshot.")

  // ---------------------------------------------------------------------------
  // Goal and history text
  // ---------------------------------------------------------------------------

  const GlobalGoalLabel: string := ". Global Goal: "
  const PassiveScan: string :=
    ". PASSIVE SCAN: If you see the global goal (e.g. price) achieved, extract it and return 'done' IMMEDIATELY."

  /**
   The goal the oracle is asked about: the task's description alone when
   there is no (truthy) global goal, otherwise a text naming the task, the
   global goal and the early-exit instruction.
   */
  function CombinedGoal(description: Value, globalGoal: Value): (g: Value)
    ensures !Truthy(globalGoal) ==> g == description
    ensures Truthy(globalGoal) ==>
      && g.Str?
      && StartsWith(g.s, "Task: " + ToJsString(description))
      && Contains(g.s, GlobalGoalLabel + ToJsString(globalGoal))
      && EndsWith(g.s, PassiveScan)
  {
    if Truthy(globalGoal) then
      var head := "Task: " + ToJsString(description);
      var middle := GlobalGoalLabel + ToJsString(globalGoal);
      var text := head + middle + PassiveScan;
      assert text[..|head|] == head;
      assert OccursAt(text, middle, |head|) by {
        assert text[|head|..|head| + |middle|] == middle;
      }
      assert text[|text| - |PassiveScan|..] == PassiveScan;
      Str(text)
    else description
  }

  // ---------------------------------------------------------------------------
  // Collected data
  // ---------------------------------------------------------------------------

  /**
   Folding a truthy extracted `result` into the collected data: it replaces
   falsy data; two object-typed values are spread together with the new
   result's properties winning; otherwise the new result replaces the old.
   */
  function MergeCollected(collected: Value, result: Value): (r: Value)
    requires Truthy(result)
    ensures Truthy(r)
    ensures !Truthy(collected) ==> r == result
    ensures Truthy(collected) && !(TypeofObject(collected) && TypeofObject(result)) ==> r == result
    ensures Truthy(collected) && TypeofObject(collected) && TypeofObject(result) ==>
      && r.Obj?
      && forall k :: Lookup(r.entries, k) ==
           if HasKey(SpreadSource(result), k) then Lookup(SpreadSource(result), k)
           else Lookup(SpreadSource(collected), k)
  {
    if !Truthy(collected) then result
    else if TypeofObject(collected) && TypeofObject(result) then
      Obj(Spread(SpreadSource(collected), SpreadSource(result)))
    else result
  }

  // ---------------------------------------------------------------------------
  // performAction
  // ---------------------------------------------------------------------------

  function NotFound(selector: Value): JsError {
    Error("Selector '" + ToJsString(selector) + "' not found.")
  }

  function StatusOf(reply: PageReply): Completion {
    if reply.Failed? then Thrown(reply.error) else Normal
  }

  /** The properties of an action `performAction` reads. */
  datatype ActionView = ActionView(kind: Value, selector: Value, text: Value, submit: Value, direction: Value)

  function ViewOf(action: Value): ActionView {
    ActionView(
      Member(action, "type"), Member(action, "selector"), Member(action, "value"),
      Member(action, "submit"), Member(action, "direction"))
  }

  /** `type` of a click or type action: the ones that resolve a selector first. */
  predicate UsesLocator(kind: Value) {
    kind == Str("click") || kind == Str("type")
  }

  /** The interactions that carry out an action once its selector is known to match. */
  function Effect(a: ActionView): seq<PageCall> {
    if a.kind == Str("click") then [Click(a.selector)]
    else if a.kind == Str("type") then
      [Fill(a.selector, a.text)] + (if Truthy(a.submit) then [PressEnter(a.selector)] else [])
    else if a.kind == Str("scroll") then [ScrollPage(Or(a.direction, Str("down")))]
    else []
  }

  /** The page interactions a fully successful action issues: the match count first when it resolves a selector. */
  function PlannedCalls(a: ActionView): seq<PageCall> {
    (if UsesLocator(a.kind) then [Count(a.selector)] else []) + Effect(a)
  }

  /** The page calls recorded after issuing some, and how the last one completed. */
  datatype Issued = Issued(status: Completion, log: seq<PageCall>)

  /**
   Issues `calls` in order after the page calls already in `log`, stopping
   at the first that throws and rethrowing its error: every call before the
   last one issued settled, and the run completes normally only when all
   of `calls` were issued and settled.
   */
  function Issue(w: World, log: seq<PageCall>, calls: seq<PageCall>): (r: Issued)
    ensures IsPrefix(log, r.log) && IsPrefix(r.log, log + calls)
    ensures r.status.Normal? ==> r.log == log + calls
    ensures r.status.Thrown? ==> |r.log| > |log| && w.page(|r.log| - 1) == Failed(r.status.error)
    ensures forall j | |log| <= j < |r.log| - 1 :: w.page(j).Settled?
    ensures r.status.Normal? ==> forall j | |log| <= j < |r.log| :: w.page(j).Settled?
    decreases |calls|
  {
    if calls == [] then Issued(Normal, log)
    else
      var log' := log + [calls[0]];
      if w.page(|log|).Failed? then Issued(Thrown(w.page(|log|).error), log')
      else
        var r := Issue(w, log', calls[1..]);
        assert log' + calls[1..] == log + calls;
        assert r.log[..|log|] == r.log[..|log'|][..|log|];
        r
  }

  /**
   `performAction`, on the page log: click and type first count the
   selector's matches and throw "not found" on zero; type submits with Enter
   only when asked; scroll defaults its direction to down; any other type
   does nothing. A page error is rethrown unchanged.
   */
  function PerformAction(a: ActionView, w: World, log: seq<PageCall>): (r: Issued)
    ensures IsPrefix(log, r.log) && IsPrefix(r.log, log + PlannedCalls(a))
    ensures r.status.Normal? ==> r.log == log + PlannedCalls(a)
    ensures PlannedCalls(a) == [] ==> r == Issued(Normal, log)
    ensures UsesLocator(a.kind) && w.page(|log|) == Settled(0) ==>
      r == Issued(Thrown(NotFound(a.selector)), log + [Count(a.selector)])
    ensures r.status.Thrown? && !(UsesLocator(a.kind) && w.page(|log|) == Settled(0)) ==>
      |r.log| > |log| && w.page(|r.log| - 1) == Failed(r.status.error)
  {
    if UsesLocator(a.kind) then
      var log' := log + [Count(a.selector)];
      assert log' + Effect(a) == log + PlannedCalls(a);
      match w.page(|log|)
      case Failed(e) => Issued(Thrown(e), log')
      case Settled(n) =>
        if n == 0 then Issued(Thrown(NotFound(a.selector)), log')
        else
          var r := Issue(w, log', Effect(a));
          assert r.log[..|log|] == r.log[..|log'|][..|log|];
          r
    else
      assert PlannedCalls(a) == Effect(a);
      Issue(w, log, Effect(a))
  }

  // ---------------------------------------------------------------------------
  // One step of the loop
  // ---------------------------------------------------------------------------

  /** The loop's variables: the action history, the collected data, the calls made. */
  datatype LoopState = LoopState(history: seq<Entry>, collected: Value, session: Session)

  /** A step either lets the loop go on or ends the task with a value or an error. */
  datatype StepResult = Next(state: LoopState) | Finish(outcome: Result<Value, JsError>, state: LoopState)

  /**
   The end of a step whose decision `action` is an object, once its line
   `h` is logged and its result folded into `c`: `fail` throws, `done`
   returns the collected data or else the result, anything else is
   performed, and a failure to perform it is logged rather than thrown.
   */
  function Conclude(i: nat, w: World, h: seq<Entry>, c: Value, action: Value, s: Session): (r: StepResult)
    ensures IsPrefix(h, r.state.history) && |r.state.history| <= |h| + 1
    ensures r.state.collected == c
    ensures r.state.session == s.(page := r.state.session.page) && IsPrefix(s.page, r.state.session.page)
    ensures Member(action, "type") == Str("fail") ==>
      r == Finish(Err(Error("Agent failed: " + ToJsString(Member(action, "reason")))), LoopState(h, c, s))
    ensures Member(action, "type") == Str("done") ==>
      r == Finish(Ok(Or(c, Member(action, "result"))), LoopState(h, c, s))
    ensures Member(action, "type") != Str("fail") && Member(action, "type") != Str("done") ==>
      var p := PerformAction(ViewOf(action), w, s.page);
      && r.Next?
      && r.state.session == s.(page := p.log)
      && r.state.history == h + (if p.status.Thrown? then [ExecFailed(i, p.status.error)] else [])
  {
    var kind := Member(action, "type");
    if kind == Str("fail") then
      Finish(Err(Error("Agent failed: " + ToJsString(Member(action, "reason")))), LoopState(h, c, s))
    else if kind == Str("done") then
      Finish(Ok(Or(c, Member(action, "result"))), LoopState(h, c, s))
    else
      var p := PerformAction(ViewOf(action), w, s.page);
      match p.status
      case Normal => Next(LoopState(h, c, s.(page := p.log)))
      case Thrown(e) =>
        var h' := h + [ExecFailed(i, e)];
        assert h'[..|h|] == h;
        Next(LoopState(h', c, s.(page := p.log)))
  }

  /** How the step reacts to `decision`, the value the oracle's reply became. */
  function React(i: nat, w: World, history: seq<Entry>, collected: Value, decision: Value, s: Session): (r: StepResult)
    ensures IsPrefix(history, r.state.history) && |r.state.history| <= |history| + 2
    ensures r.Next? ==> |r.state.history| > |history|
    ensures r.Finish? && r.outcome.Ok? ==> |r.state.history| == |history| + 1
    ensures r.state.session == s.(page := r.state.session.page) && IsPrefix(s.page, r.state.session.page)
  {
    match GetProp(decision, "action")
    case Err(e) => Finish(Err(e), LoopState(history, collected, s))
    case Ok(action) =>
      match GetProp(action, "type")
      case Err(e) => Finish(Err(e), LoopState(history, collected, s))
      case Ok(kind) =>
        var h := history + [Decided(i, kind, action)];
        assert h[..|history|] == history;
        match HasProperty(action, "result")
        case Err(e) => Finish(Err(e), LoopState(h, collected, s))
        case Ok(has) =>
          var result := Member(action, "result");
          var c := if has && Truthy(result) then MergeCollected(collected, result) else collected;
          var r := Conclude(i, w, h, c, action, s);
          assert r.state.history[..|history|] == r.state.history[..|h|][..|history|];
          r
  }

  /** Reading `decision.action.type` throws before anything is recorded when the decision or its action is missing. */
  lemma MissingActionThrows(i: nat, w: World, history: seq<Entry>, collected: Value, decision: Value, s: Session)
    requires IsNullish(decision) || IsNullish(Member(decision, "action"))
    ensures var r := React(i, w, history, collected, decision, s);
      r.Finish? && r.outcome.Err? && r.state == LoopState(history, collected, s)
  {
  }

  /**
   Any other decision is logged first: the step's line (its description, or
   the failure reason of a `fail`) is the next history entry. A primitive
   action then makes `'result' in action` throw, with nothing else changed.
   */
  lemma DecisionLogged(i: nat, w: World, history: seq<Entry>, collected: Value, decision: Value, s: Session)
    requires !IsNullish(decision) && !IsNullish(Member(decision, "action"))
    ensures var r := React(i, w, history, collected, decision, s);
      var action := Member(decision, "action");
      && |r.state.history| > |history|
      && r.state.history[|history|] == Decided(i, Member(action, "type"), action)
      && (!IsObject(action) ==>
            r.Finish? && r.outcome.Err? && r.state == LoopState(history + [Decided(i, Member(action, "type"), action)], collected, s))
  {
    var r := React(i, w, history, collected, decision, s);
    var action := Member(decision, "action");
    var h := history + [Decided(i, Member(action, "type"), action)];
    if IsObject(action) {
      assert r.state.history[..|h|] == h;
      assert r.state.history[|history|] == r.state.history[..|h|][|history|];
    }
  }

  /**
   An object action folds a truthy `result` into the collected data before
   the step concludes; a falsy or missing one leaves the data as it was.
   */
  lemma ObjectActionConcludes(i: nat, w: World, history: seq<Entry>, collected: Value, decision: Value, s: Session)
    requires IsObject(Member(decision, "action"))
    ensures var action := Member(decision, "action");
      var result := Member(action, "result");
      var c := if Truthy(result) then MergeCollected(collected, result) else collected;
      React(i, w, history, collected, decision, s) ==
        Conclude(i, w, history + [Decided(i, Member(action, "type"), action)], c, action, s)
  {
  }

  /**
   Step `i` of the loop: snapshot (the task fails when every attempt does),
   one oracle request with the current goal and history, then `React`.
   */
  function Step(goal: Value, i: nat, w: World, st: LoopState): (r: StepResult)
    ensures Extends(st.session, r.state.session)
    ensures r.state.session.subGoals == st.session.subGoals
    ensures IsPrefix(st.history, r.state.history)
    ensures |r.state.history| <= |st.history| + 2
    ensures r.Next? ==> |r.state.history| > |st.history|
    ensures r.Finish? && r.outcome.Ok? ==> |r.state.history| == |st.history| + 1
    ensures |r.state.session.oracle| <= |st.session.oracle| + 1
    ensures r.Next? ==> |r.state.session.oracle| == |st.session.oracle| + 1
    ensures |r.state.session.oracle| == |st.session.oracle| + 1 ==>
      var call := r.state.session.oracle[|st.session.oracle|];
      call.Decide? && call.goal == goal && call.history == st.history
    ensures |r.state.session.oracle| == |st.session.oracle| <==>
      GetSnapshotWithRetry(w, st.session).snapshot.None?
    ensures GetSnapshotWithRetry(w, st.session).snapshot.None? ==>
      r == Finish(Err(SnapshotLost), st.(session := GetSnapshotWithRetry(w, st.session).session))
  {
    var o := GetSnapshotWithRetry(w, st.session);
    if o.snapshot.None? then Finish(Err(SnapshotLost), st.(session := o.session))
    else
      var a := Ask(w, o.session, Decide(o.snapshot.value, goal, st.history));
      React(i, w, st.history, st.collected, DetermineNextAction(a.reply), a.session)
  }

  // ---------------------------------------------------------------------------
  // The loop and executeTask
  // ---------------------------------------------------------------------------

  /**
   Every oracle request from position `from` on is a decision request for
   `goal` whose history the final `history` extends.
   */
  predicate DecisionsFrom(calls: seq<OracleCall>, from: nat, goal: Value, history: seq<Entry>) {
    forall j | from <= j < |calls| ::
      calls[j].Decide? && calls[j].goal == goal && IsPrefix(calls[j].history, history)
  }

  lemma DecisionsCompose(goal: Value, o0: seq<OracleCall>, o1: seq<OracleCall>, o2: seq<OracleCall>, h0: seq<Entry>, h2: seq<Entry>)
    requires IsPrefix(o0, o1) && IsPrefix(o1, o2) && |o1| <= |o0| + 1
    requires |o1| == |o0| + 1 ==> o1[|o0|].Decide? && o1[|o0|].goal == goal && o1[|o0|].history == h0
    requires IsPrefix(h0, h2)
    requires DecisionsFrom(o2, |o1|, goal, h2)
    ensures DecisionsFrom(o2, |o0|, goal, h2)
  {
    if |o1| == |o0| + 1 {
      assert o2[|o0|] == o1[|o0|];
    }
  }

  /** How a task run ended: navigation, the step budget running out, or a step finishing it. */
  datatype Exit = Navigated | Exhausted | Stopped

  /** A task run: its outcome, the final loop state, the steps taken and how it ended. */
  datatype TaskRun = TaskRun(outcome: Result<Value, JsError>, state: LoopState, steps: nat, exit: Exit)

  /**
   Steps `i` .. `MaxSteps - 1`. Each step makes at most one oracle request,
   always a decision request for `goal` carrying a history the run only
   extends; every step that lets the loop go on adds at least one history
   line and at most two; running out of steps returns the collected data.
   */
  function Iterate(goal: Value, i: nat, w: World, st: LoopState): (r: TaskRun)
    requires i <= MaxSteps
    ensures i <= r.steps <= MaxSteps
    ensures r.exit != Navigated
    ensures r.exit == Exhausted ==> r.steps == MaxSteps && r.outcome == Ok(r.state.collected)
    ensures r.exit == Stopped ==> i < r.steps
    ensures Extends(st.session, r.state.session)
    ensures r.state.session.subGoals == st.session.subGoals
    ensures IsPrefix(st.history, r.state.history)
    ensures |r.state.history| - |st.history| <= 2 * (r.steps - i)
    ensures r.steps - i <= |r.state.history| - |st.history| + (if r.outcome.Err? then 1 else 0)
    ensures r.steps - i - 1 <= |r.state.session.oracle| - |st.session.oracle| <= r.steps - i
    ensures r.exit == Exhausted ==> |r.state.session.oracle| - |st.session.oracle| == MaxSteps - i
    ensures DecisionsFrom(r.state.session.oracle, |st.session.oracle|, goal, r.state.history)
    decreases MaxSteps - i
  {
    if i == MaxSteps then TaskRun(Ok(st.collected), st, MaxSteps, Exhausted)
    else
      var step := Step(goal, i, w, st);
      match step
      case Finish(outcome, st') =>
        TaskRun(outcome, st', i + 1, Stopped)
      case Next(st') =>
        var r := Iterate(goal, i + 1, w, st');
        ExtendsTransitive(st.session, st'.session, r.state.session);
        PrefixTransitive(st.history, st'.history, r.state.history);
        DecisionsCompose(goal, st.session.oracle, st'.session.oracle, r.state.session.oracle, st.history, r.state.history);
        r
  }

  /** The worker's navigation shortcut: a `navigate` task with a truthy `params?.url`. */
  predicate IsNavigation(task: Task) {
    task.kind == Str("navigate") && Truthy(OptionalMember(task.params, "url"))
  }

  /**
   `executeTask`: a navigation task only loads the URL (no snapshot, no
   oracle request) and returns undefined; any other task runs the loop from
   an empty history and null collected data, asking about the combined goal.
   */
  function ExecuteTask(task: Task, globalGoal: Value, w: World, s: Session): (r: TaskRun)
    ensures Extends(s, r.state.session) && r.state.session.subGoals == s.subGoals
    ensures r.steps <= MaxSteps
    ensures |r.state.session.oracle| - |s.oracle| <= MaxSteps
    ensures IsNavigation(task) ==>
      var url := OptionalMember(task.params, "url");
      && r.exit == Navigated && r.steps == 0
      && r.state.session.oracle == s.oracle && r.state.session.dumps == s.dumps
      && IsPrefix(r.state.session.page, s.page + [Goto(url), WaitLoaded])
      && (r.outcome.Ok? <==> r.state.session.page == s.page + [Goto(url), WaitLoaded] &&
                             w.page(|s.page|).Settled? && w.page(|s.page| + 1).Settled?)
      && (r.outcome.Ok? ==> r.outcome.value == Undefined)
    ensures !IsNavigation(task) ==>
      && r.exit != Navigated
      && (r.exit == Exhausted ==> r.outcome == Ok(r.state.collected))
      && DecisionsFrom(r.state.session.oracle, |s.oracle|, CombinedGoal(task.description, globalGoal), r.state.history)
  {
    if IsNavigation(task) then
      var url := OptionalMember(task.params, "url");
      var g := Interact(w, s, Goto(url));
      if g.reply.Failed? then TaskRun(Err(g.reply.error), LoopState([], Null, g.session), 0, Navigated)
      else
        var l := Interact(w, g.session, WaitLoaded);
        TaskRun(if l.reply.Failed? then Err(l.reply.error) else Ok(Undefined), LoopState([], Null, l.session), 0, Navigated)
    else
      Iterate(CombinedGoal(task.description, globalGoal), 0, w, LoopState([], Null, s))
  }

  // ---------------------------------------------------------------------------
  // Properties
  // ---------------------------------------------------------------------------

  /**
   A `done` decision met while nothing has been collected yet (as at the
   first step) returns that decision's `result` as it stands, falsy or not.
   */
  lemma FirstDecisionDone(i: nat, w: World, history: seq<Entry>, decision: Value, s: Session)
    requires IsObject(Member(decision, "action"))
    requires Member(Member(decision, "action"), "type") == Str("done")
    ensures React(i, w, history, Null, decision, s).outcome == Ok(Member(Member(decision, "action"), "result"))
  {
  }

  /** Two extracted objects accumulate: a key only the earlier one has survives the merge. */
  lemma ExtractionsAccumulate(first: Entries, second: Entries, k: string)
    requires HasKey(first, k) && !HasKey(second, k)
    ensures Lookup(MergeCollected(MergeCollected(Null, Obj(first)), Obj(second)).entries, k) == Lookup(first, k)
  {
  }
}
