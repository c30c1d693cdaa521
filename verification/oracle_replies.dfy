/**
 The shape rules that turn one completion reply of the oracle into what the
 engine consumes (node/src/ai/PortkeyProvider.ts): a decision, a selector, a
 task plan or a list of sub-goals. The network call itself is abstracted
 into a `Reply`; every failure is absorbed here and never thrown further.
 */
module OracleReplies {
  import opened Outcomes
  import opened JsValue

  /** What `JSON.parse` makes of a reply's content. */
  datatype ParseOutcome = Parsed(json: Value) | SyntaxError(message: string)

  /**
   One completion request: the client throws, or the first choice's message
   content (`Undefined` when missing) arrives together with the outcome of
   parsing it.
   */
  datatype Reply = Threw(error: JsError) | Answered(content: Value, parse: ParseOutcome)

  /** The content is a non-empty string, the only content the provider parses. */
  predicate HasText(reply: Reply) {
    reply.Answered? && reply.content.Str? && reply.content.s != ""
  }

  /** The reply has text that parses: the value the provider goes on to inspect. */
  predicate Usable(reply: Reply) {
    HasText(reply) && reply.parse.Parsed?
  }

  // ---------------------------------------------------------------------------
  // History text
  // ---------------------------------------------------------------------------

  const NoPreviousActions: string := "No previous actions."
  const HistoryHeader: string := "Action History:\n"

  /** The history paragraph of the decision prompt. */
  function HistoryText(history: seq<string>): (t: string)
    ensures history == [] ==> t == NoPreviousActions
    ensures history != [] ==> StartsWith(t, HistoryHeader)
  {
    if |history| > 0 then HistoryHeader + Join(history, "\n") else NoPreviousActions
  }

  /** The first position of `c` in `s`, if any. */
  function IndexOf(s: string, c: char): (r: Option<nat>)
    ensures r.None? <==> c !in s
    ensures r.Some? ==> r.value < |s| && s[r.value] == c && c !in s[..r.value]
  {
    if s == [] then None
    else if s[0] == c then Some(0)
    else
      match IndexOf(s[1..], c)
      case None => None
      case Some(i) =>
        assert s[..i + 1] == [s[0]] + s[1..][..i];
        Some(i + 1)
  }

  /** `s.split(c)` */
  function Split(s: string, c: char): (r: seq<string>)
    ensures |r| > 0
    decreases |s|
  {
    match IndexOf(s, c)
    case None => [s]
    case Some(i) => [s[..i]] + Split(s[i + 1..], c)
  }

  /** Reads the history entries back out of a history paragraph. */
  function HistoryEntries(t: string): seq<string> {
    if t == NoPreviousActions then []
    else if StartsWith(t, HistoryHeader) then Split(t[|HistoryHeader|..], '\n')
    else [t]
  }

  /** The first `c` in `a + [c] + b` is the one after `a` when `a` has none. */
  lemma {:induction false} IndexOfAfter(a: string, b: string, c: char)
    requires c !in a
    ensures IndexOf(a + [c] + b, c) == Some(|a|)
  {
    if a != [] {
      assert (a + [c] + b)[1..] == a[1..] + [c] + b;
      IndexOfAfter(a[1..], b, c);
    }
  }

  lemma {:induction false} SplitJoin(xs: seq<string>)
    requires xs != []
    requires forall i | 0 <= i < |xs| :: '\n' !in xs[i]
    ensures Split(Join(xs, "\n"), '\n') == xs
  {
    if |xs| == 1 {
    } else {
      var rest := Join(xs[1..], "\n");
      var s := xs[0] + "\n" + rest;
      var n := |xs[0]|;
      assert '\n' !in xs[0];
      IndexOfAfter(xs[0], rest, '\n');
      assert s[..n] == xs[0];
      assert s[n + 1..] == rest;
      SplitJoin(xs[1..]);
    }
  }

  /**
   The history paragraph loses nothing: as long as no entry contains a line
   break, the entries can be read back out of it in order.
   */
  lemma HistoryTextRoundTrip(history: seq<string>)
    requires forall i | 0 <= i < |history| :: '\n' !in history[i]
    ensures HistoryEntries(HistoryText(history)) == history
  {
    if history != [] {
      var t := HistoryText(history);
      assert t[0] == 'A';
      assert t != NoPreviousActions;
      assert t[|HistoryHeader|..] == Join(history, "\n");
      SplitJoin(history);
    }
  }

  // ---------------------------------------------------------------------------
  // determineNextAction
  // ---------------------------------------------------------------------------

  const FailReasoning: string := "Failed to communicate with AI."
  const AiErrorPrefix: string := "AI Error: "

  /** The error the provider catches when a reply is not usable. */
  function ReplyError(reply: Reply): JsError
    requires !Usable(reply)
  {
    if reply.Threw? then reply.error
    else if !HasText(reply) then Error(NoContent)
    else JsError("SyntaxError", reply.parse.message)
  }

  /** The synthetic decision returned instead of throwing. */
  function FailDecision(reason: string): Value {
    Obj([("reasoning", Str(FailReasoning)), ("action", Obj([("type", Str("fail")), ("reason", Str(reason))]))])
  }

  const NoContent: string := "No content from AI"

  lemma NoContentReason()
    ensures ErrorText(Error(NoContent)) == "Error: " + NoContent
  {
    assert Error(NoContent).name == "Error";
    assert NoContent != "" by { assert NoContent[0] == 'N'; }
    assert "Error" + ": " == "Error: ";
  }

  lemma FailDecisionFields(reason: string)
    ensures Member(FailDecision(reason), "reasoning") == Str(FailReasoning)
    ensures Member(Member(FailDecision(reason), "action"), "type") == Str("fail")
    ensures Member(Member(FailDecision(reason), "action"), "reason") == Str(reason)
  {
    var action := Obj([("type", Str("fail")), ("reason", Str(reason))]);
    assert Lookup([("reasoning", Str(FailReasoning)), ("action", action)], "action") == Some(action);
    assert Lookup(action.entries, "reason") == Some(Str(reason));
  }

  /**
   `determineNextAction` never throws: a usable reply yields the parsed value
   as it stands (no shape check), anything else yields the synthetic `fail`
   decision whose reason names the caught error.
   */
  function DetermineNextAction(reply: Reply): (d: Value)
    ensures Usable(reply) ==> d == reply.parse.json
    ensures !Usable(reply) ==>
      && Member(d, "reasoning") == Str(FailReasoning)
      && Member(Member(d, "action"), "type") == Str("fail")
      && Member(Member(d, "action"), "reason") == Str(AiErrorPrefix + ErrorText(ReplyError(reply)))
    ensures reply.Answered? && !HasText(reply) ==>
      Member(Member(d, "action"), "reason") == Str(AiErrorPrefix + "Error: " + NoContent)
  {
    if Usable(reply) then reply.parse.json
    else
      var reason := AiErrorPrefix + ErrorText(ReplyError(reply));
      NoContentReason();
      FailDecisionFields(reason);
      FailDecision(reason)
  }

  // ---------------------------------------------------------------------------
  // generateSelector
  // ---------------------------------------------------------------------------

  /** The reply schema: a plain object with a string `selector` and a numeric `confidence`. */
  predicate SelectorShape(v: Value) {
    v.Obj? && Member(v, "selector").Str? && Member(v, "confidence").Num?
  }

  /**
   `generateSelector`: null on missing content, on a parse error or on a
   schema mismatch, otherwise the parsed `selector` field.
   */
  function GenerateSelector(reply: Reply): (r: Option<string>)
    ensures r.Some? <==> Usable(reply) && SelectorShape(reply.parse.json)
    ensures r.Some? ==> Str(r.value) == Member(reply.parse.json, "selector")
  {
    if Usable(reply) && SelectorShape(reply.parse.json) then
      Some(Member(reply.parse.json, "selector").s)
    else None
  }

  /** A reply carrying `{"selector": s, "confidence": c}` yields `s`, whatever else the object holds after. */
  lemma SelectorRoundTrip(text: string, s: string, c: int, extra: Entries)
    requires text != ""
    ensures GenerateSelector(Answered(Str(text), Parsed(Obj([("selector", Str(s)), ("confidence", Num(c))] + extra)))) == Some(s)
  {
    var o := [("selector", Str(s)), ("confidence", Num(c))] + extra;
    assert o[0] == ("selector", Str(s));
    assert o[1..][0] == ("confidence", Num(c));
    assert Lookup(o, "selector") == Some(Str(s));
    assert Lookup(o, "confidence") == Lookup(o[1..], "confidence") == Some(Num(c));
  }

  // ---------------------------------------------------------------------------
  // generatePlan
  // ---------------------------------------------------------------------------

  /** What `generatePlan` returns for a parsed reply `p`. */
  function PlanOf(p: Value): (r: seq<Value>)
    ensures IsNullish(p) ==> r == []
    ensures !IsNullish(p) && Truthy(Member(p, "tasks")) && Member(p, "tasks").Arr? ==> r == Member(p, "tasks").elems
    ensures !IsNullish(p) && !(Truthy(Member(p, "tasks")) && Member(p, "tasks").Arr?) && p.Arr? ==> r == p.elems
    ensures !p.Obj? && !p.Arr? ==> r == []
    ensures p.Obj? && !Member(p, "tasks").Arr? ==>
      r == (match FirstOwnValue(p.entries) case Some(Arr(xs)) => xs case _ => [])
  {
    match GetProp(p, "tasks")
    case Err(_) => []   // reading `tasks` of null throws; the catch returns []
    case Ok(tasks) =>
      if Truthy(tasks) && tasks.Arr? then tasks.elems
      else if p.Arr? then p.elems
      else if p.Obj? then
        (match FirstOwnValue(p.entries) case Some(Arr(xs)) => xs case _ => [])
      else []   // Object.values of a primitive never starts with an array
  }

  /**
   `generatePlan`: the empty plan when the content is missing or not a
   string, when it does not parse, or when no array is found in it.
   */
  function GeneratePlan(reply: Reply): (r: seq<Value>)
    ensures !HasText(reply) ==> r == []
    ensures HasText(reply) && reply.parse.SyntaxError? ==> r == []
    ensures Usable(reply) ==> r == PlanOf(reply.parse.json)
  {
    if Usable(reply) then PlanOf(reply.parse.json) else []
  }

  /** A reply `{"tasks": [...], ...}` yields its task array. */
  lemma PlanFromTasksKey(text: string, ts: seq<Value>, rest: Entries)
    requires text != "" && ts != []
    ensures GeneratePlan(Answered(Str(text), Parsed(Obj([("tasks", Arr(ts))] + rest)))) == ts
  {
    var o := [("tasks", Arr(ts))] + rest;
    assert o[0] == ("tasks", Arr(ts));
    assert Lookup(o, "tasks") == Some(Arr(ts));
  }

  /** A reply that is a bare non-empty array yields that array. */
  lemma PlanFromBareArray(text: string, ts: seq<Value>)
    requires text != "" && ts != []
    ensures GeneratePlan(Answered(Str(text), Parsed(Arr(ts)))) == ts
  {
    assert !IsArrayIndex("tasks") by { assert !IsDigit('t'); }
  }

  /**
   A reply whose first own value is an array, e.g. `{"plan": [...]}` with no
   `tasks` key and no numeric keys, yields that array.
   */
  lemma PlanFromFirstValue(text: string, ts: seq<Value>, key: string, rest: Entries)
    requires text != "" && ts != []
    requires key != "tasks" && !IsArrayIndex(key)
    requires forall j | 0 <= j < |rest| :: !IsArrayIndex(rest[j].0) && rest[j].0 != "tasks"
    ensures GeneratePlan(Answered(Str(text), Parsed(Obj([(key, Arr(ts))] + rest)))) == ts
  {
    var o := [(key, Arr(ts))] + rest;
    assert forall j | 0 <= j < |o| :: !IsArrayIndex(o[j].0) by {
      forall j | 0 <= j < |o| ensures !IsArrayIndex(o[j].0) {
        if j > 0 { assert o[j] == rest[j - 1]; }
      }
    }
    assert !HasKey(o, "tasks") by {
      forall j | 0 <= j < |o| ensures o[j].0 != "tasks" {
        if j > 0 { assert o[j] == rest[j - 1]; }
      }
    }
    assert FirstOwnValue(o) == Some(Arr(ts));
  }

  // ---------------------------------------------------------------------------
  // decomposeComplexGoal
  // ---------------------------------------------------------------------------

  /**
   `decomposeComplexGoal`: a truthy `goals` array in the parsed reply is
   returned verbatim (no check of its length or of its elements); in every
   other case, errors included, the result is exactly `[goal]`.
   */
  function DecomposeComplexGoal(goal: Value, reply: Reply): (r: seq<Value>)
    ensures Usable(reply) && GetProp(reply.parse.json, "goals").Ok? && GetProp(reply.parse.json, "goals").value.Arr? ==>
      r == GetProp(reply.parse.json, "goals").value.elems
    ensures !(Usable(reply) && !IsNullish(reply.parse.json) && Member(reply.parse.json, "goals").Arr?) ==> r == [goal]
  {
    if Usable(reply) then
      match GetProp(reply.parse.json, "goals")
      case Ok(goals) => if Truthy(goals) && goals.Arr? then goals.elems else [goal]
      case Err(_) => [goal]
    else [goal]
  }

  /** The sub-goal list is empty only when the oracle sent an explicit empty `goals` array. */
  lemma DecomposeEmptyOnlyIfSent(goal: Value, reply: Reply)
    requires DecomposeComplexGoal(goal, reply) == []
    ensures Usable(reply) && reply.parse.json.Obj? && Lookup(reply.parse.json.entries, "goals") == Some(Arr([]))
  {
  }
}
