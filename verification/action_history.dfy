/**
 The action history of a task (node/src/core/PagePilot.ts): one line per
 decision taken and one per action that failed on the page. The loop keeps
 each line as what it records; `Line` gives the exact text the oracle is
 shown for it.
 */
module ActionHistory {
  import opened JsValue

  /** A history line: the decision of a step, or the error its action threw. */
  datatype Entry =
    | Decided(step: nat, kind: Value, action: Value)
    | ExecFailed(step: nat, error: JsError)

  const InvalidSelectorTip: string :=
    " You generated invalid Playwright syntax. Review the RULES in your instructions. Do not mix 'role=' and CSS without '>>'."
  const AmbiguityTip: string :=
    " AMBIGUITY ERROR: Your selector matched multiple elements. You MUST make it unique. Use a parent container (e.g. '#filters >> ...') OR append '>> nth=0' to pick the first one."
  const RetryAdvice: string := " Try a simpler or more specific selector."

  /** The label that opens the lines of step `i` (counted from zero): `Step <i + 1>`. */
  function StepLabel(i: nat): string {
    "Step " + NatToString(i + 1)
  }

  /** The line recording decision `action` (of type `kind`) at step `i`. */
  function DecisionLine(i: nat, kind: Value, action: Value): string {
    StepLabel(i) +
    (if kind != Str("fail") then ": " + ToJsString(Member(action, "description"))
     else ": Failed - " + ToJsString(Member(action, "reason")))
  }

  /**
   The corrective tip for an interaction error: the ambiguity tip for a
   strict-mode violation (checked last, so it wins when both match), the
   syntax tip for an invalid selector, none otherwise.
   */
  function Tip(e: JsError): (t: string)
    ensures Contains(e.message, "strict mode violation") ==> t == AmbiguityTip
    ensures !Contains(e.message, "strict mode violation") && Contains(e.message, "InvalidSelector") ==> t == InvalidSelectorTip
    ensures !Contains(e.message, "strict mode violation") && !Contains(e.message, "InvalidSelector") ==> t == ""
  {
    var invalid := if e.message != "" && Contains(e.message, "InvalidSelector") then InvalidSelectorTip else "";
    if e.message != "" && Contains(e.message, "strict mode violation") then AmbiguityTip else invalid
  }

  /** The opening of a failure line: the step and the error as `String(error)` prints it. */
  function FailureHead(i: nat, e: JsError): string {
    StepLabel(i) + " Execution Failed: " + ErrorText(e) + "."
  }

  /** The line recording that the action of step `i` threw `e`. */
  function FailureLine(i: nat, e: JsError): string {
    FailureHead(i, e) + Tip(e) + RetryAdvice
  }

  /** The text of a history line. */
  function Line(e: Entry): string {
    match e
    case Decided(i, kind, action) => DecisionLine(i, kind, action)
    case ExecFailed(i, error) => FailureLine(i, error)
  }

  /** The texts of a history, in order. */
  function Lines(h: seq<Entry>): seq<string> {
    seq(|h|, k requires 0 <= k < |h| => Line(h[k]))
  }

  /**
   A decision line names its step and then the decision's description, or
   for a `fail` the failure reason.
   */
  lemma DecisionLineText(i: nat, kind: Value, action: Value)
    ensures StartsWith(DecisionLine(i, kind, action), StepLabel(i) + ": ")
    ensures kind != Str("fail") ==>
      EndsWith(DecisionLine(i, kind, action), ": " + ToJsString(Member(action, "description")))
    ensures kind == Str("fail") ==>
      EndsWith(DecisionLine(i, kind, action), ": Failed - " + ToJsString(Member(action, "reason")))
  {
    var line := DecisionLine(i, kind, action);
    var tail := if kind != Str("fail") then ": " + ToJsString(Member(action, "description"))
                else ": Failed - " + ToJsString(Member(action, "reason"));
    assert line == StepLabel(i) + tail;
    assert line[..|StepLabel(i)| + 2] == StepLabel(i) + ": ";
    assert line[|line| - |tail|..] == tail;
  }

  /** The three parts of `a + b + c` sit where they were put. */
  lemma Parts(a: string, b: string, c: string)
    ensures StartsWith(a + b + c, a)
    ensures OccursAt(a + b + c, b, |a|)
    ensures EndsWith(a + b + c, c)
  {
    var t := a + b + c;
    assert t[..|a|] == a;
    assert t[|a|..|a| + |b|] == b;
    assert t[|t| - |c|..] == c;
  }

  /**
   A failure line names its step and carries the error as `String(error)`
   would print it, then the tip for that error, and ends with the retry
   advice.
   */
  lemma FailureLineText(i: nat, e: JsError)
    ensures StartsWith(FailureLine(i, e), StepLabel(i) + " Execution Failed: " + ErrorText(e) + ".")
    ensures OccursAt(FailureLine(i, e), Tip(e), |FailureHead(i, e)|)
    ensures EndsWith(FailureLine(i, e), RetryAdvice)
  {
    Parts(FailureHead(i, e), Tip(e), RetryAdvice);
  }

  /** Distinct steps give distinct labels, so lines of different steps never share their opening. */
  lemma StepLabelInjective(i: nat, j: nat)
    requires StepLabel(i) == StepLabel(j)
    ensures i == j
  {
    assert NatToString(i + 1) == StepLabel(i)[5..];
    assert NatToString(j + 1) == StepLabel(j)[5..];
  }
}
