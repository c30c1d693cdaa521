/**
 The two opaque capabilities the engine drives, as scripts: the page (the
 snapshots its accessibility tree yields and the outcome of each
 interaction) and the oracle
 (one completion reply per request), plus the outcome of each sub-goal run
 in an isolated browser context. A `Session` counts and records the calls
 made so far; the n-th call of a kind receives the n-th scripted answer.
 */
module Environment {
  import opened Outcomes
  import opened JsValue
  import opened AccessibilityTree
  import opened OracleReplies
  import opened ActionHistory

  /** A page interaction the engine issues. */
  datatype PageCall =
    | Goto(url: Value)
    | WaitLoaded
    | Count(selector: Value)
    | Click(selector: Value)
    | Fill(selector: Value, text: Value)
    | PressEnter(selector: Value)
    | ScrollPage(direction: Value)

  /**
   The page's answer to one interaction: it settles (with the match count,
   which only a `Count` reads) or it throws.
   */
  datatype PageReply = Settled(count: nat) | Failed(error: JsError)

  /** An oracle request the engine issues, with the inputs that shape its prompt. */
  datatype OracleCall =
    | Decide(snapshot: Snapshot, goal: Value, history: seq<Entry>)
    | SelectorFor(snapshot: Snapshot, goalText: string)
    | PlanFor(goal: Value)
    | DecomposeFor(goal: Value)

  /**
   The scripted world: the n-th result of `getAccessibilityTree` on the
   page (`None` for its null; `AccessibilityTree.GetAccessibilityTree` says
   how such a result is built from a platform dump), the n-th oracle reply,
   the n-th page answer, the outcome of the n-th sub-goal run (the context
   it returned, or the error it ended with), and whether the page belongs to
   a browser that can open new contexts.
   */
  datatype World = World(
    snapshots: nat -> Option<Snapshot>,
    replies: nat -> Reply,
    page: nat -> PageReply,
    subGoalRuns: nat -> Result<Entries, JsError>,
    hasBrowser: bool)

  /**
   The calls made so far: snapshot attempts, oracle requests, page
   interactions, and the goals handed to sub-goal runs.
   */
  datatype Session = Session(dumps: nat, oracle: seq<OracleCall>, page: seq<PageCall>, subGoals: seq<Value>)

  /** Session `s2` extends `s1`: every record of `s1` is kept and counters only grow. */
  predicate Extends(s1: Session, s2: Session) {
    && s1.dumps <= s2.dumps
    && IsPrefix(s1.oracle, s2.oracle)
    && IsPrefix(s1.page, s2.page)
    && IsPrefix(s1.subGoals, s2.subGoals)
  }

  lemma ExtendsTransitive(a: Session, b: Session, c: Session)
    requires Extends(a, b) && Extends(b, c)
    ensures Extends(a, c)
  {
    PrefixTransitive(a.oracle, b.oracle, c.oracle);
    PrefixTransitive(a.page, b.page, c.page);
    PrefixTransitive(a.subGoals, b.subGoals, c.subGoals);
  }

  datatype Observed = Observed(snapshot: Option<Snapshot>, session: Session)
  datatype Asked = Asked(reply: Reply, session: Session)
  datatype Interacted = Interacted(reply: PageReply, session: Session)

  /** One accessibility snapshot attempt: the next scripted snapshot, or none. */
  function Observe(w: World, s: Session): Observed {
    Observed(w.snapshots(s.dumps), s.(dumps := s.dumps + 1))
  }

  /** One oracle request: recorded, answered with the next scripted reply. */
  function Ask(w: World, s: Session, call: OracleCall): Asked {
    Asked(w.replies(|s.oracle|), s.(oracle := s.oracle + [call]))
  }

  /** One page interaction: recorded, answered with the next scripted page reply. */
  function Interact(w: World, s: Session, call: PageCall): Interacted {
    Interacted(w.page(|s.page|), s.(page := s.page + [call]))
  }
}
