/**
 The single-goal entry point (node/src/PagePilot.ts, `act`): try the cached
 selector for the goal first; if there is none, or clicking it fails, take
 one snapshot, ask the oracle for a selector, click it, and only then write
 it to the cache.
 */
module SingleAct {
  import opened Outcomes
  import opened JsValue
  import opened OracleReplies
  import opened Environment
  import opened SelectorCache
  import opened AgentLoop

  const NoElement: JsError := Error("AI could not find a suitable element for the goal.")

  /** The error thrown when the oracle's selector cannot be clicked. */
  function ClickFailed(selector: string, e: JsError): JsError {
    Error("AI generated selector \"" + selector + "\" failed to interact: " + ErrorText(e))
  }

  /** An `act` call: how it completed, the cache afterwards and the calls made. */
  datatype ActRun = ActRun(outcome: Completion, cache: CacheManager, session: Session)

  /**
   The selector the cache offers for `goal`: present only when stored and
   non-empty, since an empty string is falsy.
   */
  function CacheHit(cache: CacheManager, goal: string): (r: Option<string>)
    ensures r.Some? <==> Get(cache, goal).Some? && Get(cache, goal).value != ""
    ensures r.Some? ==> r == Get(cache, goal)
  {
    match Get(cache, goal)
    case Some(sel) => if sel != "" then Some(sel) else None
    case None => None
  }

  /**
   The oracle path: one snapshot (no retry), one selector request, one
   forced click; the cache is written only once that click has settled.
   `saved` is whether the cache file write succeeds.
   */
  function Fallback(goal: string, cache: CacheManager, saved: bool, w: World, s: Session): (r: ActRun)
    ensures r.session.subGoals == s.subGoals && r.session.dumps == s.dumps + 1
    ensures IsPrefix(s.oracle, r.session.oracle) && |r.session.oracle| <= |s.oracle| + 1
    ensures IsPrefix(s.page, r.session.page) && |r.session.page| <= |s.page| + 1
    ensures w.snapshots(s.dumps).None? ==>
      r == ActRun(Thrown(SnapshotLost), cache, s.(dumps := s.dumps + 1))
    ensures w.snapshots(s.dumps).Some? ==>
      r.session.oracle == s.oracle + [SelectorFor(w.snapshots(s.dumps).value, goal)]
    ensures r.outcome.Thrown? ==> r.cache == cache
    ensures r.outcome.Normal? ==>
      && |r.session.page| == |s.page| + 1
      && r.session.page[|s.page|].Click? && w.page(|s.page|).Settled?
      && var sel := r.session.page[|s.page|].selector;
      && sel.Str? && sel.s != ""
      && GenerateSelector(w.replies(|s.oracle|)) == Some(sel.s)
      && r.cache == Set(cache, goal, sel.s, saved)
  {
    var o := Observe(w, s);
    if o.snapshot.None? then ActRun(Thrown(SnapshotLost), cache, o.session)
    else
      var a := Ask(w, o.session, SelectorFor(o.snapshot.value, goal));
      var selector := GenerateSelector(a.reply);
      if selector.None? || selector.value == "" then ActRun(Thrown(NoElement), cache, a.session)
      else
        var sel := selector.value;
        var c := Interact(w, a.session, Click(Str(sel)));
        if c.reply.Failed? then ActRun(Thrown(ClickFailed(sel, c.reply.error)), cache, c.session)
        else ActRun(Normal, Set(cache, goal, sel, saved), c.session)
  }

  /** `act(goal)`: the cache fast path, then the oracle path. */
  function Act(goal: string, cache: CacheManager, saved: bool, w: World, s: Session): (r: ActRun)
    ensures Extends(s, r.session) && r.session.subGoals == s.subGoals
    ensures |r.session.oracle| <= |s.oracle| + 1
    ensures r.outcome.Thrown? ==> r.cache == cache
    ensures r.cache == cache || (goal in r.cache.entries && r.cache == Set(cache, goal, r.cache.entries[goal], saved))
  {
    match CacheHit(cache, goal)
    case Some(cached) =>
      var c := Interact(w, s, Click(Str(cached)));
      if c.reply.Settled? then ActRun(Normal, cache, c.session)
      else Fallback(goal, cache, saved, w, c.session)
    case None => Fallback(goal, cache, saved, w, s)
  }

  /**
   A usable cached selector whose click settles ends the call: no snapshot,
   no oracle request, one click, and the cache as it was.
   */
  lemma CacheHitShortCircuits(goal: string, cache: CacheManager, saved: bool, w: World, s: Session)
    requires CacheHit(cache, goal).Some?
    requires w.page(|s.page|).Settled?
    ensures Act(goal, cache, saved, w, s) ==
      ActRun(Normal, cache, s.(page := s.page + [Click(Str(CacheHit(cache, goal).value))]))
  {
  }

  /** A cached selector whose click throws does not end the call: the oracle path follows the failed click. */
  lemma StaleCacheFallsThrough(goal: string, cache: CacheManager, saved: bool, w: World, s: Session)
    requires CacheHit(cache, goal).Some?
    requires w.page(|s.page|).Failed?
    ensures Act(goal, cache, saved, w, s) ==
      Fallback(goal, cache, saved, w, s.(page := s.page + [Click(Str(CacheHit(cache, goal).value))]))
  {
  }

  /** A missing or empty cached selector is a miss: the oracle path starts with no click issued. */
  lemma EmptyCachedSelectorIsMiss(goal: string, cache: CacheManager, saved: bool, w: World, s: Session)
    requires Get(cache, goal).None? || Get(cache, goal) == Some("")
    ensures Act(goal, cache, saved, w, s) == Fallback(goal, cache, saved, w, s)
  {
  }

  /** With no usable selector from the oracle the call throws and the cache is untouched. */
  lemma NoSelectorThrows(goal: string, cache: CacheManager, saved: bool, w: World, s: Session)
    requires w.snapshots(s.dumps).Some?
    requires GenerateSelector(w.replies(|s.oracle|)) == None
    ensures Fallback(goal, cache, saved, w, s).outcome == Thrown(NoElement)
    ensures Fallback(goal, cache, saved, w, s).cache == cache
    ensures Fallback(goal, cache, saved, w, s).session.page == s.page
  {
  }

  /**
   A selector from the oracle whose click throws: the error names the
   selector and the page's error, and the cache is untouched.
   */
  lemma OracleSelectorClickFails(goal: string, cache: CacheManager, saved: bool, w: World, s: Session)
    requires w.snapshots(s.dumps).Some?
    requires GenerateSelector(w.replies(|s.oracle|)).Some?
    requires GenerateSelector(w.replies(|s.oracle|)).value != ""
    requires w.page(|s.page|).Failed?
    ensures var sel := GenerateSelector(w.replies(|s.oracle|)).value;
      var r := Fallback(goal, cache, saved, w, s);
      && r.outcome == Thrown(ClickFailed(sel, w.page(|s.page|).error))
      && r.cache == cache
      && r.session.page == s.page + [Click(Str(sel))]
  {
  }

  /**
   After a successful `act` on the oracle path, the goal (the raw goal
   string) maps to the selector the oracle's reply named, which is also the
   selector that was clicked last, and no other goal's entry changed.
   */
  lemma LearnedSelectorIsCached(goal: string, cache: CacheManager, saved: bool, w: World, s: Session)
    requires CacheHit(cache, goal).None? || w.page(|s.page|).Failed?
    ensures var r := Act(goal, cache, saved, w, s);
      r.outcome.Normal? ==>
        && Get(r.cache, goal) == GenerateSelector(w.replies(|s.oracle|))
        && Get(r.cache, goal).Some? && Get(r.cache, goal).value != ""
        && |r.session.page| > |s.page|
        && r.session.page[|r.session.page| - 1] == Click(Str(Get(r.cache, goal).value))
        && forall g | g != goal :: Get(r.cache, g) == Get(cache, g)
  {
  }
}
