/**
 The goal-to-selector memo (node/src/cache/CacheManager.ts): an in-memory
 map loaded once from a backing file and written back in full on every
 update. File access is reduced to what the source does with its outcome.
 */
module SelectorCache {
  import opened Outcomes

  /** What reading the backing file yields. */
  datatype FileState =
    | Missing                                  // no file at the cache path
    | Unreadable                               // reading or JSON parsing throws
    | Stored(entries: map<string, string>)     // a parsed goal -> selector object

  /** The cache manager: its in-memory entries and the content of its backing file. */
  datatype CacheManager = CacheManager(entries: map<string, string>, file: FileState)

  /**
   Construction: a missing or unreadable file gives an empty cache (the load
   error is swallowed); a stored object becomes the entries.
   */
  function Load(file: FileState): (c: CacheManager)
    ensures c.file == file
    ensures file.Stored? ==> c.entries == file.entries
    ensures !file.Stored? ==> c.entries == map[]
  {
    CacheManager(if file.Stored? then file.entries else map[], file)
  }

  /** `get(goal)`: the selector stored for exactly this goal text, absent if none. */
  function Get(c: CacheManager, goal: string): (r: Option<string>)
    ensures r.Some? <==> goal in c.entries
    ensures r.Some? ==> r.value == c.entries[goal]
  {
    if goal in c.entries then Some(c.entries[goal]) else None
  }

  /**
   `set(goal, selector)`: the in-memory entry is written first, then the
   whole map is saved; `saved` says whether the file write succeeded. A
   failed save is swallowed: the file keeps its old content and the memory
   keeps the new entry.
   */
  function Set(c: CacheManager, goal: string, selector: string, saved: bool): (r: CacheManager)
    ensures Get(r, goal) == Some(selector)
    ensures forall g | g != goal :: Get(r, g) == Get(c, g)
    ensures saved ==> r.file == Stored(r.entries)
    ensures !saved ==> r.file == c.file
  {
    var entries := c.entries[goal := selector];
    CacheManager(entries, if saved then Stored(entries) else c.file)
  }

  /** A fresh cache over a missing or unreadable file answers absent for every goal. */
  lemma EmptyOnLoadFailure(file: FileState, goal: string)
    requires !file.Stored?
    ensures Get(Load(file), goal).None?
  {
  }

  /** Last writer wins: a second `set` on a key overwrites the first. */
  lemma LastWriterWins(c: CacheManager, goal: string, s1: string, s2: string, ok1: bool, ok2: bool)
    ensures Get(Set(Set(c, goal, s1, ok1), goal, s2, ok2), goal) == Some(s2)
    ensures Set(Set(c, goal, s1, ok1), goal, s2, ok2).entries == Set(c, goal, s2, ok2).entries
  {
  }

  /** After a successful save, a cache loaded afresh from the file sees exactly the in-memory entries. */
  lemma ReloadRoundTrip(c: CacheManager, goal: string, selector: string)
    ensures Load(Set(c, goal, selector, true).file).entries == Set(c, goal, selector, true).entries
    ensures Get(Load(Set(c, goal, selector, true).file), goal) == Some(selector)
  {
  }

  /** A failed save leaves a later reload seeing the file as it was before the update. */
  lemma FailedSaveNotPersisted(c: CacheManager, goal: string, selector: string)
    ensures Load(Set(c, goal, selector, false).file) == Load(c.file)
    ensures Get(Set(c, goal, selector, false), goal) == Some(selector)
  {
  }
}
