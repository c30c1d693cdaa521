/**
 Reconstruction of the page's accessibility tree from the platform's flat
 list of records (node/src/utils/accessibility.ts).

 The source builds one object per record, keyed by node id, and pushes each
 object onto its parent's `children` array; the returned root object shares
 those objects. The model keeps that object graph as it is: a node table
 keyed by id, the child-id list of every node that has children, and the id
 of the root. The table also keeps the nodes that cannot be reached from the
 root, whereas the source hands on only the root object and so only the
 subtree under it.
 */
module AccessibilityTree {
  import opened Outcomes
  import opened JsValue

  /**
   One record of the platform's dump. An optional property holds the inner
   `value` of the record's property object when that object is present.
   */
  datatype RawRecord = RawRecord(
    nodeId: string,
    parentId: Option<string>,
    role: Option<Value>,
    name: Option<Value>,
    value: Option<Value>,
    description: Option<Value>)

  /** The simplified node handed to the oracle; an absent property is `None`. */
  datatype AxNode = AxNode(role: Value, name: Option<Value>, value: Option<Value>, description: Option<Value>)

  /**
   The built snapshot: every node by id, the ordered child ids of the nodes
   that have children (a childless node has no `children` entry at all), and
   the root's id.
   */
  datatype Snapshot = Snapshot(nodes: map<string, AxNode>, children: map<string, seq<string>>, root: string)

  const GenericRole: string := "generic"

  /** A record's optional property survives only when its value is truthy. */
  function KeepTruthy(field: Option<Value>): Option<Value> {
    if field.Some? && Truthy(field.value) then field else None
  }

  /** First pass: the node built from one record. */
  function Describe(r: RawRecord): AxNode {
    AxNode(
      if r.role.Some? then r.role.value else Str(GenericRole),
      KeepTruthy(r.name),
      KeepTruthy(r.value),
      KeepTruthy(r.description))
  }

  /** The parent id a record names; an empty id counts as none. */
  function ParentOf(r: RawRecord): Option<string> {
    if r.parentId.Some? && r.parentId.value != "" then r.parentId else None
  }

  function Ids(rs: seq<RawRecord>): set<string> {
    set i | 0 <= i < |rs| :: rs[i].nodeId
  }

  /** No later record reuses the id of record `i`. */
  predicate LastWithId(rs: seq<RawRecord>, i: int)
    requires 0 <= i < |rs|
  {
    forall j | i < j < |rs| :: rs[j].nodeId != rs[i].nodeId
  }

  predicate UniqueIds(rs: seq<RawRecord>) {
    forall i, j | 0 <= i < j < |rs| :: rs[i].nodeId != rs[j].nodeId
  }

  /** First pass over the records: the node table, later records overwriting earlier ones with the same id. */
  function NodeTable(rs: seq<RawRecord>): map<string, AxNode> {
    if rs == [] then map[]
    else NodeTable(rs[..|rs| - 1])[rs[|rs| - 1].nodeId := Describe(rs[|rs| - 1])]
  }

  /** The node table has a node for exactly the ids the records carry. */
  lemma {:induction false} NodeTableKeys(rs: seq<RawRecord>)
    ensures NodeTable(rs).Keys == Ids(rs)
  {
    if rs != [] {
      var init := rs[..|rs| - 1];
      var last := rs[|rs| - 1];
      assert rs == init + [last];
      NodeTableKeys(init);
      IdsSnoc(init, last);
    }
  }

  /** The node an id maps to is the one built from the last record carrying that id. */
  lemma {:induction false} NodeTableAt(rs: seq<RawRecord>, i: int)
    requires 0 <= i < |rs| && LastWithId(rs, i)
    ensures rs[i].nodeId in NodeTable(rs)
    ensures NodeTable(rs)[rs[i].nodeId] == Describe(rs[i])
  {
    var init := rs[..|rs| - 1];
    if i < |rs| - 1 {
      assert rs[i].nodeId != rs[|rs| - 1].nodeId;
      assert init[i] == rs[i];
      forall j | i < j < |init| ensures init[j].nodeId != init[i].nodeId {
        assert init[j] == rs[j];
      }
      NodeTableAt(init, i);
    }
  }

  lemma {:induction false} IdsSnoc(rs: seq<RawRecord>, r: RawRecord)
    ensures Ids(rs + [r]) == Ids(rs) + {r.nodeId}
  {
    var all := rs + [r];
    forall x | x in Ids(all) ensures x in Ids(rs) + {r.nodeId} {
      var i :| 0 <= i < |all| && all[i].nodeId == x;
      if i < |rs| { assert all[i] == rs[i]; }
    }
    forall x | x in Ids(rs) ensures x in Ids(all) {
      var i :| 0 <= i < |rs| && rs[i].nodeId == x;
      assert all[i] == rs[i];
    }
    assert all[|rs|] == r;
  }

  /** The ids of the records that name `p` as parent, in record order. */
  function ChildIds(rs: seq<RawRecord>, p: string): seq<string> {
    if rs == [] then []
    else (if ParentOf(rs[0]) == Some(p) then [rs[0].nodeId] else []) + ChildIds(rs[1..], p)
  }

  /** One step of the second pass: push record `r` onto its parent's list when the parent is known. */
  function Push(m: map<string, seq<string>>, r: RawRecord, known: set<string>): map<string, seq<string>> {
    match ParentOf(r)
    case Some(p) =>
      if p in known then m[p := (if p in m then m[p] else []) + [r.nodeId]] else m
    case None => m
  }

  /**
   Second pass over the records: each record whose parent id names a known
   node is appended to that node's children. The lists come out exactly as
   the reference filter `ChildIds` describes them, and no list is empty.
   */
  function Attach(rs: seq<RawRecord>, known: set<string>): (m: map<string, seq<string>>)
    ensures forall p :: p in m <==> p in known && ChildIds(rs, p) != []
    ensures forall p | p in m :: m[p] == ChildIds(rs, p)
  {
    if rs == [] then map[]
    else
      var init := rs[..|rs| - 1];
      var last := rs[|rs| - 1];
      assert rs == init + [last];
      forall p ensures ChildIds(rs, p) ==
        ChildIds(init, p) + (if ParentOf(last) == Some(p) then [last.nodeId] else [])
      {
        ChildIdsSnoc(init, last, p);
      }
      Push(Attach(init, known), last, known)
  }

  lemma {:induction false} ChildIdsSnoc(rs: seq<RawRecord>, r: RawRecord, p: string)
    ensures ChildIds(rs + [r], p) == ChildIds(rs, p) + (if ParentOf(r) == Some(p) then [r.nodeId] else [])
  {
    if rs == [] {
      assert ChildIds([r], p) == (if ParentOf(r) == Some(p) then [r.nodeId] else []) + ChildIds([], p);
    } else {
      assert (rs + [r])[1..] == rs[1..] + [r];
      ChildIdsSnoc(rs[1..], r, p);
    }
  }

  /** The id of the first record without a parent, if any. */
  function FirstRoot(rs: seq<RawRecord>): (r: Option<string>)
    ensures r.None? <==> forall i | 0 <= i < |rs| :: ParentOf(rs[i]).Some?
    ensures r.Some? ==> exists i | 0 <= i < |rs| ::
      && ParentOf(rs[i]).None?
      && r.value == rs[i].nodeId
      && forall j | 0 <= j < i :: ParentOf(rs[j]).Some?
  {
    if rs == [] then None
    else if ParentOf(rs[0]).None? then Some(rs[0].nodeId)
    else
      var r := FirstRoot(rs[1..]);
      assert forall i | 1 <= i < |rs| :: rs[i] == rs[1..][i - 1];
      r
  }

  /** The child lists of a whole dump: parents are looked up among all its records. */
  function ChildLists(rs: seq<RawRecord>): map<string, seq<string>> {
    Attach(rs, NodeTable(rs).Keys)
  }

  /** Every id the snapshot mentions names a node, and no child list is empty. */
  predicate WellFormed(s: Snapshot) {
    && s.root in s.nodes
    && (forall p | p in s.children :: p in s.nodes && s.children[p] != [])
    && (forall p, c | p in s.children && c in s.children[p] :: c in s.nodes)
  }

  /**
   Builds the snapshot of a dump: `None` (the source's null) exactly when no
   record lacks a parent; otherwise the root is the first parentless record,
   later parentless records never replace it, and every record has a node.
   */
  function Build(rs: seq<RawRecord>): (r: Option<Snapshot>)
    ensures r.None? <==> forall i | 0 <= i < |rs| :: ParentOf(rs[i]).Some?
    ensures r.Some? ==> WellFormed(r.value)
    ensures r.Some? ==> r.value.nodes.Keys == Ids(rs) && r.value.nodes == NodeTable(rs)
    ensures r.Some? ==> forall p :: p in r.value.children <==> p in Ids(rs) && ChildIds(rs, p) != []
    ensures r.Some? ==> forall p | p in r.value.children :: r.value.children[p] == ChildIds(rs, p)
    ensures r.Some? ==> exists i | 0 <= i < |rs| ::
      && ParentOf(rs[i]).None?
      && r.value.root == rs[i].nodeId
      && forall j | 0 <= j < i :: ParentOf(rs[j]).Some?
  {
    match FirstRoot(rs)
    case None => None
    case Some(id) =>
      var nodes := NodeTable(rs);
      var children := ChildLists(rs);
      NodeTableKeys(rs);
      forall p, c | p in children && c in children[p] ensures c in nodes {
        ChildIdsAreIds(rs, p, c);
      }
      Some(Snapshot(nodes, children, id))
  }

  lemma {:induction false} ChildIdsAreIds(rs: seq<RawRecord>, p: string, c: string)
    requires c in ChildIds(rs, p)
    ensures c in Ids(rs)
  {
    if rs != [] {
      if c != rs[0].nodeId || ParentOf(rs[0]) != Some(p) {
        ChildIdsAreIds(rs[1..], p, c);
        assert Ids(rs[1..]) <= Ids(rs) by {
          forall x | x in Ids(rs[1..]) ensures x in Ids(rs) {
            var i :| 0 <= i < |rs[1..]| && rs[1..][i].nodeId == x;
            assert rs[i + 1].nodeId == x;
          }
        }
      }
    }
  }

  /**
   The platform call: `None` when it throws (the error is swallowed and the
   result is null), otherwise the snapshot built from its records.
   */
  function GetAccessibilityTree(dump: Option<seq<RawRecord>>): (r: Option<Snapshot>)
    ensures dump.None? ==> r.None?
    ensures dump.Some? ==> r == Build(dump.value)
  {
    match dump
    case None => None
    case Some(rs) => Build(rs)
  }

  // ---------------------------------------------------------------------------
  // Properties of the built graph
  // ---------------------------------------------------------------------------

  /**
   The node of a record (the last one with its id): the role is the raw role
   value or "generic" when the record has no role; name, value and
   description are present only when the raw value is present and truthy, so
   a `0` or an empty string disappears.
   */
  lemma NodeOfRecord(rs: seq<RawRecord>, i: int)
    requires 0 <= i < |rs| && LastWithId(rs, i)
    ensures rs[i].nodeId in NodeTable(rs)
    ensures var n := NodeTable(rs)[rs[i].nodeId];
      && n.role == (if rs[i].role.Some? then rs[i].role.value else Str(GenericRole))
      && (n.name.Some? <==> rs[i].name.Some? && Truthy(rs[i].name.value))
      && (n.value.Some? <==> rs[i].value.Some? && Truthy(rs[i].value.value))
      && (n.description.Some? <==> rs[i].description.Some? && Truthy(rs[i].description.value))
      && (n.name.Some? ==> n.name == rs[i].name)
      && (n.value.Some? ==> n.value == rs[i].value)
      && (n.description.Some? ==> n.description == rs[i].description)
  {
    NodeTableAt(rs, i);
  }

  lemma {:induction false} ChildIdsWithoutId(rs: seq<RawRecord>, p: string, id: string)
    requires forall i | 0 <= i < |rs| :: rs[i].nodeId != id
    ensures id !in ChildIds(rs, p)
  {
    if rs != [] {
      ChildIdsWithoutId(rs[1..], p, id);
    }
  }

  /** With unique ids, record `i` occurs in `p`'s list once if it names `p` as parent and never otherwise. */
  lemma {:induction false} ChildIdsCount(rs: seq<RawRecord>, i: int, p: string)
    requires UniqueIds(rs) && 0 <= i < |rs|
    ensures multiset(ChildIds(rs, p))[rs[i].nodeId] == if ParentOf(rs[i]) == Some(p) then 1 else 0
  {
    var id := rs[i].nodeId;
    var tail := rs[1..];
    var head := if ParentOf(rs[0]) == Some(p) then [rs[0].nodeId] else [];
    assert ChildIds(rs, p) == head + ChildIds(tail, p);
    assert multiset(ChildIds(rs, p)) == multiset(head) + multiset(ChildIds(tail, p));
    if i == 0 {
      forall k | 0 <= k < |tail| ensures tail[k].nodeId != id {
        assert tail[k] == rs[k + 1];
      }
      ChildIdsWithoutId(tail, p, id);
      assert multiset(ChildIds(tail, p))[id] == 0;
    } else {
      assert UniqueIds(tail) by {
        forall a, b | 0 <= a < b < |tail| ensures tail[a].nodeId != tail[b].nodeId {
          assert tail[a] == rs[a + 1] && tail[b] == rs[b + 1];
        }
      }
      assert tail[i - 1] == rs[i];
      assert rs[0].nodeId != id;
      assert multiset(head)[id] == 0;
      ChildIdsCount(tail, i - 1, p);
    }
  }

  /**
   With unique ids, a record whose parent id names a node of the dump is
   appended to that parent's children exactly once and appears in no other
   node's children.
   */
  lemma AttachedExactlyOnce(rs: seq<RawRecord>, i: int)
    requires UniqueIds(rs) && 0 <= i < |rs|
    requires ParentOf(rs[i]).Some? && ParentOf(rs[i]).value in Ids(rs)
    ensures var p := ParentOf(rs[i]).value;
      && p in ChildLists(rs)
      && multiset(ChildLists(rs)[p])[rs[i].nodeId] == 1
      && forall q | q in ChildLists(rs) && q != p :: rs[i].nodeId !in ChildLists(rs)[q]
  {
    var p := ParentOf(rs[i]).value;
    NodeTableKeys(rs);
    ChildIdsCount(rs, i, p);
    forall q | q in ChildLists(rs) && q != p ensures rs[i].nodeId !in ChildLists(rs)[q] {
      ChildIdsCount(rs, i, q);
    }
  }

  /**
   With unique ids, a record whose parent id names no node of the dump is
   attached nowhere: it is silently orphaned.
   */
  lemma Orphaned(rs: seq<RawRecord>, i: int)
    requires UniqueIds(rs) && 0 <= i < |rs|
    requires ParentOf(rs[i]).Some? && ParentOf(rs[i]).value !in Ids(rs)
    ensures forall q | q in ChildLists(rs) :: rs[i].nodeId !in ChildLists(rs)[q]
  {
    NodeTableKeys(rs);
    forall q | q in ChildLists(rs) ensures rs[i].nodeId !in ChildLists(rs)[q] {
      ChildIdsCount(rs, i, q);
    }
  }

  /** Children keep record order: a child listed before another comes from an earlier record. */
  lemma ChildOrder(rs: seq<RawRecord>, p: string, a: int, b: int)
    requires 0 <= a < b < |rs|
    requires ParentOf(rs[a]) == Some(p) && ParentOf(rs[b]) == Some(p)
    ensures exists x, y | 0 <= x < y < |ChildIds(rs, p)| ::
      ChildIds(rs, p)[x] == rs[a].nodeId && ChildIds(rs, p)[y] == rs[b].nodeId
  {
    var x, y := ChildPositions(rs, p, a, b);
  }

  /** Where record `i`'s id sits among `p`'s children when `i` names `p` as its parent. */
  lemma {:induction false} ChildPosition(rs: seq<RawRecord>, p: string, i: int) returns (x: nat)
    requires 0 <= i < |rs| && ParentOf(rs[i]) == Some(p)
    ensures x < |ChildIds(rs, p)| && ChildIds(rs, p)[x] == rs[i].nodeId
  {
    var head := if ParentOf(rs[0]) == Some(p) then [rs[0].nodeId] else [];
    assert ChildIds(rs, p) == head + ChildIds(rs[1..], p);
    if i == 0 {
      x := 0;
    } else {
      assert rs[1..][i - 1] == rs[i];
      var x' := ChildPosition(rs[1..], p, i - 1);
      x := x' + |head|;
    }
  }

  lemma {:induction false} ChildPositions(rs: seq<RawRecord>, p: string, a: int, b: int) returns (x: nat, y: nat)
    requires 0 <= a < b < |rs|
    requires ParentOf(rs[a]) == Some(p) && ParentOf(rs[b]) == Some(p)
    ensures x < y < |ChildIds(rs, p)|
    ensures ChildIds(rs, p)[x] == rs[a].nodeId && ChildIds(rs, p)[y] == rs[b].nodeId
  {
    var head := if ParentOf(rs[0]) == Some(p) then [rs[0].nodeId] else [];
    assert ChildIds(rs, p) == head + ChildIds(rs[1..], p);
    assert rs[1..][b - 1] == rs[b];
    if a == 0 {
      var y' := ChildPosition(rs[1..], p, b - 1);
      x, y := 0, y' + 1;
    } else {
      assert rs[1..][a - 1] == rs[a];
      var x', y' := ChildPositions(rs[1..], p, a - 1, b - 1);
      x, y := x' + |head|, y' + |head|;
    }
  }
}
