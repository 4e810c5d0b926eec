/**
 * Flattening the JSON tree into the rows of the virtualised tree view
 * (components/editor/JsonExplorer.tsx): a pre-order walk that descends only into
 * expanded containers and closes each of them with a synthetic bracket row.
 */
module Explorer {
  import opened Options
  import opened Strings
  import opened JsonValues
  import opened JsonPath
  import opened EditorHelpers

  /** The `key` of a row: null (root and closing rows), an array index, or an object key. */
  datatype RowKey = NoKey | IndexKey(i: nat) | NameKey(name: string)

  datatype ParentType = NoParent | ArrayParent | ObjectParent

  /** `JsonNodeInfo`. Closing rows carry the bracket as a string value and no child count. */
  datatype FlatNode = FlatNode(
    path: Path,
    key: RowKey,
    value: Json,
    valueType: ValueType,
    depth: nat,
    index: nat,
    parentType: ParentType,
    childCount: Option<nat>,
    isExpanded: bool)

  const CloseSegment: string := "__close__"

  /** A container whose key is in the expansion set: its children and a closing row follow it. */
  predicate Opens(v: Json, path: Path, expanded: set<string>) {
    PathToKey(path) in expanded && IsContainer(v)
  }

  function OpenRow(v: Json, path: Path, key: RowKey, depth: nat, pt: ParentType, expanded: set<string>, index: nat): FlatNode {
    FlatNode(path, key, v, GetValueType(v), depth, index, pt, GetChildCount(v), PathToKey(path) in expanded)
  }

  function CloseRow(v: Json, path: Path, depth: nat, pt: ParentType, index: nat): FlatNode {
    FlatNode(path + [CloseSegment], NoKey, Str(if v.Arr? then "]" else "}"), GetValueType(v), depth, index, pt, None, false)
  }

  function ChildKey(parent: Json, i: nat): RowKey
    requires i < |Entries(parent)|
  {
    if parent.Arr? then IndexKey(i) else NameKey(Entries(parent)[i].0)
  }

  function ChildParentType(parent: Json): ParentType {
    if parent.Arr? then ArrayParent else ObjectParent
  }

  /** The rows `traverse` pushes for `v`, numbered from `start`. */
  function Rows(v: Json, path: Path, key: RowKey, depth: nat, pt: ParentType, expanded: set<string>, start: nat): (rows: seq<FlatNode>)
    ensures |rows| >= 1 && rows[0] == OpenRow(v, path, key, depth, pt, expanded, start)
    decreases v, 2
  {
    if Opens(v, path, expanded) then
      var kids := ChildRows(v, 0, path, depth, expanded, start + 1);
      [OpenRow(v, path, key, depth, pt, expanded, start)] + kids + [CloseRow(v, path, depth, pt, start + 1 + |kids|)]
    else
      [OpenRow(v, path, key, depth, pt, expanded, start)]
  }

  /** The rows of entry `i` of `parent`. */
  function EntryRows(parent: Json, i: nat, path: Path, depth: nat, expanded: set<string>, start: nat): seq<FlatNode>
    requires i < |Entries(parent)|
    decreases parent, 0
  {
    Rows(Entries(parent)[i].1, path + [Entries(parent)[i].0], ChildKey(parent, i), depth + 1, ChildParentType(parent), expanded, start)
  }

  /** The rows of the children of `parent` from entry `i` on. */
  function ChildRows(parent: Json, i: nat, path: Path, depth: nat, expanded: set<string>, start: nat): seq<FlatNode>
    decreases parent, 1, |Entries(parent)| - i
  {
    if i >= |Entries(parent)| then []
    else
      var r := EntryRows(parent, i, path, depth, expanded, start);
      r + ChildRows(parent, i + 1, path, depth, expanded, start + |r|)
  }

  /** One step of the children's rows: entry `i`'s rows, then the rest numbered after them. */
  lemma {:induction false} ChildRowsStep(parent: Json, i: nat, path: Path, depth: nat, expanded: set<string>, start: nat)
    requires i < |Entries(parent)|
    ensures ChildRows(parent, i, path, depth, expanded, start)
         == EntryRows(parent, i, path, depth, expanded, start)
            + ChildRows(parent, i + 1, path, depth, expanded, start + |EntryRows(parent, i, path, depth, expanded, start)|)
    ensures EntryRows(parent, i, path, depth, expanded, start)
         == Rows(Entries(parent)[i].1, path + [Entries(parent)[i].0], ChildKey(parent, i), depth + 1, ChildParentType(parent), expanded, start)
  {
  }

  /** The rows of an expanded container: its open row, its children's rows, its closing row. */
  lemma {:induction false} RowsUnfold(v: Json, path: Path, key: RowKey, depth: nat, pt: ParentType, expanded: set<string>, start: nat)
    requires Opens(v, path, expanded)
    ensures var kids := ChildRows(v, 0, path, depth, expanded, start + 1);
            Rows(v, path, key, depth, pt, expanded, start)
            == [OpenRow(v, path, key, depth, pt, expanded, start)] + kids + [CloseRow(v, path, depth, pt, start + 1 + |kids|)]
  {
  }

  /** `traverse(value, path, key, depth, parentType)`: push the rows onto `nodes`, numbering from `index`. */
  method Traverse(v: Json, path: Path, key: RowKey, depth: nat, pt: ParentType, expanded: set<string>,
                  nodes: seq<FlatNode>, index: nat)
    returns (out: seq<FlatNode>, next: nat)
    ensures out == nodes + Rows(v, path, key, depth, pt, expanded, index)
    ensures next == index + |Rows(v, path, key, depth, pt, expanded, index)|
    decreases v, 1
  {
    var valueType := GetValueType(v);
    var isExpanded := PathToKey(path) in expanded;
    var childCount := GetChildCount(v);
    var open := FlatNode(path, key, v, valueType, depth, index, pt, childCount, isExpanded);
    assert open == OpenRow(v, path, key, depth, pt, expanded, index);
    out := nodes + [open];
    next := index + 1;
    if isExpanded && (valueType == ObjectType || valueType == ArrayType) {
      assert Opens(v, path, expanded);
      ghost var kids := ChildRows(v, 0, path, depth, expanded, index + 1);
      out, next := TraverseChildren(v, path, depth, expanded, out, next);
      var close := FlatNode(path + [CloseSegment], NoKey, Str(if v.Arr? then "]" else "}"), valueType, depth, next, pt, None, false);
      assert close == CloseRow(v, path, depth, pt, index + 1 + |kids|);
      out := out + [close];
      next := next + 1;
      RowsOpened(v, path, key, depth, pt, expanded, index, nodes);
    } else {
      assert !Opens(v, path, expanded);
    }
  }

  /** The `for` loop of `traverse` over the entries of an expanded container. */
  method TraverseChildren(v: Json, path: Path, depth: nat, expanded: set<string>, nodes: seq<FlatNode>, index: nat)
    returns (out: seq<FlatNode>, next: nat)
    ensures out == nodes + ChildRows(v, 0, path, depth, expanded, index)
    ensures next == index + |ChildRows(v, 0, path, depth, expanded, index)|
    decreases v, 0
  {
    var es := Entries(v);
    ghost var total := nodes + ChildRows(v, 0, path, depth, expanded, index);
    out, next := nodes, index;
    for i := 0 to |es|
      invariant next == index + |out| - |nodes|
      invariant out + ChildRows(v, i, path, depth, expanded, next) == total
    {
      var seg, child := es[i].0, es[i].1;
      var childKey := if v.Arr? then IndexKey(i) else NameKey(seg);
      var childType := if v.Arr? then ArrayParent else ObjectParent;
      assert childKey == ChildKey(v, i) && childType == ChildParentType(v);
      ChildRowsAdvance(v, i, path, depth, expanded, next, out, total);
      out, next := Traverse(child, path + [seg], childKey, depth + 1, childType, expanded, out, next);
    }
    assert ChildRows(v, |es|, path, depth, expanded, next) == [];
  }

  /** Appending entry `i`'s rows moves the walk on to entry `i + 1` towards the same total. */
  lemma {:induction false} ChildRowsAdvance(parent: Json, i: nat, path: Path, depth: nat, expanded: set<string>, start: nat,
                                            before: seq<FlatNode>, total: seq<FlatNode>)
    requires i < |Entries(parent)|
    requires before + ChildRows(parent, i, path, depth, expanded, start) == total
    ensures var r := EntryRows(parent, i, path, depth, expanded, start);
            (before + r) + ChildRows(parent, i + 1, path, depth, expanded, start + |r|) == total
            && r == Rows(Entries(parent)[i].1, path + [Entries(parent)[i].0], ChildKey(parent, i), depth + 1,
                         ChildParentType(parent), expanded, start)
  {
    var r := EntryRows(parent, i, path, depth, expanded, start);
    ChildRowsStep(parent, i, path, depth, expanded, start);
    AppendAssoc(before, r, ChildRows(parent, i + 1, path, depth, expanded, start + |r|));
  }

  /** The rows of an opened container, appended to `nodes`. */
  lemma {:induction false} RowsOpened(v: Json, path: Path, key: RowKey, depth: nat, pt: ParentType, expanded: set<string>,
                                      index: nat, nodes: seq<FlatNode>)
    requires Opens(v, path, expanded)
    ensures var kids := ChildRows(v, 0, path, depth, expanded, index + 1);
            nodes + Rows(v, path, key, depth, pt, expanded, index)
            == nodes + [OpenRow(v, path, key, depth, pt, expanded, index)] + kids
               + [CloseRow(v, path, depth, pt, index + 1 + |kids|)]
  {
    var kids := ChildRows(v, 0, path, depth, expanded, index + 1);
    var open := OpenRow(v, path, key, depth, pt, expanded, index);
    var close := CloseRow(v, path, depth, pt, index + 1 + |kids|);
    RowsUnfold(v, path, key, depth, pt, expanded, index);
    AppendAround(nodes, open, kids, close);
  }

  /** `flatNodes`: no rows for a falsy document, otherwise the walk from the root. */
  method FlatNodes(parsed: Json, expanded: set<string>) returns (nodes: seq<FlatNode>)
    ensures IsFalsy(parsed) ==> nodes == []
    ensures !IsFalsy(parsed) ==> nodes == Rows(parsed, [], NoKey, 0, NoParent, expanded, 0)
  {
    if IsFalsy(parsed) {
      return [];
    }
    var index := 0;
    nodes, index := Traverse(parsed, [], NoKey, 0, NoParent, expanded, [], index);
  }

  // ---------------------------------------------------------------------------
  // Reference definitions: visible paths and expanded containers
  // ---------------------------------------------------------------------------

  /** The paths reachable from `path` by descending only through expanded containers, in pre-order. */
  function VisiblePaths(v: Json, path: Path, expanded: set<string>): seq<Path>
    decreases v, 2
  {
    [path] + (if Opens(v, path, expanded) then ChildPaths(v, 0, path, expanded) else [])
  }

  function ChildPaths(parent: Json, i: nat, path: Path, expanded: set<string>): seq<Path>
    decreases parent, 1, |Entries(parent)| - i
  {
    if i >= |Entries(parent)| then []
    else VisiblePaths(Entries(parent)[i].1, path + [Entries(parent)[i].0], expanded) + ChildPaths(parent, i + 1, path, expanded)
  }

  /** The number of visible expanded containers. */
  function OpenCount(v: Json, path: Path, expanded: set<string>): nat
    decreases v, 2
  {
    if Opens(v, path, expanded) then 1 + ChildOpenCount(v, 0, path, expanded) else 0
  }

  function ChildOpenCount(parent: Json, i: nat, path: Path, expanded: set<string>): nat
    decreases parent, 1, |Entries(parent)| - i
  {
    if i >= |Entries(parent)| then 0
    else OpenCount(Entries(parent)[i].1, path + [Entries(parent)[i].0], expanded) + ChildOpenCount(parent, i + 1, path, expanded)
  }

  /** A closing row: its value is a bracket string while its type is the container's. */
  predicate IsClosing(r: FlatNode) {
    r.value.Str? && (r.valueType == ArrayType || r.valueType == ObjectType)
  }

  /** The paths of the rows that are not closing rows, in order. */
  function OpenPathsOf(rows: seq<FlatNode>): seq<Path> {
    if rows == [] then []
    else (if IsClosing(rows[0]) then [] else [rows[0].path]) + OpenPathsOf(rows[1..])
  }

  function CloseCountOf(rows: seq<FlatNode>): nat {
    if rows == [] then 0
    else (if IsClosing(rows[0]) then 1 else 0) + CloseCountOf(rows[1..])
  }

  lemma {:induction false} OfConcat(a: seq<FlatNode>, b: seq<FlatNode>)
    ensures OpenPathsOf(a + b) == OpenPathsOf(a) + OpenPathsOf(b)
    ensures CloseCountOf(a + b) == CloseCountOf(a) + CloseCountOf(b)
  {
    if a == [] {
      assert a + b == b;
    } else {
      assert (a + b)[1..] == a[1..] + b;
      OfConcat(a[1..], b);
    }
  }

  /** OfConcat with the parts' summaries already known. */
  lemma {:induction false} OfSplit(rows: seq<FlatNode>, a: seq<FlatNode>, b: seq<FlatNode>,
                                   pa: seq<Path>, pb: seq<Path>, ca: nat, cb: nat)
    requires rows == a + b
    requires OpenPathsOf(a) == pa && OpenPathsOf(b) == pb
    requires CloseCountOf(a) == ca && CloseCountOf(b) == cb
    ensures OpenPathsOf(rows) == pa + pb && CloseCountOf(rows) == ca + cb
  {
    OfConcat(a, b);
  }

  // ---------------------------------------------------------------------------
  // Properties of the rows
  // ---------------------------------------------------------------------------

  /** Each row's `index` is its position, counting from `start`. */
  predicate IndexedFrom(rows: seq<FlatNode>, start: nat) {
    forall i :: 0 <= i < |rows| ==> rows[i].index == start + i
  }

  lemma {:induction false} IndexedConcat(a: seq<FlatNode>, b: seq<FlatNode>, start: nat)
    requires IndexedFrom(a, start) && IndexedFrom(b, start + |a|)
    ensures IndexedFrom(a + b, start)
  {
    forall i | 0 <= i < |a + b|
      ensures (a + b)[i].index == start + i
    {
      if i >= |a| {
        assert (a + b)[i] == b[i - |a|];
      }
    }
  }

  lemma {:induction false} IndexIsPosition(v: Json, path: Path, key: RowKey, depth: nat, pt: ParentType, expanded: set<string>, start: nat)
    ensures IndexedFrom(Rows(v, path, key, depth, pt, expanded, start), start)
    decreases v, 2
  {
    if Opens(v, path, expanded) {
      IndexOpened(v, path, key, depth, pt, expanded, start);
    } else {
      assert Rows(v, path, key, depth, pt, expanded, start) == [OpenRow(v, path, key, depth, pt, expanded, start)];
    }
  }

  lemma {:induction false} IndexOpened(v: Json, path: Path, key: RowKey, depth: nat, pt: ParentType, expanded: set<string>, start: nat)
    requires Opens(v, path, expanded)
    ensures IndexedFrom(Rows(v, path, key, depth, pt, expanded, start), start)
    decreases v, 1
  {
    var open := OpenRow(v, path, key, depth, pt, expanded, start);
    var kids := ChildRows(v, 0, path, depth, expanded, start + 1);
    var close := CloseRow(v, path, depth, pt, start + 1 + |kids|);
    assert IndexedFrom([open], start);
    ChildIndexIsPosition(v, 0, path, depth, expanded, start + 1);
    assert IndexedFrom([close], start + 1 + |kids|);
    IndexedConcat([open], kids, start);
    IndexedConcat([open] + kids, [close], start);
    RowsUnfold(v, path, key, depth, pt, expanded, start);
  }

  lemma {:induction false} ChildIndexIsPosition(parent: Json, i: nat, path: Path, depth: nat, expanded: set<string>, start: nat)
    ensures IndexedFrom(ChildRows(parent, i, path, depth, expanded, start), start)
    decreases parent, 1, |Entries(parent)| - i
  {
    if i < |Entries(parent)| {
      var seg, child := Entries(parent)[i].0, Entries(parent)[i].1;
      var r := EntryRows(parent, i, path, depth, expanded, start);
      ChildRowsStep(parent, i, path, depth, expanded, start);
      IndexIsPosition(child, path + [seg], ChildKey(parent, i), depth + 1, ChildParentType(parent), expanded, start);
      ChildIndexIsPosition(parent, i + 1, path, depth, expanded, start + |r|);
      IndexedConcat(r, ChildRows(parent, i + 1, path, depth, expanded, start + |r|), start);
    }
  }

  /**
   * Leaving out the closing rows gives exactly the visible paths in pre-order, and there
   * is one closing row per visible expanded container (empty ones included).
   */
  lemma {:induction false} RowsMatchVisiblePaths(v: Json, path: Path, key: RowKey, depth: nat, pt: ParentType, expanded: set<string>, start: nat)
    ensures OpenPathsOf(Rows(v, path, key, depth, pt, expanded, start)) == VisiblePaths(v, path, expanded)
    ensures CloseCountOf(Rows(v, path, key, depth, pt, expanded, start)) == OpenCount(v, path, expanded)
    decreases v, 2
  {
    if Opens(v, path, expanded) {
      RowsMatchOpened(v, path, key, depth, pt, expanded, start);
    } else {
      var open := OpenRow(v, path, key, depth, pt, expanded, start);
      assert Rows(v, path, key, depth, pt, expanded, start) == [open];
      assert !IsClosing(open);
    }
  }

  lemma {:induction false} RowsMatchOpened(v: Json, path: Path, key: RowKey, depth: nat, pt: ParentType, expanded: set<string>, start: nat)
    requires Opens(v, path, expanded)
    ensures OpenPathsOf(Rows(v, path, key, depth, pt, expanded, start)) == VisiblePaths(v, path, expanded)
    ensures CloseCountOf(Rows(v, path, key, depth, pt, expanded, start)) == OpenCount(v, path, expanded)
    decreases v, 1
  {
    var open := OpenRow(v, path, key, depth, pt, expanded, start);
    var kids := ChildRows(v, 0, path, depth, expanded, start + 1);
    var close := CloseRow(v, path, depth, pt, start + 1 + |kids|);
    assert OpenPathsOf([open]) == [path] && CloseCountOf([open]) == 0 by {
      assert !IsClosing(open);
    }
    assert OpenPathsOf([close]) == [] && CloseCountOf([close]) == 1 by {
      assert IsClosing(close);
    }
    ChildRowsMatch(v, 0, path, depth, expanded, start + 1);
    RowsUnfold(v, path, key, depth, pt, expanded, start);
    assert VisiblePaths(v, path, expanded) == [path] + ChildPaths(v, 0, path, expanded);
    OfConcat([open], kids);
    OfConcat([open] + kids, [close]);
  }

  lemma {:induction false} ChildRowsMatch(parent: Json, i: nat, path: Path, depth: nat, expanded: set<string>, start: nat)
    ensures OpenPathsOf(ChildRows(parent, i, path, depth, expanded, start)) == ChildPaths(parent, i, path, expanded)
    ensures CloseCountOf(ChildRows(parent, i, path, depth, expanded, start)) == ChildOpenCount(parent, i, path, expanded)
    decreases parent, 1, |Entries(parent)| - i
  {
    if i < |Entries(parent)| {
      var r := EntryRows(parent, i, path, depth, expanded, start);
      EntryRowsMatch(parent, i, path, depth, expanded, start);
      ChildRowsMatch(parent, i + 1, path, depth, expanded, start + |r|);
      ChildRowsMatchStep(parent, i, path, depth, expanded, start);
    }
  }

  /** RowsMatchVisiblePaths for entry `i`. */
  lemma {:induction false} EntryRowsMatch(parent: Json, i: nat, path: Path, depth: nat, expanded: set<string>, start: nat)
    requires i < |Entries(parent)|
    ensures var (seg, child) := Entries(parent)[i];
            var r := EntryRows(parent, i, path, depth, expanded, start);
            OpenPathsOf(r) == VisiblePaths(child, path + [seg], expanded)
            && CloseCountOf(r) == OpenCount(child, path + [seg], expanded)
    decreases parent, 0
  {
    var seg, child := Entries(parent)[i].0, Entries(parent)[i].1;
    RowsMatchVisiblePaths(child, path + [seg], ChildKey(parent, i), depth + 1, ChildParentType(parent), expanded, start);
  }

  /** ChildRowsMatch from entry `i` on, given it for entry `i` and for the entries after it. */
  lemma {:induction false} ChildRowsMatchStep(parent: Json, i: nat, path: Path, depth: nat, expanded: set<string>, start: nat)
    requires i < |Entries(parent)|
    requires var (seg, child) := Entries(parent)[i];
             var r := EntryRows(parent, i, path, depth, expanded, start);
             OpenPathsOf(r) == VisiblePaths(child, path + [seg], expanded)
             && CloseCountOf(r) == OpenCount(child, path + [seg], expanded)
    requires var rest := ChildRows(parent, i + 1, path, depth, expanded, start + |EntryRows(parent, i, path, depth, expanded, start)|);
             OpenPathsOf(rest) == ChildPaths(parent, i + 1, path, expanded)
             && CloseCountOf(rest) == ChildOpenCount(parent, i + 1, path, expanded)
    ensures OpenPathsOf(ChildRows(parent, i, path, depth, expanded, start)) == ChildPaths(parent, i, path, expanded)
    ensures CloseCountOf(ChildRows(parent, i, path, depth, expanded, start)) == ChildOpenCount(parent, i, path, expanded)
  {
    var seg, child := Entries(parent)[i].0, Entries(parent)[i].1;
    var r := EntryRows(parent, i, path, depth, expanded, start);
    var rest := ChildRows(parent, i + 1, path, depth, expanded, start + |r|);
    ChildRowsStep(parent, i, path, depth, expanded, start);
    ChildPathsStep(parent, i, path, expanded);
    OfSplit(ChildRows(parent, i, path, depth, expanded, start), r, rest,
            VisiblePaths(child, path + [seg], expanded), ChildPaths(parent, i + 1, path, expanded),
            OpenCount(child, path + [seg], expanded), ChildOpenCount(parent, i + 1, path, expanded));
  }

  /** One step of the reference definitions over the children. */
  lemma {:induction false} ChildPathsStep(parent: Json, i: nat, path: Path, expanded: set<string>)
    requires i < |Entries(parent)|
    ensures ChildPaths(parent, i, path, expanded)
         == VisiblePaths(Entries(parent)[i].1, path + [Entries(parent)[i].0], expanded) + ChildPaths(parent, i + 1, path, expanded)
    ensures ChildOpenCount(parent, i, path, expanded)
         == OpenCount(Entries(parent)[i].1, path + [Entries(parent)[i].0], expanded) + ChildOpenCount(parent, i + 1, path, expanded)
  {
  }

  lemma {:induction false} RowsLength(rows: seq<FlatNode>)
    ensures |rows| == |OpenPathsOf(rows)| + CloseCountOf(rows)
  {
    if rows != [] {
      RowsLength(rows[1..]);
    }
  }

  /** The number of rows is the number of visible nodes plus the number of visible expanded containers. */
  lemma {:induction false} RowCount(v: Json, expanded: set<string>)
    ensures |Rows(v, [], NoKey, 0, NoParent, expanded, 0)| == |VisiblePaths(v, [], expanded)| + OpenCount(v, [], expanded)
  {
    RowsMatchVisiblePaths(v, [], NoKey, 0, NoParent, expanded, 0);
    RowsLength(Rows(v, [], NoKey, 0, NoParent, expanded, 0));
  }

  /** A primitive, or a container whose key is not expanded, is a single row even if its key is in the set. */
  lemma {:induction false} UnopenedIsOneRow(v: Json, path: Path, key: RowKey, depth: nat, pt: ParentType, expanded: set<string>, start: nat)
    requires !IsContainer(v) || PathToKey(path) !in expanded
    ensures Rows(v, path, key, depth, pt, expanded, start) == [OpenRow(v, path, key, depth, pt, expanded, start)]
  {
  }

  /** An expanded container is followed by its children's rows and a closing row at its own depth. */
  lemma {:induction false} OpenedShape(v: Json, path: Path, key: RowKey, depth: nat, pt: ParentType, expanded: set<string>, start: nat)
    requires IsContainer(v) && PathToKey(path) in expanded
    ensures var rows := Rows(v, path, key, depth, pt, expanded, start);
            rows[|rows| - 1] == FlatNode(path + [CloseSegment], NoKey, Str(if v.Arr? then "]" else "}"),
                                         if v.Arr? then ArrayType else ObjectType, depth, start + |rows| - 1, pt, None, false)
    ensures |Rows(v, path, key, depth, pt, expanded, start)| >= 2
  {
  }

  // ---------------------------------------------------------------------------
  // Expand all and collapse all
  // ---------------------------------------------------------------------------

  /** Every container at or under `base` has its key in the set. */
  predicate OpenBelow(v: Json, base: Path, expanded: set<string>)
    decreases v, 1
  {
    (IsContainer(v) ==> PathToKey(base) in expanded) && ChildrenOpen(v, 0, base, expanded)
  }

  /** OpenBelow holds for the children of `parent` from entry `i` on. */
  predicate ChildrenOpen(parent: Json, i: nat, base: Path, expanded: set<string>)
    decreases parent, 0, |Entries(parent)| - i
  {
    i >= |Entries(parent)|
    || (OpenBelow(Entries(parent)[i].1, base + [Entries(parent)[i].0], expanded) && ChildrenOpen(parent, i + 1, base, expanded))
  }

  /** The number of arrays and objects in the tree. */
  function Containers(v: Json): nat
    decreases v, 2
  {
    (if IsContainer(v) then 1 else 0) + ChildContainers(v, 0)
  }

  function ChildContainers(parent: Json, i: nat): nat
    decreases parent, 1, |Entries(parent)| - i
  {
    if i >= |Entries(parent)| then 0 else Containers(Entries(parent)[i].1) + ChildContainers(parent, i + 1)
  }

  /** The number of nodes in the children of `parent` from entry `i` on. */
  function ChildSizes(parent: Json, i: nat): nat
    decreases |Entries(parent)| - i
  {
    if i >= |Entries(parent)| then 0 else Size(Entries(parent)[i].1) + ChildSizes(parent, i + 1)
  }

  /** ChildSizes sums the sizes of a suffix of the entries, front to back. */
  lemma {:induction false} ChildSizesSum(v: Json, i: nat)
    requires i <= |Entries(v)|
    ensures ChildSizes(v, i) == SumSizes(Entries(v)[i..], v)
    decreases |Entries(v)| - i
  {
    if i < |Entries(v)| {
      ChildSizesSum(v, i + 1);
      SumSizesAt(v, i);
    } else {
      assert Entries(v)[i..] == [];
    }
  }

  lemma {:induction false} SumSizesFront(es: seq<(string, Json)>, parent: Json)
    requires forall i :: 0 <= i < |es| ==> es[i].1 < parent
    requires es != []
    ensures SumSizes(es, parent) == Size(es[0].1) + SumSizes(es[1..], parent)
    decreases |es|
  {
    if |es| > 1 {
      SumSizesFront(es[..|es| - 1], parent);
      assert es[..|es| - 1][1..] == es[1..][..|es| - 2];
    }
  }

  /** With every container expanded, every node is visible and every container is open. */
  lemma {:induction false} AllOpenCounts(v: Json, base: Path, expanded: set<string>)
    requires OpenBelow(v, base, expanded)
    ensures |VisiblePaths(v, base, expanded)| == Size(v)
    ensures OpenCount(v, base, expanded) == Containers(v)
    decreases v, 2
  {
    if IsContainer(v) {
      ChildAllOpenCounts(v, 0, base, expanded);
      ChildSizesSum(v, 0);
      assert Entries(v)[0..] == Entries(v);
    } else {
      assert Entries(v) == [];
    }
  }

  lemma {:induction false} ChildAllOpenCounts(v: Json, i: nat, base: Path, expanded: set<string>)
    requires ChildrenOpen(v, i, base, expanded) && i <= |Entries(v)|
    ensures |ChildPaths(v, i, base, expanded)| == ChildSizes(v, i)
    ensures ChildOpenCount(v, i, base, expanded) == ChildContainers(v, i)
    decreases v, 1, |Entries(v)| - i
  {
    if i < |Entries(v)| {
      var seg, child := Entries(v)[i].0, Entries(v)[i].1;
      AllOpenCounts(child, base + [seg], expanded);
      ChildAllOpenCounts(v, i + 1, base, expanded);
      ChildCountsStep(v, i, base, expanded);
    }
  }

  /** The counts for the children from `i` on, from those for child `i` and for the children after it. */
  lemma {:induction false} ChildCountsStep(v: Json, i: nat, base: Path, expanded: set<string>)
    requires i < |Entries(v)|
    requires var (seg, child) := Entries(v)[i];
             |VisiblePaths(child, base + [seg], expanded)| == Size(child)
             && OpenCount(child, base + [seg], expanded) == Containers(child)
    requires |ChildPaths(v, i + 1, base, expanded)| == ChildSizes(v, i + 1)
             && ChildOpenCount(v, i + 1, base, expanded) == ChildContainers(v, i + 1)
    ensures |ChildPaths(v, i, base, expanded)| == ChildSizes(v, i)
    ensures ChildOpenCount(v, i, base, expanded) == ChildContainers(v, i)
  {
    ChildPathsStep(v, i, base, expanded);
  }

  lemma {:induction false} SumSizesAt(v: Json, i: nat)
    requires i < |Entries(v)|
    ensures SumSizes(Entries(v)[i..], v) == Size(Entries(v)[i].1) + SumSizes(Entries(v)[i + 1..], v)
  {
    var es := Entries(v);
    SumSizesFront(es[i..], v);
    assert es[i..][1..] == es[i + 1..];
  }

  /** After expand-all the rows are every node once plus one closing row per container. */
  lemma {:induction false} ExpandAllRows(v: Json)
    ensures |Rows(v, [], NoKey, 0, NoParent, ExpandKeys(v, [], Unbounded), 0)| == Size(v) + Containers(v)
  {
    var e := ExpandKeys(v, [], Unbounded);
    ExpandKeysOpen(v, [], e);
    AllOpenCounts(v, [], e);
    RowCount(v, e);
  }

  /** A set holding every key expand-all adds under `path` opens every container there. */
  lemma {:induction false} ExpandKeysOpen(v: Json, path: Path, e: set<string>)
    requires ExpandKeys(v, path, Unbounded) <= e
    ensures OpenBelow(v, path, e)
    decreases v, 1
  {
    ChildrenExpandOpen(v, 0, path, e);
  }

  lemma {:induction false} ChildrenExpandOpen(v: Json, i: nat, path: Path, e: set<string>)
    requires ExpandKeys(v, path, Unbounded) <= e
    ensures ChildrenOpen(v, i, path, e)
    decreases v, 0, |Entries(v)| - i
  {
    if i < |Entries(v)| {
      var seg, child := Entries(v)[i].0, Entries(v)[i].1;
      ExpandEntryKeysHas(Entries(v), v, path, Unbounded, i);
      ExpandKeysOpen(child, path + [seg], e);
      ChildrenExpandOpen(v, i + 1, path, e);
    }
  }

  /** After collapse-all only the root row is shown. */
  lemma {:induction false} CollapseAllRows(v: Json)
    ensures Rows(v, [], NoKey, 0, NoParent, {}, 0) == [OpenRow(v, [], NoKey, 0, NoParent, {}, 0)]
  {
  }

  // ---------------------------------------------------------------------------
  // Closing-row detection (the test that decides how a row is drawn)
  // ---------------------------------------------------------------------------

  /** `node.key === null && (node.value === "}" || node.value === "]")`. */
  predicate DetectedAsClosing(r: FlatNode) {
    r.key == NoKey && (r.value == Str("}") || r.value == Str("]"))
  }

  /** The detection with the value's type also checked, so a string value is never taken for a bracket. */
  predicate DetectedAsClosingTyped(r: FlatNode) {
    DetectedAsClosing(r) && r.valueType != StringType
  }

  /** What holds of every row the walk produces below its first. */
  predicate RowKeyFacts(r: FlatNode) {
    (!IsClosing(r) ==> r.key != NoKey)
    && (IsClosing(r) ==> DetectedAsClosing(r))
    && (r.value.Str? && !IsClosing(r) ==> r.valueType == StringType)
  }

  /** Rows after the first have a key unless they close; closing rows have no key and a bracket value. */
  predicate AllRowKeyFacts(rows: seq<FlatNode>, from: nat) {
    forall i :: from <= i < |rows| ==> RowKeyFacts(rows[i])
  }

  lemma {:induction false} RowKeyFactsConcat(a: seq<FlatNode>, b: seq<FlatNode>)
    requires AllRowKeyFacts(a, 0) && AllRowKeyFacts(b, 0)
    ensures AllRowKeyFacts(a + b, 0)
  {
    forall i | 0 <= i < |a + b|
      ensures RowKeyFacts((a + b)[i])
    {
      if i < |a| {
        assert (a + b)[i] == a[i];
      } else {
        assert (a + b)[i] == b[i - |a|];
      }
    }
  }

  lemma {:induction false} RowKeyFactsAfterFirst(x: FlatNode, t: seq<FlatNode>)
    requires AllRowKeyFacts(t, 0)
    ensures AllRowKeyFacts([x] + t, 1)
  {
    forall i | 1 <= i < |[x] + t|
      ensures RowKeyFacts(([x] + t)[i])
    {
      assert ([x] + t)[i] == t[i - 1];
    }
  }

  lemma {:induction false} RowKeys(v: Json, path: Path, key: RowKey, depth: nat, pt: ParentType, expanded: set<string>, start: nat)
    ensures AllRowKeyFacts(Rows(v, path, key, depth, pt, expanded, start), 1)
    decreases v, 2
  {
    if Opens(v, path, expanded) {
      RowKeysOpened(v, path, key, depth, pt, expanded, start);
    }
  }

  /** The rows of an expanded container: its children's rows and its closing row. */
  lemma {:induction false} RowKeysOpened(v: Json, path: Path, key: RowKey, depth: nat, pt: ParentType, expanded: set<string>, start: nat)
    requires Opens(v, path, expanded)
    ensures AllRowKeyFacts(Rows(v, path, key, depth, pt, expanded, start), 1)
    decreases v, 1
  {
    var open := OpenRow(v, path, key, depth, pt, expanded, start);
    var kids := ChildRows(v, 0, path, depth, expanded, start + 1);
    var close := CloseRow(v, path, depth, pt, start + 1 + |kids|);
    var tail := kids + [close];
    assert Rows(v, path, key, depth, pt, expanded, start) == [open] + tail by {
      RowsUnfold(v, path, key, depth, pt, expanded, start);
      AppendAssoc([open], kids, [close]);
    }
    assert AllRowKeyFacts(tail, 0) by {
      ChildRowKeys(v, 0, path, depth, expanded, start + 1);
      assert RowKeyFacts(close);
      RowKeyFactsConcat(kids, [close]);
    }
    RowKeyFactsAfterFirst(open, tail);
  }

  lemma {:induction false} ChildRowKeys(parent: Json, i: nat, path: Path, depth: nat, expanded: set<string>, start: nat)
    ensures AllRowKeyFacts(ChildRows(parent, i, path, depth, expanded, start), 0)
    decreases parent, 1, |Entries(parent)| - i
  {
    if i < |Entries(parent)| {
      var seg, child := Entries(parent)[i].0, Entries(parent)[i].1;
      var k := ChildKey(parent, i);
      var r := EntryRows(parent, i, path, depth, expanded, start);
      ChildRowsStep(parent, i, path, depth, expanded, start);
      assert AllRowKeyFacts(r, 0) by {
        RowKeys(child, path + [seg], k, depth + 1, ChildParentType(parent), expanded, start);
        assert r[0] == OpenRow(child, path + [seg], k, depth + 1, ChildParentType(parent), expanded, start);
        assert k != NoKey && RowKeyFacts(r[0]);
      }
      ChildRowKeys(parent, i + 1, path, depth, expanded, start + |r|);
      RowKeyFactsConcat(r, ChildRows(parent, i + 1, path, depth, expanded, start + |r|));
    }
  }

  /**
   * As written, a row is drawn as a closing bracket exactly when it is a closing row or it
   * is the root row of a document that is the string "}" or "]".
   */
  lemma {:induction false} DetectionAsWritten(v: Json, expanded: set<string>, i: nat)
    requires i < |Rows(v, [], NoKey, 0, NoParent, expanded, 0)|
    ensures var r := Rows(v, [], NoKey, 0, NoParent, expanded, 0)[i];
            DetectedAsClosing(r) <==> IsClosing(r) || (i == 0 && (v == Str("}") || v == Str("]")))
  {
    var rows := Rows(v, [], NoKey, 0, NoParent, expanded, 0);
    RowKeys(v, [], NoKey, 0, NoParent, expanded, 0);
    if i > 0 {
      assert RowKeyFacts(rows[i]);
    }
  }

  /** The document `"}"` is a single row that the as-written check draws as a closing bracket. */
  lemma {:induction false} RootBracketStringMisdrawn()
    ensures var rows := Rows(Str("}"), [], NoKey, 0, NoParent, {}, 0);
            |rows| == 1 && !IsClosing(rows[0]) && DetectedAsClosing(rows[0])
  {
  }

  /** With the type also checked, a row is drawn as a closing bracket exactly when it is a closing row. */
  lemma {:induction false} DetectionTyped(v: Json, expanded: set<string>, i: nat)
    requires i < |Rows(v, [], NoKey, 0, NoParent, expanded, 0)|
    ensures var r := Rows(v, [], NoKey, 0, NoParent, expanded, 0)[i];
            DetectedAsClosingTyped(r) <==> IsClosing(r)
  {
    var rows := Rows(v, [], NoKey, 0, NoParent, expanded, 0);
    RowKeys(v, [], NoKey, 0, NoParent, expanded, 0);
    if i > 0 {
      assert RowKeyFacts(rows[i]);
    }
  }
}
