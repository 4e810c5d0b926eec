/**
 * The registry of open editor tabs: updating a tab's entry (replace or append, newest
 * first, at most twenty kept), removing a tab, and the storage key of a tab's editor
 * state. The registry is the list read from and written back to local storage; the
 * storage itself is not modelled.
 */
module TabRegistry {
  import opened Sequences

  /** The most entries the registry keeps. */
  const MaxTabs := 20

  datatype TabInfo = TabInfo(id: string, fileName: string, lastModified: int, preview: string)

  /** No two entries share an id. */
  predicate UniqueIds(tabs: seq<TabInfo>) {
    forall i, j :: 0 <= i < j < |tabs| ==> tabs[i].id != tabs[j].id
  }

  /** Newest first: `lastModified` never increases along the list. */
  predicate NewestFirst(tabs: seq<TabInfo>) {
    forall i, j :: 0 <= i < j < |tabs| ==> tabs[i].lastModified >= tabs[j].lastModified
  }

  /** `tabs.findIndex(t => t.id === id)`. */
  function FindById(tabs: seq<TabInfo>, id: string): (r: int)
    ensures -1 <= r < |tabs|
    ensures 0 <= r ==> tabs[r].id == id && forall j :: 0 <= j < r ==> tabs[j].id != id
    ensures r == -1 <==> forall j :: 0 <= j < |tabs| ==> tabs[j].id != id
  {
    if |tabs| == 0 then -1
    else if tabs[0].id == id then 0
    else
      var r := FindById(tabs[1..], id);
      if r < 0 then -1 else r + 1
  }

  /**
   * The comparator `(a, b) => b.lastModified - a.lastModified` as a stable insertion: `x`,
   * which came after every entry of `s`, goes after all entries at least as new as it.
   */
  function InsertByRecency(x: TabInfo, s: seq<TabInfo>): (r: seq<TabInfo>)
    ensures multiset(r) == multiset(s) + multiset{x}
    ensures |r| == |s| + 1
  {
    if s == [] then [x]
    else if s[0].lastModified < x.lastModified then [x] + s
    else
      assert s == [s[0]] + s[1..];
      [s[0]] + InsertByRecency(x, s[1..])
  }

  /** Every later entry of a newest-first list is no newer than, and (with unique ids) distinct from, the head. */
  lemma HeadDominates(s: seq<TabInfo>)
    requires s != []
    ensures NewestFirst(s) ==> forall t :: t in s[1..] ==> t.lastModified <= s[0].lastModified
    ensures UniqueIds(s) ==> forall t :: t in s[1..] ==> t.id != s[0].id
  {
    forall t | t in s[1..]
      ensures (NewestFirst(s) ==> t.lastModified <= s[0].lastModified) && (UniqueIds(s) ==> t.id != s[0].id)
    {
      var m :| 0 <= m < |s| - 1 && s[1..][m] == t;
      assert s[m + 1] == t;
    }
  }

  /** A head that dominates a newest-first tail makes a newest-first list. */
  lemma ConsNewestFirst(h: TabInfo, s: seq<TabInfo>)
    requires NewestFirst(s)
    requires forall t :: t in s ==> t.lastModified <= h.lastModified
    ensures NewestFirst([h] + s)
  {
    forall i, j | 0 <= i < j < |[h] + s|
      ensures ([h] + s)[i].lastModified >= ([h] + s)[j].lastModified
    {
      if i == 0 {
        assert ([h] + s)[j] in s;
      }
    }
  }

  /** Inserting into a newest-first list keeps it newest first. */
  lemma {:induction false} InsertSorted(x: TabInfo, s: seq<TabInfo>)
    requires NewestFirst(s)
    ensures NewestFirst(InsertByRecency(x, s))
  {
    if s != [] {
      HeadDominates(s);
      if s[0].lastModified < x.lastModified {
        ConsNewestFirst(x, s);
      } else {
        var rest := InsertByRecency(x, s[1..]);
        InsertSorted(x, s[1..]);
        forall t | t in rest
          ensures t.lastModified <= s[0].lastModified
        {
          assert t in multiset(rest);
        }
        ConsNewestFirst(s[0], rest);
      }
    }
  }

  /** `tabs.sort((a, b) => b.lastModified - a.lastModified)`: newest first, a permutation. */
  function SortByRecency(tabs: seq<TabInfo>): (r: seq<TabInfo>)
    ensures NewestFirst(r)
    ensures multiset(r) == multiset(tabs)
    ensures |r| == |tabs|
    decreases |tabs|
  {
    if tabs == [] then []
    else
      var front := tabs[..|tabs| - 1];
      assert tabs == front + [tabs[|tabs| - 1]];
      InsertSorted(tabs[|tabs| - 1], SortByRecency(front));
      InsertByRecency(tabs[|tabs| - 1], SortByRecency(front))
  }

  /** A head whose id no tail entry has, on a tail with unique ids, makes a list with unique ids. */
  lemma ConsUnique(h: TabInfo, s: seq<TabInfo>)
    requires UniqueIds(s)
    requires forall t :: t in s ==> t.id != h.id
    ensures UniqueIds([h] + s)
  {
    forall i, j | 0 <= i < j < |[h] + s|
      ensures ([h] + s)[i].id != ([h] + s)[j].id
    {
      if i == 0 {
        assert ([h] + s)[j] in s;
      }
    }
  }

  /** Inserting an entry whose id is new keeps the ids unique. */
  lemma {:induction false} InsertKeepsUnique(x: TabInfo, s: seq<TabInfo>)
    requires UniqueIds(s)
    requires forall t :: t in s ==> t.id != x.id
    ensures UniqueIds(InsertByRecency(x, s))
  {
    if s != [] {
      HeadDominates(s);
      if s[0].lastModified < x.lastModified {
        ConsUnique(x, s);
      } else {
        var rest := InsertByRecency(x, s[1..]);
        InsertKeepsUnique(x, s[1..]);
        forall t | t in rest
          ensures t.id != s[0].id
        {
          assert t in multiset(rest);
        }
        ConsUnique(s[0], rest);
      }
    }
  }

  /** Sorting keeps the ids unique. */
  lemma {:induction false} SortKeepsUnique(tabs: seq<TabInfo>)
    requires UniqueIds(tabs)
    ensures UniqueIds(SortByRecency(tabs))
    decreases |tabs|
  {
    if tabs != [] {
      var front := tabs[..|tabs| - 1];
      var x := tabs[|tabs| - 1];
      SortKeepsUnique(front);
      forall t | t in SortByRecency(front)
        ensures t.id != x.id
      {
        assert t in multiset(front);
        var i :| 0 <= i < |front| && front[i] == t;
        assert tabs[i] == t;
      }
      InsertKeepsUnique(x, SortByRecency(front));
    }
  }

  /** The first entry with `info.id` replaced by `info`, or `info` appended when there is none. */
  function Upsert(tabs: seq<TabInfo>, info: TabInfo): (r: seq<TabInfo>)
    ensures FindById(tabs, info.id) >= 0 ==> r == tabs[FindById(tabs, info.id) := info]
    ensures FindById(tabs, info.id) < 0 ==> r == tabs + [info]
    ensures info in r
  {
    var i := FindById(tabs, info.id);
    if i >= 0 then
      assert tabs[i := info][i] == info;
      tabs[i := info]
    else
      assert (tabs + [info])[|tabs|] == info;
      tabs + [info]
  }

  /** Replacing an entry by id, or appending a new id, keeps the ids unique. */
  lemma UpsertKeepsUnique(tabs: seq<TabInfo>, info: TabInfo)
    requires UniqueIds(tabs)
    ensures UniqueIds(Upsert(tabs, info))
  {
    var r := Upsert(tabs, info);
    var i := FindById(tabs, info.id);
    forall a, b | 0 <= a < b < |r|
      ensures r[a].id != r[b].id
    {
      if i < 0 && b == |tabs| {
        assert tabs[a].id != info.id;
      }
    }
  }

  /** `updateTabRegistry(info)` on the registry `registry`: the list it writes back. */
  method UpdateTabRegistry(registry: seq<TabInfo>, info: TabInfo) returns (written: seq<TabInfo>)
    ensures |written| <= MaxTabs
    ensures NewestFirst(written)
    ensures written == SortByRecency(Upsert(registry, info))[..if |Upsert(registry, info)| < MaxTabs then |Upsert(registry, info)| else MaxTabs]
    ensures UniqueIds(registry) ==> UniqueIds(written)
  {
    var tabs := registry;
    var existingIndex := FindById(tabs, info.id);
    if existingIndex >= 0 {
      tabs := tabs[existingIndex := info];
    } else {
      tabs := tabs + [info];
    }
    var sorted := SortByRecency(tabs);
    written := sorted[..if |sorted| < MaxTabs then |sorted| else MaxTabs];
    if UniqueIds(registry) {
      UpsertKeepsUnique(registry, info);
      SortKeepsUnique(tabs);
    }
  }

  /** What the trim drops is never newer than what it keeps. */
  lemma TrimKeepsNewest(sorted: seq<TabInfo>, k: nat, i: nat, j: nat)
    requires NewestFirst(sorted) && k <= |sorted|
    requires i < k <= j < |sorted|
    ensures sorted[..k][i].lastModified >= sorted[j].lastModified
  {
  }

  /** An entry updated with a timestamp newer than every other entry is kept, at the front. */
  lemma NewestUpdateKept(registry: seq<TabInfo>, info: TabInfo)
    requires forall t :: t in registry ==> t.lastModified < info.lastModified
    ensures var s := SortByRecency(Upsert(registry, info)); |s| > 0 && s[0] == info
  {
    var u := Upsert(registry, info);
    var s := SortByRecency(u);
    assert forall t :: t in u ==> t == info || t in registry;
    assert info in multiset(s);
    assert s[0] in multiset(u);
  }

  /** `removeFromTabRegistry(id)`: every entry with that id dropped, the rest kept in order. */
  function RemoveFromTabRegistry(tabs: seq<TabInfo>, id: string): (r: seq<TabInfo>)
    ensures forall t :: t in r <==> t in tabs && t.id != id
    ensures IsSubsequence(r, tabs)
    ensures forall t :: multiset(r)[t] == if t.id != id then multiset(tabs)[t] else 0
    ensures |r| <= |tabs|
  {
    if tabs == [] then []
    else
      assert tabs == [tabs[0]] + tabs[1..];
      var rest := RemoveFromTabRegistry(tabs[1..], id);
      if tabs[0].id != id then
        assert ([tabs[0]] + rest)[1..] == rest;
        [tabs[0]] + rest
      else
        SkipHead(rest, tabs);
        rest
  }

  /** Removing a tab keeps the ids unique and the order newest first. */
  lemma {:induction false} RemoveKeepsInvariants(tabs: seq<TabInfo>, id: string)
    requires UniqueIds(tabs) && NewestFirst(tabs)
    ensures UniqueIds(RemoveFromTabRegistry(tabs, id)) && NewestFirst(RemoveFromTabRegistry(tabs, id))
  {
    if tabs != [] {
      var rest := RemoveFromTabRegistry(tabs[1..], id);
      RemoveKeepsInvariants(tabs[1..], id);
      if tabs[0].id != id {
        HeadDominates(tabs);
        ConsUnique(tabs[0], rest);
        ConsNewestFirst(tabs[0], rest);
      }
    }
  }

  /** `getEditorStorageKey(tabId)`. */
  function EditorStorageKey(tabId: string): (key: string)
    ensures |key| == |"superjson-editor-"| + |tabId|
    ensures key[..|"superjson-editor-"|] == "superjson-editor-" && key[|"superjson-editor-"|..] == tabId
  {
    "superjson-editor-" + tabId
  }

  /** Different tabs persist under different keys. */
  lemma StorageKeysDistinct(a: string, b: string)
    requires a != b
    ensures EditorStorageKey(a) != EditorStorageKey(b)
  {
    assert EditorStorageKey(a)[17..] == a && EditorStorageKey(b)[17..] == b;
  }
}
