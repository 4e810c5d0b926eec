/**
 * The recursive helpers of the editor store (stores/editor.ts): collecting the keys of
 * the containers above a depth limit, collecting search hits in pre-order, and adding
 * the keys of a path's ancestors to the expansion set.
 *
 * Each helper fills a set or list passed in by the caller; here it takes that
 * collection as an argument and returns the filled one.
 */
module EditorHelpers {
  import opened Options
  import opened Strings
  import opened JsonValues
  import opened JsonPath

  // ---------------------------------------------------------------------------
  // expandToDepthHelper
  // ---------------------------------------------------------------------------

  /** The `maxDepth` argument: `Infinity` (expand all) or a number. */
  datatype DepthLimit = Unbounded | Limit(n: int)

  /** `!(path.length >= maxDepth)`. */
  predicate Below(len: nat, limit: DepthLimit) {
    limit.Unbounded? || len < limit.n
  }

  /** The keys the helper adds for `v` at `path`: the container itself when above the limit, then its children's. */
  function ExpandKeys(v: Json, path: Path, limit: DepthLimit): set<string>
    decreases v, 1
  {
    if !Below(|path|, limit) || !IsContainer(v) then {}
    else {PathToKey(path)} + ExpandEntryKeys(Entries(v), v, path, limit)
  }

  function ExpandEntryKeys(es: seq<(string, Json)>, ghost parent: Json, path: Path, limit: DepthLimit): set<string>
    requires forall i :: 0 <= i < |es| ==> es[i].1 < parent
    decreases parent, 0, |es|
  {
    if es == [] then {}
    else ExpandEntryKeys(es[..|es| - 1], parent, path, limit)
         + ExpandKeys(es[|es| - 1].1, path + [es[|es| - 1].0], limit)
  }

  /** The keys added for one entry are among those added for all of them. */
  lemma {:induction false} ExpandEntryKeysHas(es: seq<(string, Json)>, parent: Json, path: Path, limit: DepthLimit, i: nat)
    requires forall k :: 0 <= k < |es| ==> es[k].1 < parent
    requires i < |es|
    ensures ExpandKeys(es[i].1, path + [es[i].0], limit) <= ExpandEntryKeys(es, parent, path, limit)
    decreases |es|
  {
    if i < |es| - 1 {
      ExpandEntryKeysHas(es[..|es| - 1], parent, path, limit, i);
    }
  }

  /** `expandToDepthHelper(value, path, maxDepth, expandedPaths)`. */
  method ExpandToDepthHelper(v: Json, path: Path, maxDepth: DepthLimit, expanded: set<string>)
    returns (result: set<string>)
    ensures result == expanded + ExpandKeys(v, path, maxDepth)
    decreases v
  {
    if !Below(|path|, maxDepth) {
      return expanded;
    }
    if !IsContainer(v) {
      return expanded;
    }
    result := expanded + {PathToKey(path)};
    var es := Entries(v);
    for i := 0 to |es|
      invariant result == expanded + {PathToKey(path)} + ExpandEntryKeys(es[..i], v, path, maxDepth)
    {
      ExpandStep(v, i, path, maxDepth);
      result := ExpandToDepthHelper(es[i].1, path + [es[i].0], maxDepth, result);
    }
    assert es[..|es|] == es;
  }

  /** Taking in entry `i` adds the keys under it. */
  lemma {:induction false} ExpandStep(v: Json, i: nat, path: Path, limit: DepthLimit)
    requires i < |Entries(v)|
    ensures ExpandEntryKeys(Entries(v)[..i + 1], v, path, limit)
            == ExpandEntryKeys(Entries(v)[..i], v, path, limit) + ExpandKeys(Entries(v)[i].1, path + [Entries(v)[i].0], limit)
  {
    var es := Entries(v);
    assert es[..i + 1][..i] == es[..i];
    assert es[..i + 1][i] == es[i];
  }

  /** A node the path leads to that is a container above the limit. */
  predicate ExpandableAt(v: Json, base: Path, p: Path, limit: DepthLimit) {
    NodeAt(v, p).Some? && IsContainer(NodeAt(v, p).value) && Below(|base| + |p|, limit)
  }

  lemma {:induction false} FirstWithIsEntry(es: seq<(string, Json)>, seg: string, parent: Json)
    returns (k: nat)
    requires forall i :: 0 <= i < |es| ==> es[i].1 < parent
    requires FirstWith(es, seg, parent).Some?
    ensures k < |es| && es[k].0 == seg && FirstWith(es, seg, parent) == Some(es[k].1)
  {
    if es[0].0 == seg {
      k := 0;
    } else {
      var k' := FirstWithIsEntry(es[1..], seg, parent);
      k := k' + 1;
    }
  }

  lemma {:induction false} EntryKeysInclude(es: seq<(string, Json)>, parent: Json, path: Path, limit: DepthLimit, k: nat)
    requires forall i :: 0 <= i < |es| ==> es[i].1 < parent
    requires k < |es|
    ensures ExpandKeys(es[k].1, path + [es[k].0], limit) <= ExpandEntryKeys(es, parent, path, limit)
    decreases |es|
  {
    if k < |es| - 1 {
      EntryKeysInclude(es[..|es| - 1], parent, path, limit, k);
    }
  }

  /** Every container the walk reaches above the limit has its key added (empty containers included). */
  lemma {:induction false} ExpandKeysComplete(v: Json, base: Path, p: Path, limit: DepthLimit)
    requires ExpandableAt(v, base, p, limit)
    ensures PathToKey(base + p) in ExpandKeys(v, base, limit)
    decreases |p|
  {
    if p == [] {
      assert base + p == base;
    } else {
      var es := Entries(v);
      var k := FirstWithIsEntry(es, p[0], v);
      var c := es[k].1;
      assert NodeAt(v, p) == NodeAt(c, p[1..]);
      assert ExpandableAt(c, base + [p[0]], p[1..], limit);
      ExpandKeysComplete(c, base + [p[0]], p[1..], limit);
      AppendAssoc(base, [p[0]], p[1..]);
      assert [p[0]] + p[1..] == p;
      EntryKeysInclude(es, v, base, limit, k);
      assert IsContainer(v);
    }
  }

  /** Every key added is the key of a container the walk reaches above the limit. */
  lemma {:induction false} ExpandKeysSound(v: Json, base: Path, limit: DepthLimit, key: string)
    returns (p: Path)
    requires UniqueKeys(v)
    requires key in ExpandKeys(v, base, limit)
    ensures ExpandableAt(v, base, p, limit) && key == PathToKey(base + p)
    decreases v, 1
  {
    if key == PathToKey(base) {
      p := [];
      assert base + p == base;
    } else {
      var es := Entries(v);
      var k := EntryKeysSound(es, v, base, limit, key);
      var seg, c := es[k].0, es[k].1;
      assert UniqueKeys(c);
      var q := ExpandKeysSound(c, base + [seg], limit, key);
      p := [seg] + q;
      ExpandableStep(v, base, k, q, limit);
      AppendAssoc(base, [seg], q);
    }
  }

  /** A container reachable below entry `k` is reachable from the parent through that entry's segment. */
  lemma {:induction false} ExpandableStep(v: Json, base: Path, k: nat, q: Path, limit: DepthLimit)
    requires UniqueKeys(v) && k < |Entries(v)|
    requires ExpandableAt(Entries(v)[k].1, base + [Entries(v)[k].0], q, limit)
    ensures ExpandableAt(v, base, [Entries(v)[k].0] + q, limit)
  {
    var seg, c := Entries(v)[k].0, Entries(v)[k].1;
    NodeAtEntry(v, k, q);
    assert NodeAt(v, [seg] + q) == NodeAt(c, q);
    assert |base| + |[seg] + q| == |base + [seg]| + |q|;
  }

  lemma {:induction false} EntryKeysSound(es: seq<(string, Json)>, parent: Json, path: Path, limit: DepthLimit, key: string)
    returns (k: nat)
    requires forall i :: 0 <= i < |es| ==> es[i].1 < parent
    requires key in ExpandEntryKeys(es, parent, path, limit)
    ensures k < |es| && key in ExpandKeys(es[k].1, path + [es[k].0], limit)
    decreases |es|
  {
    if key in ExpandKeys(es[|es| - 1].1, path + [es[|es| - 1].0], limit) {
      k := |es| - 1;
    } else {
      k := EntryKeysSound(es[..|es| - 1], parent, path, limit, key);
    }
  }

  /** Nothing is added for a primitive root or when the limit is 0 or less. */
  lemma {:induction false} ExpandKeysNothing(v: Json, limit: DepthLimit)
    requires !IsContainer(v) || (limit.Limit? && limit.n <= 0)
    ensures ExpandKeys(v, [], limit) == {}
  {
  }

  // ---------------------------------------------------------------------------
  // searchHelper
  // ---------------------------------------------------------------------------

  datatype MatchType = KeyMatch | ValueMatch

  datatype SearchResult = SearchResult(path: Path, matchType: MatchType, value: Json)

  /** The text a leaf is matched against: "null", the lowercased string, `String(n)`, "true"/"false". */
  function LeafText(v: Json): string
    requires !IsContainer(v)
  {
    match v
    case Null => "null"
    case Str(s) => ToLower(s)
    case Num(t) => t
    case Bool(b) => if b then "true" else "false"
  }

  /** The hits for `v` at `path`, in the order the helper pushes them. */
  function SearchHits(v: Json, path: Path, query: string): seq<SearchResult>
    decreases v, 1
  {
    if !IsContainer(v) then
      if Contains(LeafText(v), query) then [SearchResult(path, ValueMatch, v)] else []
    else EntryHits(Entries(v), v, path, query)
  }

  /** For each entry: its key hit first (object members only), then the hits inside its value. */
  function EntryHits(es: seq<(string, Json)>, parent: Json, path: Path, query: string): seq<SearchResult>
    requires forall i :: 0 <= i < |es| ==> es[i].1 < parent
    decreases parent, 0, |es|
  {
    if es == [] then []
    else
      var (key, child) := es[|es| - 1];
      EntryHits(es[..|es| - 1], parent, path, query)
      + (if parent.Obj? && Contains(ToLower(key), query) then [SearchResult(path + [key], KeyMatch, child)] else [])
      + SearchHits(child, path + [key], query)
  }

  /** `searchHelper(value, path, query, results)`. */
  method SearchHelper(v: Json, path: Path, query: string, results: seq<SearchResult>)
    returns (out: seq<SearchResult>)
    ensures out == results + SearchHits(v, path, query)
    decreases v
  {
    if !IsContainer(v) {
      // null, string, number and boolean: one value hit when the leaf's text contains the query
      out := if Contains(LeafText(v), query) then results + [SearchResult(path, ValueMatch, v)] else results;
      return;
    }
    out := results;
    var es := Entries(v);
    for i := 0 to |es|
      invariant out == results + EntryHits(es[..i], v, path, query)
    {
      var key, child := es[i].0, es[i].1;
      ghost var before := out;
      ghost var keyHit := if v.Obj? && Contains(ToLower(key), query) then [SearchResult(path + [key], KeyMatch, child)] else [];
      assert es[..i + 1][..i] == es[..i];
      assert EntryHits(es[..i + 1], v, path, query) == EntryHits(es[..i], v, path, query) + keyHit + SearchHits(child, path + [key], query);
      if v.Obj? && Contains(ToLower(key), query) {
        out := out + [SearchResult(path + [key], KeyMatch, child)];
      }
      assert out == before + keyHit;
      out := SearchHelper(child, path + [key], query, out);
      AppendAssoc(results, EntryHits(es[..i], v, path, query), keyHit);
      AppendAssoc(results, EntryHits(es[..i], v, path, query) + keyHit, SearchHits(child, path + [key], query));
    }
    assert es[..|es|] == es;
  }

  /** What a single hit promises about the tree it came from. */
  predicate HitIsSound(v: Json, base: Path, query: string, r: SearchResult) {
    |base| <= |r.path| && r.path[..|base|] == base
    && NodeAt(v, r.path[|base|..]) == Some(r.value)
    && (r.matchType == ValueMatch ==> !IsContainer(r.value) && Contains(LeafText(r.value), query))
    && (r.matchType == KeyMatch ==> |r.path| > |base| && Contains(ToLower(r.path[|r.path| - 1]), query))
  }

  /**
   * Every hit names a node under the search root: a value hit is a leaf whose text
   * contains the query, a key hit a member whose lowercased key contains it. Arrays
   * and objects never give a value hit.
   */
  lemma {:induction false} SearchHitsSound(v: Json, base: Path, query: string)
    requires UniqueKeys(v)
    ensures forall i :: 0 <= i < |SearchHits(v, base, query)| ==> HitIsSound(v, base, query, SearchHits(v, base, query)[i])
    decreases v, 1
  {
    if !IsContainer(v) {
      assert base[..|base|] == base && base[|base|..] == [];
    } else {
      EntryHitsSound(Entries(v), v, base, query);
    }
  }

  predicate AllSound(v: Json, base: Path, query: string, rs: seq<SearchResult>) {
    forall i :: 0 <= i < |rs| ==> HitIsSound(v, base, query, rs[i])
  }

  lemma {:induction false} EntryHitsSound(es: seq<(string, Json)>, parent: Json, base: Path, query: string)
    requires |es| <= |Entries(parent)| && es == Entries(parent)[..|es|]
    requires UniqueKeys(parent) && IsContainer(parent)
    ensures AllSound(parent, base, query, EntryHits(es, parent, base, query))
    decreases parent, 0, |es|
  {
    if es != [] {
      var n := |es| - 1;
      var key, child := es[n].0, es[n].1;
      var front := es[..n];
      assert front == Entries(parent)[..n];
      assert es[n] == Entries(parent)[n];
      var fh := EntryHits(front, parent, base, query);
      var keyHits := if parent.Obj? && Contains(ToLower(key), query) then [SearchResult(base + [key], KeyMatch, child)] else [];
      var inner := SearchHits(child, base + [key], query);
      assert EntryHits(es, parent, base, query) == fh + keyHits + inner;
      EntryHitsSound(front, parent, base, query);
      KeyHitSound(parent, base, query, n);
      ChildOfEntry(parent, n);
      SearchHitsSound(child, base + [key], query);
      LiftHits(parent, base, query, n, inner);
      AllSoundConcat(parent, base, query, fh, keyHits);
      AllSoundConcat(parent, base, query, fh + keyHits, inner);
    }
  }

  lemma {:induction false} AllSoundConcat(v: Json, base: Path, query: string, xs: seq<SearchResult>, ys: seq<SearchResult>)
    requires AllSound(v, base, query, xs) && AllSound(v, base, query, ys)
    ensures AllSound(v, base, query, xs + ys)
  {
    forall i | 0 <= i < |xs + ys|
      ensures HitIsSound(v, base, query, (xs + ys)[i])
    {
      if i >= |xs| {
        assert (xs + ys)[i] == ys[i - |xs|];
      }
    }
  }

  /** The key hit of member `n`, when there is one, names that member. */
  lemma {:induction false} KeyHitSound(parent: Json, base: Path, query: string, n: nat)
    requires UniqueKeys(parent) && n < |Entries(parent)|
    ensures var (key, child) := Entries(parent)[n];
            parent.Obj? && Contains(ToLower(key), query) ==>
              HitIsSound(parent, base, query, SearchResult(base + [key], KeyMatch, child))
  {
    var (key, child) := Entries(parent)[n];
    ChildOfEntry(parent, n);
    var p := base + [key];
    assert p[..|base|] == base;
    assert p[|base|..] == [key];
    assert NodeAt(parent, [key]) == NodeAt(child, []);
  }

  /** Hits found under member `n` are hits of the parent, at the same full paths. */
  lemma {:induction false} LiftHits(parent: Json, base: Path, query: string, n: nat, rs: seq<SearchResult>)
    requires UniqueKeys(parent) && n < |Entries(parent)|
    requires AllSound(Entries(parent)[n].1, base + [Entries(parent)[n].0], query, rs)
    ensures AllSound(parent, base, query, rs)
  {
    forall i | 0 <= i < |rs|
      ensures HitIsSound(parent, base, query, rs[i])
    {
      LiftHit(parent, base, query, n, rs[i]);
    }
  }

  lemma {:induction false} LiftHit(parent: Json, base: Path, query: string, n: nat, r: SearchResult)
    requires UniqueKeys(parent) && n < |Entries(parent)|
    requires HitIsSound(Entries(parent)[n].1, base + [Entries(parent)[n].0], query, r)
    ensures HitIsSound(parent, base, query, r)
  {
    var key := Entries(parent)[n].0;
    PathUnderChild(r.path, base, key);
    NodeAtEntry(parent, n, r.path[|base| + 1..]);
  }

  /** A path that starts with `base + [key]` starts with `base`, and after `base` comes `key` and then the rest. */
  lemma PathUnderChild(p: Path, base: Path, key: string)
    requires |base + [key]| <= |p| && p[..|base + [key]|] == base + [key]
    ensures |base| <= |p| && p[..|base|] == base
    ensures p[|base|..] == [key] + p[|base| + 1..]
  {
    assert p[..|base|] == p[..|base| + 1][..|base|];
    assert p[|base|] == key;
  }

  /** Every leaf whose text contains the query is reported, at its full path. */
  lemma {:induction false} SearchHitsComplete(v: Json, base: Path, p: Path, query: string)
    requires NodeAt(v, p).Some? && !IsContainer(NodeAt(v, p).value)
    requires Contains(LeafText(NodeAt(v, p).value), query)
    ensures SearchResult(base + p, ValueMatch, NodeAt(v, p).value) in SearchHits(v, base, query)
    decreases |p|
  {
    if p == [] {
      assert base + p == base;
    } else {
      var es := Entries(v);
      var k := FirstWithIsEntry(es, p[0], v);
      var c := es[k].1;
      var leaf := NodeAt(v, p).value;
      assert SearchResult(base + p, ValueMatch, leaf) in SearchHits(c, base + [p[0]], query) by {
        assert NodeAt(c, p[1..]) == Some(leaf);
        SearchHitsComplete(c, base + [p[0]], p[1..], query);
        AppendAssoc(base, [p[0]], p[1..]);
        assert [p[0]] + p[1..] == p;
      }
      EntryHitsInclude(es, v, base, query, k);
      assert IsContainer(v);
    }
  }

  lemma {:induction false} EntryHitsInclude(es: seq<(string, Json)>, parent: Json, path: Path, query: string, k: nat)
    requires forall i :: 0 <= i < |es| ==> es[i].1 < parent
    requires k < |es|
    ensures forall r :: r in SearchHits(es[k].1, path + [es[k].0], query) ==> r in EntryHits(es, parent, path, query)
    decreases |es|
  {
    if k < |es| - 1 {
      EntryHitsInclude(es[..|es| - 1], parent, path, query, k);
    }
  }

  /** Every member whose lowercased key contains the query is reported as a key hit, at its full path, with its value. */
  lemma {:induction false} KeyHitsComplete(v: Json, base: Path, p: Path, key: string, query: string)
    requires NodeAt(v, p).Some? && NodeAt(v, p).value.Obj?
    requires Child(NodeAt(v, p).value, key).Some? && Contains(ToLower(key), query)
    ensures SearchResult(base + p + [key], KeyMatch, Child(NodeAt(v, p).value, key).value) in SearchHits(v, base, query)
    decreases |p|
  {
    var es := Entries(v);
    if p == [] {
      var k := FirstWithIsEntry(es, key, v);
      EntryKeyHitInclude(es, v, base, query, k);
      assert base + p == base;
    } else {
      var k := FirstWithIsEntry(es, p[0], v);
      var c := es[k].1;
      assert NodeAt(c, p[1..]) == NodeAt(v, p);
      var hit := SearchResult(base + p + [key], KeyMatch, Child(NodeAt(v, p).value, key).value);
      assert hit in SearchHits(c, base + [p[0]], query) by {
        KeyHitsComplete(c, base + [p[0]], p[1..], key, query);
        AppendAssoc(base, [p[0]], p[1..]);
        assert [p[0]] + p[1..] == p;
      }
      EntryHitsInclude(es, v, base, query, k);
      assert IsContainer(v);
    }
  }

  lemma {:induction false} EntryKeyHitInclude(es: seq<(string, Json)>, parent: Json, path: Path, query: string, k: nat)
    requires forall i :: 0 <= i < |es| ==> es[i].1 < parent
    requires parent.Obj? && k < |es| && Contains(ToLower(es[k].0), query)
    ensures SearchResult(path + [es[k].0], KeyMatch, es[k].1) in EntryHits(es, parent, path, query)
    decreases |es|
  {
    if k < |es| - 1 {
      EntryKeyHitInclude(es[..|es| - 1], parent, path, query, k);
    }
  }

  /** Every hit lies at or under the path searched from; a key hit lies strictly under it. */
  lemma {:induction false} HitsUnderBase(v: Json, base: Path, query: string, r: SearchResult)
    requires r in SearchHits(v, base, query)
    ensures |base| <= |r.path| && r.path[..|base|] == base
    ensures r.matchType == KeyMatch ==> |r.path| > |base|
    decreases v, 1
  {
    if IsContainer(v) {
      var m := EntryHitsHeads(Entries(v), v, base, query, r);
    }
  }

  /** A hit from the members `es` lies under one of their keys, and that key is the segment right after `base`. */
  lemma {:induction false} EntryHitsHeads(es: seq<(string, Json)>, parent: Json, base: Path, query: string, r: SearchResult)
    returns (m: nat)
    requires forall i :: 0 <= i < |es| ==> es[i].1 < parent
    requires r in EntryHits(es, parent, base, query)
    ensures m < |es| && |base| < |r.path| && r.path[..|base|] == base && r.path[|base|] == es[m].0
    ensures r.matchType == KeyMatch ==> |r.path| > |base|
    decreases parent, 0, |es|
  {
    var n := |es| - 1;
    var (key, child) := es[n];
    var front := EntryHits(es[..n], parent, base, query);
    var keyHits := if parent.Obj? && Contains(ToLower(key), query) then [SearchResult(base + [key], KeyMatch, child)] else [];
    assert EntryHits(es, parent, base, query) == front + keyHits + SearchHits(child, base + [key], query);
    if r in front {
      m := EntryHitsHeads(es[..n], parent, base, query, r);
    } else {
      m := n;
      if r !in keyHits {
        HitsUnderBase(child, base + [key], query, r);
        assert r.path[..|base|] == r.path[..|base| + 1][..|base|];
      }
    }
  }

  /** `a` is a key hit and `b` lies at or under its path. */
  predicate Covers(a: SearchResult, b: SearchResult) {
    a.matchType == KeyMatch && |a.path| <= |b.path| && b.path[..|a.path|] == a.path
  }

  /** In `hs`, every key hit comes before every other hit at or under its path. */
  predicate KeyHitsFirst(hs: seq<SearchResult>) {
    forall i, j :: 0 <= i < |hs| && 0 <= j < |hs| && i != j && Covers(hs[i], hs[j]) ==> i < j
  }

  /**
   * A member's key hit comes before every other hit at or under that member's path:
   * the helper pushes the key hit before it searches the member's value.
   */
  lemma {:induction false} SearchKeyHitsFirst(v: Json, base: Path, query: string)
    requires UniqueKeys(v)
    ensures KeyHitsFirst(SearchHits(v, base, query))
    decreases v, 1
  {
    if IsContainer(v) {
      assert Entries(v)[..|Entries(v)|] == Entries(v);
      EntryKeyHitsFirst(Entries(v), v, base, query);
    }
  }

  lemma {:induction false} EntryKeyHitsFirst(es: seq<(string, Json)>, parent: Json, base: Path, query: string)
    requires UniqueKeys(parent) && |es| <= |Entries(parent)| && es == Entries(parent)[..|es|]
    ensures KeyHitsFirst(EntryHits(es, parent, base, query))
    decreases parent, 0, |es|
  {
    if es != [] {
      var n := |es| - 1;
      var front := EntryHits(es[..n], parent, base, query);
      var last := MemberHits(es[n].0, es[n].1, parent, base, query);
      assert es[..n] == Entries(parent)[..n];
      EntryKeyHitsFirst(es[..n], parent, base, query);
      assert es[n] == Entries(parent)[n];
      MemberKeyHitsFirst(es[n].0, es[n].1, parent, base, query);
      forall a, b | a in last && b in front
        ensures !Covers(a, b)
      {
        CrossMembers(es, parent, base, query, a, b);
      }
      EntryHitsSplit(es, parent, base, query);
      ConcatKeyHitsFirst(front, last);
    }
  }

  /** Within one member's hits, its key hit comes first. */
  lemma {:induction false} MemberKeyHitsFirst(key: string, child: Json, parent: Json, base: Path, query: string)
    requires child < parent && UniqueKeys(child)
    ensures KeyHitsFirst(MemberHits(key, child, parent, base, query))
    decreases parent, 0, 0
  {
    var keyHits := if parent.Obj? && Contains(ToLower(key), query) then [SearchResult(base + [key], KeyMatch, child)] else [];
    var inner := SearchHits(child, base + [key], query);
    SearchKeyHitsFirst(child, base + [key], query);
    forall a, b | a in inner && b in keyHits
      ensures !Covers(a, b)
    {
      // a key hit inside the value lies deeper than the member's own key hit
      HitsUnderBase(child, base + [key], query, a);
    }
    assert KeyHitsFirst(keyHits);
    ConcatKeyHitsFirst(keyHits, inner);
  }

  /** Key hits stay first in a concatenation when no hit of the second part covers one of the first. */
  lemma ConcatKeyHitsFirst(xs: seq<SearchResult>, ys: seq<SearchResult>)
    requires KeyHitsFirst(xs) && KeyHitsFirst(ys)
    requires forall a, b :: a in ys && b in xs ==> !Covers(a, b)
    ensures KeyHitsFirst(xs + ys)
  {
    var hs := xs + ys;
    forall i, j | 0 <= i < |hs| && 0 <= j < |hs| && i != j && Covers(hs[i], hs[j])
      ensures i < j
    {
      if i < |xs| && j < |xs| {
        assert hs[i] == xs[i] && hs[j] == xs[j];
      } else if i >= |xs| && j >= |xs| {
        assert hs[i] == ys[i - |xs|] && hs[j] == ys[j - |xs|];
      }
    }
  }

  /** One member's hits: its key hit (object members only), then the hits inside its value. */
  function MemberHits(key: string, child: Json, parent: Json, base: Path, query: string): seq<SearchResult> {
    (if parent.Obj? && Contains(ToLower(key), query) then [SearchResult(base + [key], KeyMatch, child)] else [])
    + SearchHits(child, base + [key], query)
  }

  /** The members' hits are those of all members but the last, followed by the last member's. */
  lemma EntryHitsSplit(es: seq<(string, Json)>, parent: Json, base: Path, query: string)
    requires forall i :: 0 <= i < |es| ==> es[i].1 < parent
    requires es != []
    ensures EntryHits(es, parent, base, query)
         == EntryHits(es[..|es| - 1], parent, base, query) + MemberHits(es[|es| - 1].0, es[|es| - 1].1, parent, base, query)
  {
    var n := |es| - 1;
    AppendAssoc(EntryHits(es[..n], parent, base, query),
                if parent.Obj? && Contains(ToLower(es[n].0), query) then [SearchResult(base + [es[n].0], KeyMatch, es[n].1)] else [],
                SearchHits(es[n].1, base + [es[n].0], query));
  }

  /** Every hit of a member lies at or under that member's path. */
  lemma MemberHitsUnder(key: string, child: Json, parent: Json, base: Path, query: string, r: SearchResult)
    requires r in MemberHits(key, child, parent, base, query)
    ensures |base| < |r.path| && r.path[|base|] == key
  {
    if r in SearchHits(child, base + [key], query) {
      HitsUnderBase(child, base + [key], query, r);
      assert r.path[..|base| + 1][|base|] == r.path[|base|];
    }
  }

  /** No hit of an earlier member extends a hit of the last member. */
  lemma {:induction false} CrossMembers(es: seq<(string, Json)>, parent: Json, base: Path, query: string, a: SearchResult, b: SearchResult)
    requires UniqueKeys(parent) && 0 < |es| <= |Entries(parent)| && es == Entries(parent)[..|es|]
    requires a in MemberHits(es[|es| - 1].0, es[|es| - 1].1, parent, base, query)
    requires b in EntryHits(es[..|es| - 1], parent, base, query)
    ensures |b.path| < |a.path| || b.path[..|a.path|] != a.path
  {
    MemberHitsUnder(es[|es| - 1].0, es[|es| - 1].1, parent, base, query, a);
    EarlierMemberElsewhere(es, parent, base, query, b);
    if |a.path| <= |b.path| {
      assert b.path[..|a.path|][|base|] == b.path[|base|];
    }
  }

  /** A hit from the members before the last lies under a key other than the last member's. */
  lemma {:induction false} EarlierMemberElsewhere(es: seq<(string, Json)>, parent: Json, base: Path, query: string, r: SearchResult)
    requires UniqueKeys(parent) && 0 < |es| <= |Entries(parent)| && es == Entries(parent)[..|es|]
    requires r in EntryHits(es[..|es| - 1], parent, base, query)
    ensures |base| < |r.path| && r.path[|base|] != es[|es| - 1].0
  {
    var n := |es| - 1;
    var m := EntryHitsHeads(es[..n], parent, base, query, r);
    assert es[m] == Entries(parent)[m] && es[n] == Entries(parent)[n];
    EntrySegmentsDistinct(parent, m, n);
  }

  /** The example document `{"a":[1,{"b":"x"}],"c":null}`. */
  function ExampleDoc(): Json {
    Obj([("a", Arr([Num("1"), Obj([("b", Str("x"))])])), ("c", Null)])
  }

  lemma ExampleLeafTexts()
    ensures ToLower("a") == "a" && ToLower("b") == "b" && ToLower("c") == "c" && ToLower("x") == "x"
    ensures !Contains("a", "b") && Contains("b", "b") && !Contains("c", "b") && !Contains("1", "b")
    ensures !Contains("x", "b") && !Contains("null", "b")
    ensures !Contains("a", "x") && !Contains("b", "x") && !Contains("c", "x") && !Contains("1", "x")
    ensures Contains("x", "x") && !Contains("null", "x")
  {
    ContainsChar("a", 'b'); ContainsChar("b", 'b'); ContainsChar("c", 'b'); ContainsChar("1", 'b');
    ContainsChar("x", 'b'); ContainsChar("null", 'b');
    ContainsChar("a", 'x'); ContainsChar("b", 'x'); ContainsChar("c", 'x'); ContainsChar("1", 'x');
    ContainsChar("x", 'x'); ContainsChar("null", 'x');
  }

  /** In the example, the object `{"b":"x"}` at ["a", "1"] gives a key hit for "b" and a value hit for "x". */
  lemma ExampleInnerHits()
    ensures SearchHits(Obj([("b", Str("x"))]), ["a", "1"], "b") == [SearchResult(["a", "1", "b"], KeyMatch, Str("x"))]
    ensures SearchHits(Obj([("b", Str("x"))]), ["a", "1"], "x") == [SearchResult(["a", "1", "b"], ValueMatch, Str("x"))]
  {
    ExampleLeafTexts();
    var inner := Obj([("b", Str("x"))]);
    assert ["a", "1"] + ["b"] == ["a", "1", "b"];
    assert Entries(inner) == [("b", Str("x"))] && Entries(inner)[..0] == [];
  }

  /** In the example, the array at ["a"] passes on exactly the hits of its second element. */
  lemma ExampleArrayHits(q: string)
    requires q == "b" || q == "x"
    ensures SearchHits(Arr([Num("1"), Obj([("b", Str("x"))])]), ["a"], q) == SearchHits(Obj([("b", Str("x"))]), ["a", "1"], q)
  {
    ExampleLeafTexts();
    var inner := Obj([("b", Str("x"))]);
    var arr := Arr([Num("1"), inner]);
    assert NatToString(0) == "0" && NatToString(1) == "1";
    var es := Entries(arr);
    assert es == [("0", Num("1")), ("1", inner)];
    assert ["a"] + ["0"] == ["a", "0"] && ["a"] + ["1"] == ["a", "1"];
    assert SearchHits(Num("1"), ["a", "0"], q) == [];
    assert es[..1] == [("0", Num("1"))] && es[..1][..0] == [] && es[..2] == es;
    assert EntryHits(es[..1], arr, ["a"], q) == [];
  }

  /** In the example, the whole document passes on exactly the hits under ["a", "1"]. */
  lemma ExampleDocHits(q: string)
    requires q == "b" || q == "x"
    ensures SearchHits(ExampleDoc(), [], q) == SearchHits(Obj([("b", Str("x"))]), ["a", "1"], q)
  {
    ExampleLeafTexts();
    ExampleArrayHits(q);
    var doc := ExampleDoc();
    var arr := Arr([Num("1"), Obj([("b", Str("x"))])]);
    var ms := Entries(doc);
    assert ms == [("a", arr), ("c", Null)];
    assert EntryHits(ms[..1], doc, [], q) == SearchHits(arr, ["a"], q) by {
      assert ms[..1][..0] == [] && ms[..1][0] == ("a", arr);
      assert [] + ["a"] == ["a"];
    }
    assert EntryHits(ms, doc, [], q) == EntryHits(ms[..1], doc, [], q) by {
      assert ms[..|ms| - 1] == ms[..1] && ms[1] == ("c", Null);
      assert SearchHits(Null, [] + ["c"], q) == [];
    }
  }

  /** Searching the example for "b" finds only the key "b"; searching for "x" finds only its value. */
  lemma ExampleSearches()
    ensures SearchHits(ExampleDoc(), [], "b") == [SearchResult(["a", "1", "b"], KeyMatch, Str("x"))]
    ensures SearchHits(ExampleDoc(), [], "x") == [SearchResult(["a", "1", "b"], ValueMatch, Str("x"))]
  {
    ExampleInnerHits();
    ExampleDocHits("b");
    ExampleDocHits("x");
  }

  /** A query found in a key and in its value gives the key hit first, then the value hit, at the same path. */
  lemma KeyThenValue()
    ensures SearchHits(Obj([("x", Str("x"))]), [], "x")
         == [SearchResult(["x"], KeyMatch, Str("x")), SearchResult(["x"], ValueMatch, Str("x"))]
  {
    ExampleLeafTexts();
    var o := Obj([("x", Str("x"))]);
    assert Entries(o) == [("x", Str("x"))] && Entries(o)[..0] == [];
    assert [] + ["x"] == ["x"];
  }

  // ---------------------------------------------------------------------------
  // expandPathTo
  // ---------------------------------------------------------------------------

  /** The keys of the proper prefixes of `path`: lengths 0 to |path| - 1. */
  function AncestorKeys(path: Path): set<string> {
    set i | 0 <= i < |path| :: PathToKey(path[..i])
  }

  /** `expandPathTo(path, expandedPaths)`. */
  method ExpandPathTo(path: Path, expanded: set<string>) returns (result: set<string>)
    ensures result == expanded + AncestorKeys(path)
  {
    result := expanded;
    for i := 0 to |path|
      invariant result == expanded + set j | 0 <= j < i :: PathToKey(path[..j])
    {
      result := result + {PathToKey(path[..i])};
    }
  }

  /** The path's own key is never among its ancestors' keys, except for the path `[""]` whose key is the root's. */
  lemma {:induction false} AncestorKeysExcludeSelf(path: Path)
    ensures path != [""] ==> PathToKey(path) !in AncestorKeys(path)
    ensures AncestorKeys([""]) == {""}
  {
    if path != [""] && PathToKey(path) in AncestorKeys(path) {
      var i :| 0 <= i < |path| && PathToKey(path[..i]) == PathToKey(path);
      PrefixKeyDiffers(path, i);
    }
    assert [""][..0] == [];
  }

  /** Every ancestor of a non-empty path, including the root, gets its key. */
  lemma {:induction false} AncestorKeysInclude(path: Path, i: nat)
    requires i < |path|
    ensures PathToKey(path[..i]) in AncestorKeys(path)
  {
  }
}
