/**
 * The editor session store (stores/editor.ts): the loaded document, its expansion set,
 * selection and search state, and the actions that change them.
 *
 * Calls into code outside the store are inputs to the actions that make them: the
 * outcome of `JSON.parse` on the new text, the pointer map and text that the source-map
 * generator produces for a parsed document, and the clock reading (`Date.now()`).
 */
module Editor {
  import opened Options
  import opened Strings
  import opened JsonValues
  import opened JsonPath
  import opened SourceMap
  import opened EditorHelpers

  /** What `JSON.parse` did with the text: the value, or the error message it threw. */
  datatype ParseOutcome = Parsed(data: Json) | ParseFailed(error: string)

  /** `JsonStats` without the parse time: UTF-8 byte size, line count, node count and depth. */
  datatype JsonStats = JsonStats(bytes: nat, lines: nat, nodeCount: nat, maxDepth: nat)

  /** The editor scroll request set when the tree asks for a position. */
  datatype ScrollTarget = ScrollTarget(pos: int, timestamp: int)

  /**
   * The fields that loading a text sets: the input and its parse, the repair flags
   * and the source map of the formatted document.
   */
  datatype Document = Document(
    rawJson: string,
    parsedJson: Option<Json>,
    parseError: Option<string>,
    fileName: string,
    stats: Option<JsonStats>,
    repairedJson: Option<string>,
    wasRepaired: bool,
    repairDismissed: bool,
    sourcePointers: PointerMap,
    formattedJson: string)

  /** The layout fields: panel arrangement, tree or raw view, and line wrapping. */
  datatype Layout = Layout(layoutMode: string, viewMode: string, wordWrap: bool)

  /** The search fields: the query as typed, its results, the current result and whether the bar is shown. */
  datatype SearchState = SearchState(searchQuery: string, searchResults: seq<SearchResult>, searchIndex: int, showSearch: bool)

  /** The store's fields, as one value. */
  datatype EditorState = EditorState(
    doc: Document,
    layout: Layout,
    selectedPath: Path,
    expandedPaths: set<string>,
    search: SearchState,
    showCommandPalette: bool,
    hasHydrated: bool,
    scrollTarget: Option<ScrollTarget>)

  const EmptyDocument: Document := Document("", None, None, "", None, None, false, false, [], "")

  const InitialLayout: Layout := Layout("split-horizontal", "tree", true)

  const ClearedSearch: SearchState := SearchState("", [], 0, false)

  /** `initialState`. */
  function Initial(): (s: EditorState)
    ensures s.doc.parsedJson.None? && s.expandedPaths == {} && s.search.searchResults == [] && s.search.searchIndex == 0
  {
    EditorState(EmptyDocument, InitialLayout, [], {}, ClearedSearch, false, false, None)
  }

  /** When there are results, the current index names one of them. */
  predicate IndexInRange(s: SearchState) {
    s.searchResults != [] ==> 0 <= s.searchIndex < |s.searchResults|
  }

  /** `!parsedJson`: no document, or a document that JavaScript treats as false. */
  predicate NoDocument(parsed: Option<Json>) {
    parsed.None? || IsFalsy(parsed.value)
  }

  /** `fileName || ""`. */
  function NameOrEmpty(fileName: Option<string>): (r: string)
    ensures fileName.None? ==> r == ""
    ensures fileName.Some? ==> r == fileName.value
  {
    if fileName.Some? then fileName.value else ""
  }

  /** `calculateStats` without the timing: bytes of the UTF-8 encoding, lines split on "\n", node count and depth from the root. */
  method CalculateStats(input: string, data: Json) returns (stats: JsonStats)
    ensures stats == JsonStats(Utf8Length(input), |Split(input, '\n')|, Size(data), MaxDepth(data, 0))
    ensures stats.lines == CountChar(input, '\n') + 1
    ensures stats.nodeCount >= stats.maxDepth + 1
  {
    var nodeCount, maxDepth := CountNodes(data, 0);
    SizeBoundsDepth(data, 0);
    SplitCount(input, '\n');
    stats := JsonStats(Utf8Length(input), |Split(input, '\n')|, nodeCount, maxDepth);
  }

  /** The expansion set after toggling `key`: removed when present, added when absent. */
  function Toggled(expanded: set<string>, key: string): (r: set<string>)
    ensures key in r <==> key !in expanded
  {
    if key in expanded then expanded - {key} else expanded + {key}
  }

  /** Toggling changes the membership of that key only. */
  lemma ToggledOnlyKey(expanded: set<string>, key: string, other: string)
    requires other != key
    ensures other in Toggled(expanded, key) <==> other in expanded
  {
  }

  /** Toggling the same key twice restores the set. */
  lemma {:induction false} ToggledTwice(expanded: set<string>, key: string)
    ensures Toggled(Toggled(expanded, key), key) == expanded
  {
    if key in expanded {
      assert Toggled(expanded, key) == expanded - {key};
      assert (expanded - {key}) + {key} == expanded;
    } else {
      assert Toggled(expanded, key) == expanded + {key};
      assert (expanded + {key}) - {key} == expanded;
    }
  }

  /** `(searchIndex + 1) % searchResults.length`. */
  function NextIndex(i: int, n: nat): (r: int)
    requires n > 0 && 0 <= i < n
    ensures 0 <= r < n
    ensures r == if i == n - 1 then 0 else i + 1
  {
    (i + 1) % n
  }

  /** `searchIndex <= 0 ? searchResults.length - 1 : searchIndex - 1`. */
  function PrevIndex(i: int, n: nat): (r: int)
    requires n > 0 && i < n
    ensures 0 <= r < n
    ensures i <= 0 ==> r == n - 1
    ensures 0 < i ==> r == i - 1
  {
    if i <= 0 then n - 1 else i - 1
  }

  /** Next and previous undo each other on every index in range. */
  lemma NextPrevInverse(i: int, n: nat)
    requires n > 0 && 0 <= i < n
    ensures PrevIndex(NextIndex(i, n), n) == i
    ensures NextIndex(PrevIndex(i, n), n) == i
  {
  }

  /** Stepping forward n times from index 0 goes round the results once and comes back. */
  lemma {:induction false} NextCycles(n: nat, k: nat)
    requires n > 0 && k <= n
    ensures StepForward(0, n, k) == if k == n then 0 else k
  {
    if k > 0 {
      NextCycles(n, k - 1);
    }
  }

  function StepForward(i: int, n: nat, k: nat): (r: int)
    requires n > 0 && 0 <= i < n
    ensures 0 <= r < n
  {
    if k == 0 then i else NextIndex(StepForward(i, n, k - 1), n)
  }

  /** The scroll target for a path: the start of its value range at time `now`, or none when the path has no pointer. */
  function TargetFor(pointers: PointerMap, path: Path, now: int): (r: Option<ScrollTarget>)
    ensures r.Some? <==> GetPositionForPath(pointers, path).Some?
    ensures r.Some? ==> r.value.timestamp == now && r.value.pos == GetPositionForPath(pointers, path).value.value
  {
    match GetPositionForPath(pointers, path)
    case None => None
    case Some(p) => Some(ScrollTarget(p.value, now))
  }

  class EditorSession {
    var doc: Document
    var layout: Layout
    var selectedPath: Path
    var expandedPaths: set<string>
    var search: SearchState
    var showCommandPalette: bool
    var hasHydrated: bool
    var scrollTarget: Option<ScrollTarget>

    function State(): EditorState
      reads this
    {
      EditorState(doc, layout, selectedPath, expandedPaths, search, showCommandPalette, hasHydrated, scrollTarget)
    }

    predicate Valid()
      reads this
    {
      IndexInRange(search)
    }

    constructor()
      ensures State() == Initial() && Valid()
    {
      doc, layout, selectedPath, expandedPaths := EmptyDocument, InitialLayout, [], {};
      search, showCommandPalette, hasHydrated, scrollTarget := ClearedSearch, false, false, None;
    }

    /** `reset`: back to the initial state. */
    method Reset()
      modifies this
      ensures State() == Initial() && Valid()
    {
      doc, layout, selectedPath, expandedPaths := EmptyDocument, InitialLayout, [], {};
      search, showCommandPalette, hasHydrated, scrollTarget := ClearedSearch, false, false, None;
    }

    /**
     * `setJson(json, fileName)` without repair. `parse` is what `JSON.parse(json)` gives;
     * `pointers` and `formatted` are the source map generated for the parsed value.
     * A parsed document replaces the session: expansion to depth 2, root selection,
     * search cleared (its visibility kept). A parse failure records the error and keeps
     * expansion, selection, search and the previous source map.
     */
    method SetJson(json: string, name: Option<string>, parse: ParseOutcome, pointers: PointerMap, formatted: string)
      requires Valid()
      modifies this
      ensures Valid()
      ensures parse.Parsed? ==> State() == old(State()).(
        doc := Document(json, Some(parse.data), None, NameOrEmpty(name),
                        Some(JsonStats(Utf8Length(json), |Split(json, '\n')|, Size(parse.data), MaxDepth(parse.data, 0))),
                        None, false, false, pointers, formatted),
        expandedPaths := ExpandKeys(parse.data, [], Limit(2)),
        selectedPath := [],
        search := old(search).(searchQuery := "", searchResults := [], searchIndex := 0))
      ensures parse.ParseFailed? ==> State() == old(State()).(
        doc := old(doc).(
          rawJson := json, parsedJson := None, parseError := Some(parse.error), stats := None,
          fileName := NameOrEmpty(name), repairedJson := None, wasRepaired := false, repairDismissed := false))
    {
      match parse
      case Parsed(data) =>
        LoadParsed(json, name, data, pointers, formatted);
      case ParseFailed(error) =>
        doc := doc.(rawJson := json, parsedJson := None, parseError := Some(error), stats := None,
                    fileName := NameOrEmpty(name), repairedJson := None, wasRepaired := false, repairDismissed := false);
    }

    /** The branch of `setJson` for text that parsed to `data`. */
    method LoadParsed(json: string, name: Option<string>, data: Json, pointers: PointerMap, formatted: string)
      modifies this
      ensures State() == old(State()).(
        doc := Document(json, Some(data), None, NameOrEmpty(name),
                        Some(JsonStats(Utf8Length(json), |Split(json, '\n')|, Size(data), MaxDepth(data, 0))),
                        None, false, false, pointers, formatted),
        expandedPaths := ExpandKeys(data, [], Limit(2)),
        selectedPath := [],
        search := old(search).(searchQuery := "", searchResults := [], searchIndex := 0))
    {
      var expanded := ExpandToDepthHelper(data, [], Limit(2), {});
      var st := CalculateStats(json, data);
      doc := Document(json, Some(data), None, NameOrEmpty(name), Some(st), None, false, false, pointers, formatted);
      expandedPaths, selectedPath := expanded, [];
      search := search.(searchQuery := "", searchResults := [], searchIndex := 0);
    }

    /** `dismissRepair`. */
    method DismissRepair()
      modifies this
      ensures State() == old(State()).(doc := old(doc).(repairDismissed := true))
    {
      doc := doc.(repairDismissed := true);
    }

    /**
     * `selectPathFromPosition(pos)`: when some range of the source map contains the
     * offset, select the path of the narrowest one and expand its ancestors; otherwise
     * change nothing.
     */
    method SelectPathFromPosition(pos: int)
      modifies this
      ensures (forall j :: 0 <= j < |old(doc.sourcePointers)| ==> Hit(old(doc.sourcePointers)[j].1, pos).None?) ==>
                State() == old(State())
      ensures (exists j :: 0 <= j < |old(doc.sourcePointers)| && Hit(old(doc.sourcePointers)[j].1, pos).Some?) ==>
                (exists i :: IsBest(old(doc.sourcePointers), pos, i)
                   && State() == old(State()).(
                        selectedPath := PointerKeyToPath(old(doc.sourcePointers)[i].0),
                        expandedPaths := old(expandedPaths) + AncestorKeys(PointerKeyToPath(old(doc.sourcePointers)[i].0))))
    {
      var path := FindPathAtPosition(doc.sourcePointers, pos);
      if path.Some? {
        var expanded := ExpandPathTo(path.value, expandedPaths);
        selectedPath, expandedPaths := path.value, expanded;
      }
    }

    /** `scrollToPath(path)` at time `now`: request a scroll to the path's value when the source map has it. */
    method ScrollToPath(path: Path, now: int)
      modifies this
      ensures GetPositionForPath(old(doc.sourcePointers), path).None? ==> State() == old(State())
      ensures GetPositionForPath(old(doc.sourcePointers), path).Some? ==>
                State() == old(State()).(scrollTarget := TargetFor(old(doc.sourcePointers), path, now))
    {
      var pointer := GetPositionForPath(doc.sourcePointers, path);
      if pointer.Some? {
        scrollTarget := Some(ScrollTarget(pointer.value.value, now));
      }
    }

    /** `clearScrollTarget`. */
    method ClearScrollTarget()
      modifies this
      ensures State() == old(State()).(scrollTarget := None)
    {
      scrollTarget := None;
    }

    /** `setLayoutMode`. */
    method SetLayoutMode(mode: string)
      modifies this
      ensures State() == old(State()).(layout := old(layout).(layoutMode := mode))
    {
      layout := layout.(layoutMode := mode);
    }

    /** `setViewMode`. */
    method SetViewMode(mode: string)
      modifies this
      ensures State() == old(State()).(layout := old(layout).(viewMode := mode))
    {
      layout := layout.(viewMode := mode);
    }

    /** `setWordWrap`. */
    method SetWordWrap(wrap: bool)
      modifies this
      ensures State() == old(State()).(layout := old(layout).(wordWrap := wrap))
    {
      layout := layout.(wordWrap := wrap);
    }

    /** `selectPath`. */
    method SelectPath(path: Path)
      modifies this
      ensures State() == old(State()).(selectedPath := path)
    {
      selectedPath := path;
    }

    /** `toggleExpand(path)`: flip the membership of the path's key and of nothing else. */
    method ToggleExpand(path: Path)
      modifies this
      ensures State() == old(State()).(expandedPaths := Toggled(old(expandedPaths), PathToKey(path)))
    {
      var key := PathToKey(path);
      var expanded := expandedPaths;
      if key in expanded {
        expanded := expanded - {key};
      } else {
        expanded := expanded + {key};
      }
      expandedPaths := expanded;
    }

    /** `expandAll`: every container of the document, when there is one. */
    method ExpandAll()
      modifies this
      ensures NoDocument(old(doc.parsedJson)) ==> State() == old(State())
      ensures !NoDocument(old(doc.parsedJson)) ==>
                State() == old(State()).(expandedPaths := ExpandKeys(old(doc.parsedJson).value, [], Unbounded))
    {
      if NoDocument(doc.parsedJson) {
        return;
      }
      var expanded := ExpandToDepthHelper(doc.parsedJson.value, [], Unbounded, {});
      expandedPaths := expanded;
    }

    /** `collapseAll`. */
    method CollapseAll()
      modifies this
      ensures State() == old(State()).(expandedPaths := {})
    {
      expandedPaths := {};
    }

    /** `expandToDepth(depth)`: exactly the containers at fewer than `depth` levels, when there is a document. */
    method ExpandToDepth(depth: int)
      modifies this
      ensures NoDocument(old(doc.parsedJson)) ==> State() == old(State())
      ensures !NoDocument(old(doc.parsedJson)) ==>
                State() == old(State()).(expandedPaths := ExpandKeys(old(doc.parsedJson).value, [], Limit(depth)))
    {
      if NoDocument(doc.parsedJson) {
        return;
      }
      var expanded := ExpandToDepthHelper(doc.parsedJson.value, [], Limit(depth), {});
      expandedPaths := expanded;
    }

    /** `setShowSearch(show)`: hiding the search also clears it. */
    method SetShowSearch(show: bool)
      requires Valid()
      modifies this
      ensures Valid()
      ensures show ==> State() == old(State()).(search := old(search).(showSearch := true))
      ensures !show ==> State() == old(State()).(search := ClearedSearch)
    {
      if show {
        search := search.(showSearch := true);
      } else {
        search := SearchState("", [], 0, false);
      }
    }

    /**
     * `search(query)` at time `now`. With no document or a blank query the results are
     * cleared. Otherwise the hits for the lowercased (untrimmed) query become the
     * results; the first hit, if any, is selected, its ancestors expanded and the
     * editor asked to scroll to it (or the scroll request cleared when the source
     * map has no entry for it).
     */
    method Search(query: string, now: int)
      requires Valid()
      modifies this
      ensures Valid()
      ensures NoDocument(old(doc.parsedJson)) || IsBlank(query) ==>
                State() == old(State()).(search := old(search).(searchQuery := query, searchResults := [], searchIndex := 0))
      ensures !NoDocument(old(doc.parsedJson)) && !IsBlank(query)
                && SearchHits(old(doc.parsedJson).value, [], ToLower(query)) == [] ==>
                State() == old(State()).(search := old(search).(searchQuery := query, searchResults := [], searchIndex := -1))
      ensures !NoDocument(old(doc.parsedJson)) && !IsBlank(query)
                && SearchHits(old(doc.parsedJson).value, [], ToLower(query)) != [] ==>
                var hits := SearchHits(old(doc.parsedJson).value, [], ToLower(query));
                State() == old(State()).(search := old(search).(searchQuery := query, searchResults := hits, searchIndex := 0),
                                         selectedPath := hits[0].path,
                                         expandedPaths := old(expandedPaths) + AncestorKeys(hits[0].path),
                                         scrollTarget := TargetFor(old(doc.sourcePointers), hits[0].path, now))
    {
      if NoDocument(doc.parsedJson) || IsBlank(query) {
        search := search.(searchQuery := query, searchResults := [], searchIndex := 0);
        return;
      }
      var results := SearchHelper(doc.parsedJson.value, [], ToLower(query), []);
      assert results == SearchHits(doc.parsedJson.value, [], ToLower(query));
      search := search.(searchQuery := query, searchResults := results, searchIndex := if |results| > 0 then 0 else -1);
      if |results| > 0 {
        GoToResult(0, now);
      }
    }

    /** Going to the result at `newIndex`: select it, expand its ancestors, scroll to it. */
    method GoToResult(newIndex: int, now: int)
      requires 0 <= newIndex < |search.searchResults|
      modifies this
      ensures State() == old(State()).(
        search := old(search).(searchIndex := newIndex),
        selectedPath := old(search.searchResults)[newIndex].path,
        expandedPaths := old(expandedPaths) + AncestorKeys(old(search.searchResults)[newIndex].path),
        scrollTarget := TargetFor(old(doc.sourcePointers), old(search.searchResults)[newIndex].path, now))
    {
      var target := search.searchResults[newIndex].path;
      var expanded := ExpandPathTo(target, expandedPaths);
      var pointer := GetPositionForPath(doc.sourcePointers, target);
      search := search.(searchIndex := newIndex);
      selectedPath, expandedPaths := target, expanded;
      scrollTarget := if pointer.Some? then Some(ScrollTarget(pointer.value.value, now)) else None;
    }

    /** `nextSearchResult` at time `now`: a no-op without results, else the following result, wrapping to the first. */
    method NextSearchResult(now: int)
      requires Valid()
      modifies this
      ensures Valid()
      ensures old(search.searchResults) == [] ==> State() == old(State())
      ensures old(search.searchResults) != [] ==>
                var i := NextIndex(old(search.searchIndex), |old(search.searchResults)|);
                var target := old(search.searchResults)[i].path;
                State() == old(State()).(
                  search := old(search).(searchIndex := i),
                  selectedPath := target,
                  expandedPaths := old(expandedPaths) + AncestorKeys(target),
                  scrollTarget := TargetFor(old(doc.sourcePointers), target, now))
    {
      if |search.searchResults| == 0 {
        return;
      }
      var newIndex := (search.searchIndex + 1) % |search.searchResults|;
      GoToResult(newIndex, now);
    }

    /** `prevSearchResult` at time `now`: a no-op without results, else the preceding result, wrapping to the last. */
    method PrevSearchResult(now: int)
      requires Valid()
      modifies this
      ensures Valid()
      ensures old(search.searchResults) == [] ==> State() == old(State())
      ensures old(search.searchResults) != [] ==>
                var i := PrevIndex(old(search.searchIndex), |old(search.searchResults)|);
                var target := old(search.searchResults)[i].path;
                State() == old(State()).(
                  search := old(search).(searchIndex := i),
                  selectedPath := target,
                  expandedPaths := old(expandedPaths) + AncestorKeys(target),
                  scrollTarget := TargetFor(old(doc.sourcePointers), target, now))
    {
      if |search.searchResults| == 0 {
        return;
      }
      var newIndex := if search.searchIndex <= 0 then |search.searchResults| - 1 else search.searchIndex - 1;
      GoToResult(newIndex, now);
    }

    /** `clearSearch`: clears the search and hides it. */
    method ClearSearch()
      modifies this
      ensures Valid()
      ensures State() == old(State()).(search := ClearedSearch)
    {
      search := SearchState("", [], 0, false);
    }

    /** `setShowCommandPalette`. */
    method SetShowCommandPalette(show: bool)
      modifies this
      ensures State() == old(State()).(showCommandPalette := show)
    {
      showCommandPalette := show;
    }

    /** `setHasHydrated`. */
    method SetHasHydrated(hydrated: bool)
      modifies this
      ensures State() == old(State()).(hasHydrated := hydrated)
    {
      hasHydrated := hydrated;
    }
  }
}
