/**
 * The keyboard shortcut handler of the tree view: the value lookup along a path, the
 * list of visible paths, and the dispatch of one key press to at most one store action.
 * The handler's effect is returned as a description of the store call it makes (the
 * store's own transitions are the methods of `Editor.EditorSession`), together with the
 * new state of the pending "g" prefix.
 */
module Keyboard {
  import opened Options
  import opened Strings
  import opened JsonValues
  import opened JsonPath
  import Explorer
  import Editor
  import Toolbar
  import JsonFormat
  import EditorHelpers
  import Themes

  // ---------------------------------------------------------------------------
  // getValueAtPath

  /**
   * One step of `getValueAtPath`: an array is indexed by `parseInt(segment, 10)`, an
   * object by the key itself, and a primitive has nothing below it.
   */
  function StepInto(v: Json, seg: string): (r: Option<Json>)
    ensures r.Some? ==> r.value < v
    ensures !IsContainer(v) ==> r.None?
    ensures v.Arr? ==> (r.Some? <==> ParseInt(seg, Decimal).Some? && 0 <= ParseInt(seg, Decimal).value < |v.items|)
    ensures v.Arr? && r.Some? ==> r.value == v.items[ParseInt(seg, Decimal).value]
    ensures v.Obj? ==> r == Child(v, seg)
  {
    match v
    case Arr(items) =>
      (match ParseInt(seg, Decimal)
       case Some(i) => if 0 <= i < |items| then Some(items[i]) else None
       case None => None)
    case Obj(_) => Child(v, seg)
    case _ => None
  }

  /** The value `getValueAtPath` reaches from `v` along `p`, or None for `undefined`. */
  function ValueAt(v: Json, p: Path): Option<Json>
    decreases |p|
  {
    if p == [] then Some(v)
    else match StepInto(v, p[0])
      case None => None
      case Some(c) => ValueAt(c, p[1..])
  }

  /** `getValueAtPath(path)`: the loop reassigning `value` segment by segment. */
  method GetValueAtPath(parsed: Option<Json>, path: Path) returns (r: Option<Json>)
    ensures Editor.NoDocument(parsed) ==> r.None?
    ensures !Editor.NoDocument(parsed) ==> r == ValueAt(parsed.value, path)
  {
    if Editor.NoDocument(parsed) {
      return None;
    }
    var value := parsed.value;
    var i := 0;
    while i < |path|
      invariant 0 <= i <= |path|
      invariant ValueAt(parsed.value, path) == ValueAt(value, path[i..])
    {
      assert path[i..][0] == path[i] && path[i..][1..] == path[i + 1..];
      if !IsContainer(value) {
        return None;
      }
      match StepInto(value, path[i])
      case None =>
        // `value` becomes `undefined`: the next step, if any, returns `undefined` too.
        return None;
      case Some(c) =>
        value := c;
      i := i + 1;
    }
    assert path[|path|..] == [];
    return Some(value);
  }

  /** A longer path first walks the shorter one. */
  lemma {:induction false} ValueAtAppend(v: Json, p: Path, q: Path)
    ensures ValueAt(v, p + q) == (match ValueAt(v, p) case None => None case Some(c) => ValueAt(c, q))
    decreases |p|
  {
    if p == [] {
      assert p + q == q;
    } else {
      assert (p + q)[0] == p[0] && (p + q)[1..] == p[1..] + q;
      match StepInto(v, p[0])
      case None =>
      case Some(c) => ValueAtAppend(c, p[1..], q);
    }
  }

  /** On an array, a segment that names an entry reads back as that entry's index. */
  lemma ArrayChildIsIndexed(v: Json, seg: string)
    requires v.Arr? && Child(v, seg).Some?
    ensures StepInto(v, seg) == Child(v, seg)
  {
    var k := EditorHelpers.FirstWithIsEntry(Entries(v), seg, v);
    assert Entries(v)[k] == (NatToString(k), v.items[k]);
    ParseIntNatToString(k);
  }

  /**
   * Every path that names a node (the addressing of the tree and of the search results)
   * leads `getValueAtPath` to that node.
   */
  lemma {:induction false} ValueAtNodeAt(v: Json, p: Path)
    requires NodeAt(v, p).Some?
    ensures ValueAt(v, p) == NodeAt(v, p)
    decreases |p|
  {
    if p != [] {
      var c := Child(v, p[0]);
      if v.Arr? {
        ArrayChildIsIndexed(v, p[0]);
      }
      ValueAtNodeAt(c.value, p[1..]);
    }
  }

  /** `parseInt("01", 10)` is 1. */
  lemma ParseIntLeadingZero()
    ensures ParseInt("01", Decimal) == Some(1)
  {
    var s := "01";
    assert ParseInt(s, Decimal) == Some(DigitsValue(s, 10)) by {
      assert IsDigit(s[0]) && IsDigit(s[1]);
      ParseIntAllDigits(s);
    }
    assert DigitsValue(s, 10) == 1 by {
      var z := s[..1];
      assert DigitsValue(z, 10) == 0 by {
        assert z[..0] == [] && z[0] == '0';
      }
      assert DigitsValue(s, 10) == DigitsValue(z, 10) * 10 + DigitValue(s[1]);
    }
  }

  /**
   * `parseInt` is lenient: a segment with a leading zero reaches an array entry...
   */
  lemma ValueAtLeadingZero()
    ensures ValueAt(Arr([Null, Bool(true)]), ["01"]) == Some(Bool(true))
  {
    StepIntoLeadingZero();
    assert ["01"][0] == "01" && ["01"][1..] == [];
  }

  /** One step: `parseInt("01", 10)` is 1, so "01" steps into the array's second entry. */
  lemma StepIntoLeadingZero()
    ensures StepInto(Arr([Null, Bool(true)]), "01") == Some(Bool(true))
  {
    ParseIntLeadingZero();
  }

  /** ...that no path of the tree names: the array's entry keys are "0" and "1". */
  lemma NodeAtLeadingZero()
    ensures NodeAt(Arr([Null, Bool(true)]), ["01"]) == None
  {
    var v := Arr([Null, Bool(true)]);
    assert NatToString(0) == "0" && NatToString(1) == "1";
    assert Entries(v)[0].0 == "0" && Entries(v)[1].0 == "1";
    assert Child(v, "01") == None;
  }

  // ---------------------------------------------------------------------------
  // getAllPaths

  /** `getAllPaths()`: the pre-order `traverse` pushing every visible path. */
  method GetAllPaths(parsed: Option<Json>, expanded: set<string>) returns (paths: seq<Path>)
    ensures Editor.NoDocument(parsed) ==> paths == []
    ensures !Editor.NoDocument(parsed) ==> paths == Explorer.VisiblePaths(parsed.value, [], expanded)
    ensures !Editor.NoDocument(parsed) ==> paths == Explorer.OpenPathsOf(Explorer.Rows(parsed.value, [], Explorer.NoKey, 0, Explorer.NoParent, expanded, 0))
  {
    if Editor.NoDocument(parsed) {
      return [];
    }
    paths := TraversePaths(parsed.value, [], expanded, []);
    Explorer.RowsMatchVisiblePaths(parsed.value, [], Explorer.NoKey, 0, Explorer.NoParent, expanded, 0);
  }

  /** The inner `traverse(value, path)`: appends the paths visible under `path` to `acc`. */
  method TraversePaths(v: Json, path: Path, expanded: set<string>, acc: seq<Path>) returns (out: seq<Path>)
    ensures out == acc + Explorer.VisiblePaths(v, path, expanded)
    decreases v
  {
    out := acc + [path];
    if IsContainer(v) && PathToKey(path) in expanded {
      var es := Entries(v);
      var i := 0;
      assert Explorer.VisiblePaths(v, path, expanded) == [path] + Explorer.ChildPaths(v, 0, path, expanded);
      AppendAssoc(acc, [path], Explorer.ChildPaths(v, 0, path, expanded));
      while i < |es|
        invariant 0 <= i <= |es|
        invariant out + Explorer.ChildPaths(v, i, path, expanded) == acc + Explorer.VisiblePaths(v, path, expanded)
      {
        Explorer.ChildPathsStep(v, i, path, expanded);
        var below := TraversePaths(es[i].1, path + [es[i].0], expanded, out);
        AppendAssoc(out, Explorer.VisiblePaths(es[i].1, path + [es[i].0], expanded), Explorer.ChildPaths(v, i + 1, path, expanded));
        out := below;
        i := i + 1;
      }
    } else {
      assert Explorer.VisiblePaths(v, path, expanded) == [path];
    }
  }

  /** The root path is always the first visible path. */
  lemma RootIsFirst(v: Json, expanded: set<string>)
    ensures |Explorer.VisiblePaths(v, [], expanded)| >= 1 && Explorer.VisiblePaths(v, [], expanded)[0] == []
  {
  }

  // ---------------------------------------------------------------------------
  // Navigation over the visible paths

  /** `paths.findIndex(p => p.join("\0") === selectedPath.join("\0"))`. */
  function FindIndex(paths: seq<Path>, selected: Path): (r: int)
    ensures -1 <= r < |paths|
    ensures 0 <= r ==> PathToKey(paths[r]) == PathToKey(selected)
    ensures 0 <= r ==> forall j :: 0 <= j < r ==> PathToKey(paths[j]) != PathToKey(selected)
    ensures r == -1 <==> forall j :: 0 <= j < |paths| ==> PathToKey(paths[j]) != PathToKey(selected)
  {
    if |paths| == 0 then -1
    else if PathToKey(paths[0]) == PathToKey(selected) then 0
    else
      var r := FindIndex(paths[1..], selected);
      if r < 0 then -1 else r + 1
  }

  /**
   * The path `j`/ArrowDown selects, if any. The handler's second test (no visible
   * selection and some path) is never reached: -1 already passes the first test whenever
   * there is a path, which selects the same first path.
   */
  function DownTarget(paths: seq<Path>, current: int): (r: Option<Path>)
    requires -1 <= current < |paths|
    ensures current == -1 && |paths| > 0 ==> r == Some(paths[0])
    ensures 0 <= current < |paths| - 1 ==> r == Some(paths[current + 1])
    ensures r.None? <==> |paths| == 0 || current == |paths| - 1
  {
    if current < |paths| - 1 then Some(paths[current + 1])
    else None
  }

  /** The path `k`/ArrowUp selects, if any. */
  function UpTarget(paths: seq<Path>, current: int): (r: Option<Path>)
    requires -1 <= current < |paths|
    ensures current == -1 && |paths| > 0 ==> r == Some(paths[|paths| - 1])
    ensures 0 < current ==> r == Some(paths[current - 1])
    ensures r.None? <==> |paths| == 0 || current == 0
  {
    if current > 0 then Some(paths[current - 1])
    else if current == -1 && |paths| > 0 then Some(paths[|paths| - 1])
    else None
  }

  /** Down then up returns to a selection that is visible and not the last row. */
  lemma DownUpReturns(paths: seq<Path>, current: int)
    requires 0 <= current < |paths| - 1
    requires forall a, b :: 0 <= a < b < |paths| ==> PathToKey(paths[a]) != PathToKey(paths[b])
    ensures FindIndex(paths, DownTarget(paths, current).value) == current + 1
    ensures UpTarget(paths, current + 1) == Some(paths[current])
  {
    var r := FindIndex(paths, paths[current + 1]);
    assert PathToKey(paths[current + 1]) == PathToKey(paths[current + 1]);
  }

  /** `value !== null && typeof value === "object" && it has a child`. */
  predicate IsExpandable(value: Option<Json>) {
    value.Some? && IsContainer(value.value) && |Entries(value.value)| > 0
  }

  // ---------------------------------------------------------------------------
  // Dispatch

  /** The store actions a key press can trigger. */
  datatype StoreCall =
    | SelectPath(path: Path)
    | ToggleExpand(path: Path)
    | ExpandAll
    | CollapseAll
    | SetShowSearch(show: bool)
    | NextSearchResult
    | PrevSearchResult
    | SetShowCommandPalette(show: bool)
    | SetLayoutMode(layoutMode: string)
    | SetViewMode(viewMode: string)
    | SetJson(request: Toolbar.SetJsonRequest)
    | RepairCurrentJson
    | ToggleDarkLight
    | CopyPath(text: string)
    | CopyValue(value: Json)

  /**
   * What the handler reads: the store fields, the settings, the theme type, and what
   * `JSON.parse(rawJson)` gives (`reparse`), used by the format and minify shortcuts.
   */
  datatype View = View(
    enabled: bool,
    parsed: Option<Json>,
    rawJson: string,
    reparse: Option<Json>,
    fileName: string,
    selected: Path,
    expanded: set<string>,
    showSearch: bool,
    showCommandPalette: bool,
    layoutMode: string,
    viewMode: string,
    indent: JsonFormat.IndentType,
    copyFormat: CopyFormat,
    themeType: Themes.ThemeType)

  /** `metaKey || ctrlKey` is `meta`; `typing` is a focused input, textarea or editable element. */
  datatype KeyEvent = KeyEvent(key: string, meta: bool, shift: bool, typing: bool)

  /** The store call made, if any, and whether a "g" is pending afterwards. */
  datatype Decision = Decision(call: Option<StoreCall>, pending: bool)

  /** The visible paths the handler navigates. */
  function Paths(view: View): seq<Path> {
    if Editor.NoDocument(view.parsed) then [] else Explorer.VisiblePaths(view.parsed.value, [], view.expanded)
  }

  /** The selected value, as `getValueAtPath(selectedPath)` gives it. */
  function SelectedValue(view: View): Option<Json> {
    if Editor.NoDocument(view.parsed) then None else ValueAt(view.parsed.value, view.selected)
  }

  /** The shortcuts with Cmd or Ctrl held; they act with or without a document. */
  function MetaDecision(view: View, key: string, shift: bool): Option<StoreCall> {
    if key == "k" then Some(SetShowCommandPalette(!view.showCommandPalette))
    else if key == "e" || key == "E" then
      (match Toolbar.HandleFormat(view.rawJson, view.reparse, view.fileName, view.indent)
       case None => None
       case Some(req) => Some(SetJson(req)))
    else if key == "d" || key == "D" then Some(RepairCurrentJson)
    else if key == "m" || key == "M" then
      (match Toolbar.HandleMinify(view.rawJson, view.reparse, view.fileName)
       case None => None
       case Some(req) => Some(SetJson(req)))
    else if key == "\\" then Some(SetLayoutMode(Toolbar.NextLayout(view.layoutMode)))
    else if shift && (key == "v" || key == "V") then Some(SetViewMode(Toolbar.ToggleViewMode(view.viewMode)))
    else None
  }

  /** `h`/ArrowLeft: collapse an expanded non-empty container, else go to the parent. */
  function LeftCall(view: View): Option<StoreCall> {
    if |view.selected| == 0 then None
    else if IsExpandable(SelectedValue(view)) && PathToKey(view.selected) in view.expanded then
      Some(ToggleExpand(view.selected))
    else Some(SelectPath(view.selected[..|view.selected| - 1]))
  }

  /** `l`/ArrowRight: expand a collapsed non-empty container, else go to its first child. */
  function RightCall(view: View): Option<StoreCall> {
    var value := SelectedValue(view);
    if IsExpandable(value) && PathToKey(view.selected) !in view.expanded then
      Some(ToggleExpand(view.selected))
    else if IsExpandable(value) then
      Some(SelectPath(view.selected + [FirstChildSegment(value.value)]))
    else None
  }

  /** `j`/`k` and the arrows: the neighbouring visible path. */
  function VerticalCall(view: View, down: bool): Option<StoreCall> {
    var paths := Paths(view);
    var current := FindIndex(paths, view.selected);
    match (if down then DownTarget(paths, current) else UpTarget(paths, current))
    case None => None
    case Some(p) => Some(SelectPath(p))
  }

  /** The `switch (e.key)` on a plain key once no modal is open; the "g" prefix is settled. */
  function PlainDecision(view: View, key: string): Option<StoreCall> {
    if key == "j" || key == "ArrowDown" then VerticalCall(view, true)
    else if key == "k" || key == "ArrowUp" then VerticalCall(view, false)
    else if key == "h" || key == "ArrowLeft" then LeftCall(view)
    else if key == "l" || key == "ArrowRight" then RightCall(view)
    else if key == "G" then
      var paths := Paths(view);
      if |paths| > 0 then Some(SelectPath(paths[|paths| - 1])) else None
    else if key == "Enter" then Some(ToggleExpand(view.selected))
    else if key == "y" then Some(CopyPath(FormatPath(view.selected, view.copyFormat)))
    else if key == "Y" then
      (match SelectedValue(view) case None => None case Some(v) => Some(CopyValue(v)))
    else if key == "E" then Some(ExpandAll)
    else if key == "C" then Some(CollapseAll)
    else if key == "/" then Some(SetShowSearch(true))
    else if key == "T" then Some(SetShowCommandPalette(true))
    else if key == "D" then (if view.themeType == Themes.Light then Some(ToggleDarkLight) else None)
    else if key == "L" then (if view.themeType == Themes.Dark then Some(ToggleDarkLight) else None)
    else None
  }

  /** The child `l` moves to: "0" for an array, the first key for an object. */
  function FirstChildSegment(v: Json): (seg: string)
    requires IsContainer(v) && |Entries(v)| > 0
    ensures seg == Entries(v)[0].0
  {
    if v.Arr? then assert NatToString(0) == "0"; "0" else v.members[0].0
  }

  /** `handleKeyDown(e)` with `pending` the current `pendingKey`. */
  function HandleKeyDown(view: View, e: KeyEvent, pending: bool): (d: Decision)
    ensures !view.enabled ==> d == Decision(None, pending)
    ensures view.enabled && e.meta ==> d == Decision(MetaDecision(view, e.key, e.shift), pending)
  {
    if !view.enabled then Decision(None, pending)
    else if e.meta then Decision(MetaDecision(view, e.key, e.shift), pending)
    else if e.typing || Editor.NoDocument(view.parsed) then Decision(None, pending)
    else if e.key == "Escape" then
      if view.showSearch then Decision(Some(SetShowSearch(false)), pending)
      else if view.showCommandPalette then Decision(Some(SetShowCommandPalette(false)), pending)
      else Decision(Some(SelectPath([])), pending)
    else if view.showSearch || view.showCommandPalette then
      if view.showSearch && e.key == "n" && !e.shift then Decision(Some(NextSearchResult), pending)
      else if view.showSearch && (e.key == "N" || (e.key == "n" && e.shift)) then Decision(Some(PrevSearchResult), pending)
      else Decision(None, pending)
    else if pending && e.key == "g" then
      var paths := Paths(view);
      Decision(if |paths| > 0 then Some(SelectPath(paths[0])) else None, false)
    else if e.key == "g" && !e.shift then Decision(None, true)
    else Decision(PlainDecision(view, e.key), false)
  }

  // ---------------------------------------------------------------------------
  // Properties of the dispatch

  /** A plain key press with no document, or while typing, does nothing. */
  lemma PlainKeysNeedDocument(view: View, e: KeyEvent, pending: bool)
    requires !e.meta && (e.typing || Editor.NoDocument(view.parsed))
    ensures HandleKeyDown(view, e, pending) == Decision(None, pending)
  {
  }

  /** Cmd+\ cycles the layout and Cmd+Shift+V flips the view, even with no document or while typing. */
  lemma MetaShortcutsWithoutDocument(view: View, e: KeyEvent, pending: bool)
    requires view.enabled && e.meta
    ensures e.key == "\\" ==> HandleKeyDown(view, e, pending).call == Some(SetLayoutMode(Toolbar.NextLayout(view.layoutMode)))
    ensures e.shift && (e.key == "v" || e.key == "V") ==>
      HandleKeyDown(view, e, pending).call == Some(SetViewMode(Toolbar.ToggleViewMode(view.viewMode)))
    ensures HandleKeyDown(view, e, pending).pending == pending
  {
  }

  /** Escape closes search first, then the palette, and only then clears the selection. */
  lemma EscapeOrder(view: View, e: KeyEvent, pending: bool)
    requires view.enabled && !e.meta && !e.typing && !Editor.NoDocument(view.parsed) && e.key == "Escape"
    ensures view.showSearch ==> HandleKeyDown(view, e, pending).call == Some(SetShowSearch(false))
    ensures !view.showSearch && view.showCommandPalette ==> HandleKeyDown(view, e, pending).call == Some(SetShowCommandPalette(false))
    ensures !view.showSearch && !view.showCommandPalette ==> HandleKeyDown(view, e, pending).call == Some(SelectPath([]))
  {
  }

  /** While search is open only n and N (or shift+n) act; while only the palette is open nothing does. */
  lemma ModalsSwallowKeys(view: View, e: KeyEvent, pending: bool)
    requires view.enabled && !e.meta && !e.typing && !Editor.NoDocument(view.parsed) && e.key != "Escape"
    requires view.showSearch || view.showCommandPalette
    ensures var d := HandleKeyDown(view, e, pending);
      d.pending == pending &&
      (d.call.None? || d.call == Some(NextSearchResult) || d.call == Some(PrevSearchResult)) &&
      (d.call == Some(NextSearchResult) <==> view.showSearch && e.key == "n" && !e.shift) &&
      (d.call == Some(PrevSearchResult) <==> view.showSearch && (e.key == "N" || (e.key == "n" && e.shift)))
  {
  }

  /** The conditions under which the plain keys reach the navigation switch. */
  predicate Navigating(view: View, e: KeyEvent) {
    view.enabled && !e.meta && !e.typing && !Editor.NoDocument(view.parsed) && e.key != "Escape" &&
    !view.showSearch && !view.showCommandPalette
  }

  /** Past the modal and prefix checks, a key other than g goes to the navigation switch. */
  lemma ReachesSwitch(view: View, e: KeyEvent, pending: bool)
    requires Navigating(view, e) && e.key != "g"
    ensures HandleKeyDown(view, e, pending) == Decision(PlainDecision(view, e.key), false)
  {
  }

  /** gg selects the root, the first visible path, and clears the pending prefix. */
  lemma GGSelectsRoot(view: View, e: KeyEvent)
    requires Navigating(view, e) && e.key == "g"
    ensures HandleKeyDown(view, e, true) == Decision(Some(SelectPath([])), false)
  {
    RootIsFirst(view.parsed.value, view.expanded);
  }

  /** A lone g only arms the prefix; any other key disarms it. */
  lemma GPrefix(view: View, e: KeyEvent, pending: bool)
    requires Navigating(view, e)
    ensures e.key == "g" && !e.shift && !pending ==> HandleKeyDown(view, e, pending) == Decision(None, true)
    ensures e.key != "g" ==> !HandleKeyDown(view, e, pending).pending
  {
  }

  /** G selects the last visible path. */
  lemma GSelectsLast(view: View, e: KeyEvent, pending: bool)
    requires Navigating(view, e) && e.key == "G"
    ensures var paths := Paths(view); HandleKeyDown(view, e, pending).call == Some(SelectPath(paths[|paths| - 1]))
  {
    ReachesSwitch(view, e, pending);
    RootIsFirst(view.parsed.value, view.expanded);
  }

  /**
   * j selects the next visible path, stays put on the last one, and selects the root when
   * the selection is not visible; k mirrors it, selecting the last path instead.
   */
  lemma JKNavigation(view: View, e: KeyEvent, pending: bool)
    requires Navigating(view, e) && e.key != "g"
    ensures var paths := Paths(view); var i := FindIndex(paths, view.selected);
      var d := HandleKeyDown(view, e, pending);
      ((e.key == "j" || e.key == "ArrowDown") ==>
        (i == -1 ==> d.call == Some(SelectPath([]))) &&
        (0 <= i < |paths| - 1 ==> d.call == Some(SelectPath(paths[i + 1]))) &&
        (i == |paths| - 1 ==> d.call.None?)) &&
      ((e.key == "k" || e.key == "ArrowUp") ==>
        (i == -1 ==> d.call == Some(SelectPath(paths[|paths| - 1]))) &&
        (0 < i ==> d.call == Some(SelectPath(paths[i - 1]))) &&
        (i == 0 ==> d.call.None?))
  {
    ReachesSwitch(view, e, pending);
    RootIsFirst(view.parsed.value, view.expanded);
  }

  /** Enter toggles the selected path with no expandability check, so a primitive can be "expanded". */
  lemma EnterTogglesAnything(view: View, e: KeyEvent, pending: bool)
    requires Navigating(view, e) && e.key == "Enter"
    ensures HandleKeyDown(view, e, pending).call == Some(ToggleExpand(view.selected))
  {
    ReachesSwitch(view, e, pending);
  }

  /**
   * h collapses an expanded non-empty container, otherwise selects the parent; at the root
   * it does nothing.
   */
  lemma HNavigation(view: View, e: KeyEvent, pending: bool)
    requires Navigating(view, e) && (e.key == "h" || e.key == "ArrowLeft")
    ensures var d := HandleKeyDown(view, e, pending);
      (view.selected == [] ==> d.call.None?) &&
      (view.selected != [] && IsExpandable(SelectedValue(view)) && PathToKey(view.selected) in view.expanded ==>
        d.call == Some(ToggleExpand(view.selected))) &&
      (view.selected != [] && !(IsExpandable(SelectedValue(view)) && PathToKey(view.selected) in view.expanded) ==>
        d.call == Some(SelectPath(view.selected[..|view.selected| - 1])))
  {
    ReachesSwitch(view, e, pending);
  }

  /**
   * l expands a collapsed non-empty container; on an expanded one it selects the first
   * child, a path that leads to that child's value; on anything else it does nothing.
   */
  lemma LNavigation(view: View, e: KeyEvent, pending: bool)
    requires Navigating(view, e) && (e.key == "l" || e.key == "ArrowRight")
    ensures var d := HandleKeyDown(view, e, pending); var value := SelectedValue(view);
      (!IsExpandable(value) ==> d.call.None?) &&
      (IsExpandable(value) && PathToKey(view.selected) !in view.expanded ==> d.call == Some(ToggleExpand(view.selected))) &&
      (IsExpandable(value) && PathToKey(view.selected) in view.expanded ==>
        d.call.Some? && d.call.value.SelectPath? &&
        ValueAt(view.parsed.value, d.call.value.path) == Some(Entries(value.value)[0].1))
  {
    ReachesSwitch(view, e, pending);
    assert PlainDecision(view, e.key) == RightCall(view);
    RightCallReachesChild(view);
  }

  /** The first-child path `l` selects leads to the first child's value. */
  lemma RightCallReachesChild(view: View)
    requires !Editor.NoDocument(view.parsed)
    ensures var value := SelectedValue(view);
      IsExpandable(value) && PathToKey(view.selected) in view.expanded ==>
        RightCall(view).Some? && RightCall(view).value.SelectPath? &&
        ValueAt(view.parsed.value, RightCall(view).value.path) == Some(Entries(value.value)[0].1)
  {
    var value := SelectedValue(view);
    if IsExpandable(value) && PathToKey(view.selected) in view.expanded {
      var v := value.value;
      var seg := FirstChildSegment(v);
      ValueAtAppend(view.parsed.value, view.selected, [seg]);
      assert StepInto(v, seg) == Some(Entries(v)[0].1) by {
        if v.Arr? {
          assert Entries(v)[0] == (NatToString(0), v.items[0]);
          ParseIntNatToString(0);
        }
      }
      assert [seg][1..] == [];
    }
  }

  /** D switches to the paired dark theme only from a light one, and L to the paired light theme only from a dark one. */
  lemma ThemeKeys(view: View, e: KeyEvent, pending: bool)
    requires Navigating(view, e) && (e.key == "D" || e.key == "L")
    ensures HandleKeyDown(view, e, pending).call == Some(ToggleDarkLight) <==>
              (e.key == "D" && view.themeType == Themes.Light) || (e.key == "L" && view.themeType == Themes.Dark)
    ensures HandleKeyDown(view, e, pending).call != Some(ToggleDarkLight) ==> HandleKeyDown(view, e, pending).call.None?
  {
    ReachesSwitch(view, e, pending);
  }
}
