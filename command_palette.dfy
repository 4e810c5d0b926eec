/**
 * The command palette: the fixed command list with its "(current)" marks, filtering by a
 * query, grouping by category in first-appearance order, and the selection index moved
 * by the arrow keys.
 */
module CommandPalette {
  import opened Options
  import opened Strings
  import opened Sequences

  /** What a command does when run; every command also closes the palette. */
  datatype Action =
    | FormatAction | MinifyAction | RepairAction
    | LayoutAction(layoutMode: string) | ViewAction(viewMode: string)
    | ExpandAllAction | CollapseAllAction | SearchAction | ThemePickerAction | ToggleDarkLightAction

  datatype Command = Command(id: string, labelText: string, description: Option<string>, category: string, action: Action)

  /** The fourteen commands, before the "(current)" marks; the theme rows depend on the current theme. */
  function BaseCommands(themeName: string, themeIsDark: bool): (cmds: seq<Command>)
    ensures |cmds| == 14
  {
    [ Command("format", "Format JSON", Some("Pretty print with indentation"), "JSON", FormatAction),
      Command("minify", "Minify JSON", Some("Remove all whitespace"), "JSON", MinifyAction),
      Command("repair", "Repair JSON", Some("Fix common JSON errors"), "JSON", RepairAction),
      Command("layout-split-h", "Split Horizontal", Some("Editor on left, preview on right"), "Layout", LayoutAction("split-horizontal")),
      Command("layout-split-v", "Split Vertical", Some("Editor on top, preview on bottom"), "Layout", LayoutAction("split-vertical")),
      Command("layout-editor", "Editor Only", Some("Show only the editor"), "Layout", LayoutAction("editor-only")),
      Command("layout-preview", "Preview Only", Some("Show only the preview"), "Layout", LayoutAction("preview-only")),
      Command("view-tree", "Tree View", Some("Collapsible tree structure"), "View", ViewAction("tree")),
      Command("view-formatted", "Formatted View", Some("Syntax highlighted JSON"), "View", ViewAction("formatted")),
      Command("expand-all", "Expand All", Some("Expand all tree nodes"), "Tree", ExpandAllAction),
      Command("collapse-all", "Collapse All", Some("Collapse all tree nodes"), "Tree", CollapseAllAction),
      Command("search", "Search", Some("Search keys and values"), "Navigation", SearchAction),
      Command("theme", "Change Theme", Some("Current: " + themeName), "Appearance", ThemePickerAction),
      Command("toggle-dark-light", if themeIsDark then "Switch to Light Mode" else "Switch to Dark Mode",
              Some("Toggle between dark and light themes"), "Appearance", ToggleDarkLightAction) ]
  }

  /** `${cmd.description} (current)`; a missing description prints as "undefined". */
  function MarkCurrent(cmd: Command): (r: Command)
    ensures r != cmd
  {
    var text := if cmd.description.Some? then cmd.description.value else "undefined";
    assert |text + " (current)"| > |text|;
    cmd.(description := Some(text + " (current)"))
  }

  /** The mark for one command: the layout id test first, then the view id test. */
  function Annotate(cmd: Command, layoutMode: string, viewMode: string): (r: Command)
    ensures r.id == cmd.id && r.labelText == cmd.labelText && r.category == cmd.category && r.action == cmd.action
    ensures r != cmd <==> cmd.id == "layout-" + layoutMode || cmd.id == "view-" + viewMode
  {
    if cmd.id == "layout-" + layoutMode then MarkCurrent(cmd)
    else if cmd.id == "view-" + viewMode then MarkCurrent(cmd)
    else cmd
  }

  /** The command list with the current layout and view marked. */
  function Commands(themeName: string, themeIsDark: bool, layoutMode: string, viewMode: string): (cmds: seq<Command>)
    ensures |cmds| == 14
  {
    var base := BaseCommands(themeName, themeIsDark);
    seq(|base|, i requires 0 <= i < |base| => Annotate(base[i], layoutMode, viewMode))
  }

  lemma {:induction false} PrefixedDiffer(p: string, a: string, b: string)
    requires |a| != |b| || a != b
    ensures p + a != p + b
  {
    assert (p + a)[|p|..] == a && (p + b)[|p|..] == b;
  }

  /**
   * For any of the four layout modes no layout command is marked, since the ids
   * abbreviate the mode names; for either view mode exactly that view command is marked.
   */
  lemma MarksOnlyCurrentView(themeName: string, themeIsDark: bool, layoutMode: string, viewMode: string, i: nat)
    requires layoutMode in ["split-horizontal", "split-vertical", "editor-only", "preview-only"]
    requires viewMode == "tree" || viewMode == "formatted"
    requires i < 14
    ensures var cmds := Commands(themeName, themeIsDark, layoutMode, viewMode);
      var base := BaseCommands(themeName, themeIsDark);
      cmds[i] != base[i] <==> base[i].id == "view-" + viewMode
  {
    var base := BaseCommands(themeName, themeIsDark);
    var id := base[i].id;
    assert "layout-" + layoutMode != id by {
      var mode := layoutMode;
      if 3 <= i < 7 {
        var short := id[7..];
        assert id == "layout-" + short;
        assert short in ["split-h", "split-v", "editor", "preview"];
        PrefixedDiffer("layout-", mode, short);
      } else {
        assert id[0] != 'l' && ("layout-" + mode)[0] == 'l';
      }
    }
  }

  // ---------------------------------------------------------------------------
  // Filtering

  /** Whether a command shows for an already lower-cased query. */
  predicate Matches(cmd: Command, lowerQuery: string) {
    Contains(ToLower(cmd.labelText), lowerQuery) ||
    (cmd.description.Some? && Contains(ToLower(cmd.description.value), lowerQuery)) ||
    Contains(ToLower(cmd.category), lowerQuery)
  }

  /** `commands.filter(...)` with the lower-cased query. */
  function FilterMatching(cmds: seq<Command>, lowerQuery: string): (r: seq<Command>)
    ensures |r| <= |cmds|
    ensures forall c :: c in r <==> c in cmds && Matches(c, lowerQuery)
    ensures IsSubsequence(r, cmds)
    ensures forall c :: multiset(r)[c] == if Matches(c, lowerQuery) then multiset(cmds)[c] else 0
  {
    if cmds == [] then []
    else
      assert cmds == [cmds[0]] + cmds[1..];
      var rest := FilterMatching(cmds[1..], lowerQuery);
      if Matches(cmds[0], lowerQuery) then
        assert ([cmds[0]] + rest)[1..] == rest;
        [cmds[0]] + rest
      else
        SkipHead(rest, cmds);
        rest
  }

  /** `filteredCommands`: all commands for a blank query, else the matching ones in order. */
  function FilteredCommands(cmds: seq<Command>, query: string): (r: seq<Command>)
    ensures IsBlank(query) ==> r == cmds
    ensures !IsBlank(query) ==> forall c :: c in r <==> c in cmds && Matches(c, ToLower(query))
    ensures IsSubsequence(r, cmds)
  {
    if IsBlank(query) then SubsequenceOfSelf(cmds); cmds else FilterMatching(cmds, ToLower(query))
  }

  // ---------------------------------------------------------------------------
  // Grouping

  /** The categories of `cmds` in order of first appearance, each once. */
  function Categories(cmds: seq<Command>): (cats: seq<string>)
    ensures forall a, b :: 0 <= a < b < |cats| ==> cats[a] != cats[b]
    decreases |cmds|
  {
    if cmds == [] then []
    else
      var front := Categories(cmds[..|cmds| - 1]);
      var last := cmds[|cmds| - 1];
      if last.category in front then front else front + [last.category]
  }

  /** Every command's category is listed, and only those. */
  lemma {:induction false} CategoriesCover(cmds: seq<Command>)
    ensures forall i :: 0 <= i < |cmds| ==> cmds[i].category in Categories(cmds)
    ensures forall k :: k in Categories(cmds) ==> exists i :: 0 <= i < |cmds| && cmds[i].category == k
    decreases |cmds|
  {
    if cmds != [] {
      var front := cmds[..|cmds| - 1];
      CategoriesCover(front);
      forall k | k in Categories(cmds)
        ensures exists i :: 0 <= i < |cmds| && cmds[i].category == k
      {
        if k in Categories(front) {
          var i :| 0 <= i < |front| && front[i].category == k;
          assert cmds[i] == front[i];
        } else {
          assert cmds[|cmds| - 1].category == k;
        }
      }
    }
  }

  /** The commands of one category, in order. */
  function Group(cmds: seq<Command>, category: string): (g: seq<Command>)
    ensures forall i :: 0 <= i < |g| ==> g[i].category == category && g[i] in cmds
    decreases |cmds|
  {
    if cmds == [] then []
    else
      var last := cmds[|cmds| - 1];
      Group(cmds[..|cmds| - 1], category) + (if last.category == category then [last] else [])
  }

  /** A group holds exactly the commands of its category, in their original order. */
  lemma {:induction false} GroupMembers(cmds: seq<Command>, category: string)
    ensures forall c :: c in Group(cmds, category) <==> c in cmds && c.category == category
    ensures IsSubsequence(Group(cmds, category), cmds)
    decreases |cmds|
  {
    if cmds != [] {
      var front := cmds[..|cmds| - 1];
      var last := cmds[|cmds| - 1];
      GroupMembers(front, category);
      assert cmds == front + [last];
      assert forall c :: c in cmds <==> c in front || c == last;
      var g := Group(front, category);
      if last.category == category {
        assert Group(cmds, category) == g + [last];
        SubsequenceAppend(g, front, last);
      } else {
        assert Group(cmds, category) == g;
        SubsequenceExtend(g, front, last);
      }
    }
  }

  /** The groups of the listed categories, one after another. */
  function Concat(cats: seq<string>, cmds: seq<Command>): seq<Command> {
    if cats == [] then [] else Group(cmds, cats[0]) + Concat(cats[1..], cmds)
  }

  /** `flatFilteredCommands`: `Object.values(groups).flat()`. */
  function Flatten(cmds: seq<Command>): seq<Command> {
    Concat(Categories(cmds), cmds)
  }

  /** Adding a command adds it to its own category's group and to no other. */
  lemma {:induction false} ConcatAppend(cats: seq<string>, cmds: seq<Command>, c: Command)
    requires forall a, b :: 0 <= a < b < |cats| ==> cats[a] != cats[b]
    ensures multiset(Concat(cats, cmds + [c])) == multiset(Concat(cats, cmds)) + (if c.category in cats then multiset{c} else multiset{})
  {
    if cats != [] {
      assert (cmds + [c])[..|cmds + [c]| - 1] == cmds;
      ConcatAppend(cats[1..], cmds, c);
      assert c.category in cats <==> c.category == cats[0] || c.category in cats[1..];
    }
  }

  lemma {:induction false} GroupEmpty(cmds: seq<Command>, k: string)
    requires forall i :: 0 <= i < |cmds| ==> cmds[i].category != k
    ensures Group(cmds, k) == []
    decreases |cmds|
  {
    if cmds != [] {
      GroupEmpty(cmds[..|cmds| - 1], k);
    }
  }

  lemma {:induction false} ConcatSplit(a: seq<string>, b: seq<string>, cmds: seq<Command>)
    ensures Concat(a + b, cmds) == Concat(a, cmds) + Concat(b, cmds)
  {
    if a == [] {
      assert a + b == b;
    } else {
      assert (a + b)[1..] == a[1..] + b;
      ConcatSplit(a[1..], b, cmds);
    }
  }

  /** Grouping only reorders: the flattened list holds exactly the filtered commands. */
  lemma {:induction false} FlattenPermutes(cmds: seq<Command>)
    ensures multiset(Flatten(cmds)) == multiset(cmds)
    decreases |cmds|
  {
    if cmds != [] {
      var front := cmds[..|cmds| - 1];
      var c := cmds[|cmds| - 1];
      assert cmds == front + [c];
      FlattenPermutes(front);
      FlattenAppend(front, c);
    }
  }

  /** Appending a command adds exactly that command to the flattened list. */
  lemma FlattenAppend(front: seq<Command>, c: Command)
    ensures multiset(Flatten(front + [c])) == multiset(Flatten(front)) + multiset{c}
  {
    var cmds := front + [c];
    var k := c.category;
    var cats := Categories(front);
    assert cmds[..|cmds| - 1] == front;
    if k in cats {
      assert Categories(cmds) == cats;
      ConcatAppend(cats, front, c);
    } else {
      // a new category: its group is just `c`, appended after the others
      assert Categories(cmds) == cats + [k];
      assert Concat(cats + [k], cmds) == Concat(cats, cmds) + [c] by {
        ConcatSplit(cats, [k], cmds);
        NewGroup(front, c);
        assert [k][1..] == [];
      }
      ConcatAppend(cats, front, c);
    }
  }

  /** The group of a category not seen before holds only the new command. */
  lemma NewGroup(front: seq<Command>, c: Command)
    requires c.category !in Categories(front)
    ensures Group(front + [c], c.category) == [c]
  {
    CategoriesCover(front);
    GroupEmpty(front, c.category);
    assert (front + [c])[..|front|] == front;
  }

  /** `groupedCommands`: each command pushed onto its category's list, categories keyed in first-appearance order. */
  method GroupCommands(cmds: seq<Command>) returns (order: seq<string>, groups: map<string, seq<Command>>)
    ensures order == Categories(cmds)
    ensures forall k :: k in groups <==> k in order
    ensures forall k :: k in groups ==> groups[k] == Group(cmds, k)
  {
    order := [];
    groups := map[];
    var i := 0;
    while i < |cmds|
      invariant 0 <= i <= |cmds|
      invariant order == Categories(cmds[..i])
      invariant forall k :: k in groups <==> k in order
      invariant forall k :: k in groups ==> groups[k] == Group(cmds[..i], k)
    {
      var cmd := cmds[i];
      assert cmds[..i + 1][..i] == cmds[..i] && cmds[..i + 1][i] == cmd;
      if cmd.category !in groups {
        order := order + [cmd.category];
        groups := groups[cmd.category := []];
        GroupEmptyFor(cmds[..i], cmd.category);
      }
      groups := groups[cmd.category := groups[cmd.category] + [cmd]];
      i := i + 1;
    }
    assert cmds[..|cmds|] == cmds;
  }

  lemma GroupEmptyFor(cmds: seq<Command>, k: string)
    requires k !in Categories(cmds)
    ensures Group(cmds, k) == []
  {
    CategoriesCover(cmds);
    GroupEmpty(cmds, k);
  }

  /** `flatFilteredCommands`: the groups' lists one after another. */
  method FlatCommands(cmds: seq<Command>) returns (flat: seq<Command>)
    ensures flat == Flatten(cmds)
    ensures multiset(flat) == multiset(cmds)
  {
    var order, groups := GroupCommands(cmds);
    flat := [];
    var j := 0;
    assert order[0..] == order;
    while j < |order|
      invariant 0 <= j <= |order|
      invariant flat + Concat(order[j..], cmds) == Concat(order, cmds)
    {
      assert order[j] in groups;
      var g := groups[order[j]];
      ConcatStep(flat, order, j, cmds, g);
      flat := flat + g;
      j := j + 1;
    }
    assert order[|order|..] == [];
    assert flat == Concat(order, cmds);
    FlattenPermutes(cmds);
  }

  /** Appending the group of `cats[j]` to what precedes it leaves the groups after it to go. */
  lemma ConcatStep(done: seq<Command>, cats: seq<string>, j: nat, cmds: seq<Command>, g: seq<Command>)
    requires j < |cats|
    requires done + Concat(cats[j..], cmds) == Concat(cats, cmds)
    requires g == Group(cmds, cats[j])
    ensures (done + g) + Concat(cats[j + 1..], cmds) == Concat(cats, cmds)
  {
    assert cats[j..][1..] == cats[j + 1..];
    assert Concat(cats[j..], cmds) == g + Concat(cats[j + 1..], cmds);
  }

  // ---------------------------------------------------------------------------
  // Selection

  /** ArrowDown: the next item, wrapping from the last to the first. */
  function ArrowDown(i: int, n: nat): (r: int)
    ensures 0 <= i < n ==> 0 <= r < n
    ensures 0 <= i < n - 1 ==> r == i + 1
    ensures i == n - 1 ==> r == 0
  {
    if i < n - 1 then i + 1 else 0
  }

  /** ArrowUp: the previous item, wrapping from the first to the last; -1 when the list is empty. */
  function ArrowUp(i: int, n: nat): (r: int)
    ensures 0 <= i < n ==> 0 <= r < n
    ensures 0 < i ==> r == i - 1
    ensures i <= 0 ==> r == n - 1
    ensures n == 0 && i <= 0 ==> r == -1
  {
    if i > 0 then i - 1 else n - 1
  }

  lemma ArrowsInverse(i: int, n: nat)
    requires 0 <= i < n
    ensures ArrowUp(ArrowDown(i, n), n) == i
    ensures ArrowDown(ArrowUp(i, n), n) == i
  {
  }

  /** Enter: the command at the selection, if there is one. */
  function Selected(flat: seq<Command>, i: int): (r: Option<Command>)
    ensures r.Some? <==> 0 <= i < |flat|
    ensures r.Some? ==> r.value == flat[i]
  {
    if 0 <= i < |flat| then Some(flat[i]) else None
  }

  /** What a key press inside the palette does. */
  datatype KeyOutcome = KeyOutcome(run: Option<Command>, close: bool)

  /** The id of the command that selects a layout mode; no command for any other string. */
  function LayoutCommandId(layoutMode: string): (id: Option<string>)
    ensures id.Some? <==> layoutMode in ["split-horizontal", "split-vertical", "editor-only", "preview-only"]
  {
    if layoutMode == "split-horizontal" then Some("layout-split-h")
    else if layoutMode == "split-vertical" then Some("layout-split-v")
    else if layoutMode == "editor-only" then Some("layout-editor")
    else if layoutMode == "preview-only" then Some("layout-preview")
    else None
  }

  /** The mark as intended: the layout command is found through its abbreviated id. */
  function AnnotateIntended(cmd: Command, layoutMode: string, viewMode: string): (r: Command)
    ensures r.id == cmd.id && r.labelText == cmd.labelText && r.category == cmd.category && r.action == cmd.action
    ensures r != cmd <==> LayoutCommandId(layoutMode) == Some(cmd.id) || cmd.id == "view-" + viewMode
  {
    if LayoutCommandId(layoutMode) == Some(cmd.id) then MarkCurrent(cmd)
    else if cmd.id == "view-" + viewMode then MarkCurrent(cmd)
    else cmd
  }

  /** The command list with the marks placed as intended. */
  function CommandsIntended(themeName: string, themeIsDark: bool, layoutMode: string, viewMode: string): (cmds: seq<Command>)
    ensures |cmds| == 14
  {
    var base := BaseCommands(themeName, themeIsDark);
    seq(|base|, i requires 0 <= i < |base| => AnnotateIntended(base[i], layoutMode, viewMode))
  }

  /**
   * With the intended marks, a command is marked exactly when it is the one that would
   * switch to the current layout or to the current view.
   */
  lemma MarksCurrentLayoutAndView(themeName: string, themeIsDark: bool, layoutMode: string, viewMode: string, i: nat)
    requires layoutMode in ["split-horizontal", "split-vertical", "editor-only", "preview-only"]
    requires viewMode == "tree" || viewMode == "formatted"
    requires i < 14
    ensures var cmds := CommandsIntended(themeName, themeIsDark, layoutMode, viewMode);
      var base := BaseCommands(themeName, themeIsDark);
      cmds[i] != base[i] <==> base[i].action == LayoutAction(layoutMode) || base[i].action == ViewAction(viewMode)
  {
    var base := BaseCommands(themeName, themeIsDark);
    var cmd := base[i];
    if 3 <= i < 7 {
      LayoutRowMarked(cmd, layoutMode, viewMode);
    } else if i == 7 || i == 8 {
      ViewRowMarked(cmd, layoutMode, viewMode);
    } else {
      OtherRowUnmarked(cmd, layoutMode, viewMode);
    }
  }

  lemma LayoutRowMarked(cmd: Command, layoutMode: string, viewMode: string)
    requires layoutMode in ["split-horizontal", "split-vertical", "editor-only", "preview-only"]
    requires (cmd.id, cmd.action) in [("layout-split-h", LayoutAction("split-horizontal")), ("layout-split-v", LayoutAction("split-vertical")),
                                     ("layout-editor", LayoutAction("editor-only")), ("layout-preview", LayoutAction("preview-only"))]
    ensures AnnotateIntended(cmd, layoutMode, viewMode) != cmd <==> cmd.action == LayoutAction(layoutMode)
  {
    assert cmd.id[0] != 'v' && ("view-" + viewMode)[0] == 'v';
  }

  lemma ViewRowMarked(cmd: Command, layoutMode: string, viewMode: string)
    requires viewMode == "tree" || viewMode == "formatted"
    requires (cmd.id, cmd.action) in [("view-tree", ViewAction("tree")), ("view-formatted", ViewAction("formatted"))]
    ensures AnnotateIntended(cmd, layoutMode, viewMode) != cmd <==> cmd.action == ViewAction(viewMode)
  {
    assert LayoutCommandId(layoutMode) != Some(cmd.id) by {
      if LayoutCommandId(layoutMode).Some? {
        assert LayoutCommandId(layoutMode).value[0] == 'l';
      }
    }
    var m := cmd.action.viewMode;
    assert cmd.id == "view-" + m;
    if viewMode != m {
      PrefixedDiffer("view-", viewMode, m);
    }
  }

  lemma OtherRowUnmarked(cmd: Command, layoutMode: string, viewMode: string)
    requires cmd.id in ["format", "minify", "repair", "expand-all", "collapse-all", "search", "theme", "toggle-dark-light"]
    requires !cmd.action.LayoutAction? && !cmd.action.ViewAction?
    ensures AnnotateIntended(cmd, layoutMode, viewMode) == cmd
  {
    assert cmd.id[0] != 'v' && ("view-" + viewMode)[0] == 'v';
    assert LayoutCommandId(layoutMode) != Some(cmd.id) by {
      if LayoutCommandId(layoutMode).Some? {
        assert LayoutCommandId(layoutMode).value[0] == 'l' && cmd.id[0] != 'l';
      }
    }
  }

  /** The palette's own state: the query typed and the selected row. */
  class Palette {
    var query: string
    var selectedIndex: int

    constructor ()
      ensures query == "" && selectedIndex == 0
    {
      query := "";
      selectedIndex := 0;
    }

    /** Opening the palette clears the query and selects the first row. */
    method Open()
      modifies this
      ensures query == "" && selectedIndex == 0
    {
      query := "";
      selectedIndex := 0;
    }

    /** Typing replaces the query and selects the first row again. */
    method SetQuery(q: string)
      modifies this
      ensures query == q && selectedIndex == 0
    {
      query := q;
      selectedIndex := 0;
    }

    /** The rows shown for the current query. */
    function Rows(cmds: seq<Command>): seq<Command>
      reads this
    {
      Flatten(FilteredCommands(cmds, query))
    }

    /** `handleKeyDown` on the palette's input. */
    method HandleKey(key: string, cmds: seq<Command>) returns (out: KeyOutcome)
      modifies this
      ensures query == old(query)
      ensures var n := |old(Rows(cmds))|;
        (key == "ArrowDown" ==> selectedIndex == ArrowDown(old(selectedIndex), n) && out == KeyOutcome(None, false)) &&
        (key == "ArrowUp" ==> selectedIndex == ArrowUp(old(selectedIndex), n) && out == KeyOutcome(None, false)) &&
        (key == "Enter" ==> selectedIndex == old(selectedIndex) && out == KeyOutcome(Selected(old(Rows(cmds)), old(selectedIndex)), false)) &&
        (key == "Escape" ==> selectedIndex == old(selectedIndex) && out == KeyOutcome(None, true)) &&
        (key !in ["ArrowDown", "ArrowUp", "Enter", "Escape"] ==> selectedIndex == old(selectedIndex) && out == KeyOutcome(None, false))
    {
      var flat := Rows(cmds);
      if key == "ArrowDown" {
        selectedIndex := ArrowDown(selectedIndex, |flat|);
        out := KeyOutcome(None, false);
      } else if key == "ArrowUp" {
        selectedIndex := ArrowUp(selectedIndex, |flat|);
        out := KeyOutcome(None, false);
      } else if key == "Enter" {
        out := KeyOutcome(Selected(flat, selectedIndex), false);
      } else if key == "Escape" {
        out := KeyOutcome(None, true);
      } else {
        out := KeyOutcome(None, false);
      }
    }
  }
}
