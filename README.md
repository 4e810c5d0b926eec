# superjson core, modelled and verified in Dafny

superjson is a browser-based JSON viewer and editor. This project models its
document-session logic and the small self-contained pieces around it, and proves
properties of that model with the Dafny verifier. Nothing here is compiled or executed:
every claim below is a verified `ensures` clause or lemma.

The model follows the source file by file:

| Dafny file | module | source | what it covers |
|---|---|---|---|
| json_values.dfy | JsonValues | lib/utils/json-utils.ts | the JSON value, value type, child count, node count and depth |
| json_path.dfy | JsonPath | lib/utils/json-path.ts | JSONPath / jq / JS rendering, `parsePath`, the NUL-joined path key |
| source_map.dfy | SourceMap | lib/source-map.ts | JSON Pointer keys (RFC 6901, section 3, without the "~0"/"~1" escaping of section 4) and the smallest-enclosing-range search |
| editor_helpers.dfy | EditorHelpers | stores/editor.ts | `expandToDepthHelper`, `searchHelper`, `expandPathTo` |
| editor.dfy | Editor | stores/editor.ts | the session store as a class: load, toggle, expand/collapse, search, result stepping, selection |
| explorer.dfy | Explorer | components/editor/JsonExplorer.tsx | the flattened rows of the tree view and closing-row detection |
| json_node.dfy | JsonNode | components/editor/JsonNode.tsx, JsonValue.tsx | row labels, the toggle guard, value text |
| keyboard.dfy | Keyboard | hooks/useKeyboard.ts | `getValueAtPath`, `getAllPaths`, key dispatch and tree navigation |
| json_format.dfy | JsonFormat | lib/json-format.ts | deep key sorting, indent string and detection, `formatJson` options |
| toolbar.dfy | Toolbar | components/layout/Toolbar.tsx | layout, view and indent cycling, the format/minify/sort guards |
| settings_store.dfy | SettingsStore | stores/settings.ts | the settings store with clamped setters |
| command_palette.dfy | CommandPalette | components/layout/CommandPalette.tsx | commands, "(current)" marks, filtering, grouping, selection |
| tab_registry.dfy | TabRegistry | lib/utils/tab-id.ts | the tab registry update, removal and storage key |
| share_route.dfy | ShareRoute | app/api/share/route.ts | the rate limiter, validation order, id retry loop and stored row |
| fetch_route.dfy | FetchRoute | app/api/fetch/route.ts | the private-host guard and the validation order of the URL import |
| json_transform.dfy | JsonTransform | lib/json-transform.ts | the eight text passes, their change records, `needsTransformation` |
| themes.dfy | Themes | lib/themes.ts | the theme table, lookup, dark/light pairing, CSS variables |
| theme_store.dfy | ThemeStore | stores/theme.ts | the theme store and its hydration merge |
| strings.dfy, sequences.dfy, options.dfy | Strings, Sequences, Options | — | JavaScript string built-ins over `seq<char>`, list facts, `Option` |

Calls the code makes into libraries and the environment are parameters: the result of
`JSON.parse`, the pointer map json-source-map builds, the clock, the ids the random
generator would produce, the set of ids already in the database, URL parsing and the
upstream HTTP answer. Objects are lists of members in enumeration order; numbers carry
the text `String(n)` prints for them.

Where the behaviour written in the code differs from a natural reading of it, the model
follows the code:

- `formatJqPath` strips a "." before "[" only inside the joined segments, after the
  leading "." has been written separately, so a path that starts with an index renders
  as `.[0]`, not `[0]` (lib/utils/json-path.ts:48-61; `JsonPath.JqLeadingIndex`).
- `expandPathTo` never adds the path's own key, except for the path `[""]`, whose key
  is the empty string, the same as the root's (stores/editor.ts:643-647;
  `EditorHelpers.AncestorKeysExcludeSelf`).
- `getValueAtPath` steps into arrays with `parseInt`, so the segment "01" reaches index 1,
  while the tree's own lookup by rendered index finds nothing under "01"
  (`Keyboard.ValueAtLeadingZero`).

## Model

| member | source | states |
|---|---|---|
| JsonValues.GetValueType | lib/utils/json-utils.ts:86-90 | "null" exactly for null, "array" exactly for arrays, and the `typeof` name for every other kind |
| JsonValues.GetChildCount | lib/utils/json-utils.ts:113-121 | undefined exactly for primitives, the length for arrays, the key count for objects |
| JsonValues.CountNodes | lib/utils/json-utils.ts:55-81 | the loop's node count is the number of values in the tree and its depth the deepest level reached |
| JsonValues.CountStep | lib/utils/json-utils.ts:66-77 | each loop step adds the child's count and takes the maximum with the child's depth |
| JsonValues.LeafCounts | lib/utils/json-utils.ts:59-64 | a leaf or an empty container counts 1 at its own depth |
| JsonValues.MaxDepthAtLeast | lib/utils/json-utils.ts:63-80 | the depth reported is never below the starting depth |
| JsonValues.SizeBoundsDepth | lib/utils/json-utils.ts:55-81 | the node count is at least the depth reached minus the starting depth plus one |
| JsonValues.ChildOfEntry | hooks/useKeyboard.ts:50-65 | with unique keys, each member's key (each index's decimal text) leads to that child |
| JsonValues.NodeAtEntry | hooks/useKeyboard.ts:50-65 | following a path through child k is following the rest of the path from that child |
| EditorHelpers.ExpandToDepthHelper | stores/editor.ts:571-591 | the set after the walk is the set before it plus exactly `ExpandKeys` of the value at that path |
| EditorHelpers.ExpandStep | stores/editor.ts:582-590 | visiting child `i` after children `0..i-1` adds exactly that child's keys (the `forEach` order) |
| EditorHelpers.ExpandKeysComplete | stores/editor.ts:577-580 | every object or array the walk reaches above the depth limit has its key added, empty containers included |
| EditorHelpers.ExpandKeysSound | stores/editor.ts:577-580 | every key added is the key of some object or array reached above the depth limit; no primitive is ever added |
| EditorHelpers.ExpandKeysNothing | stores/editor.ts:577-578 | a primitive root, or a limit of 0 or less, adds nothing |
| EditorHelpers.SearchHelper | stores/editor.ts:593-641 | the results after the walk are those before it followed by `SearchHits`, in the order they are pushed |
| EditorHelpers.SearchHitsSound | stores/editor.ts:599-640 | a value hit is a primitive under the root whose text contains the query; a key hit is an object member whose lowercased key contains it; no container is ever a value hit |
| EditorHelpers.SearchHitsComplete | stores/editor.ts:599-631 | every primitive whose text contains the query is reported as a value hit at its full path |
| EditorHelpers.ExampleSearches | stores/editor.ts:635-640 | in `{"a":[1,{"b":"x"}],"c":null}`, "b" finds only the key hit at a.1.b and "x" only the value hit there |
| EditorHelpers.KeyHitsComplete | stores/editor.ts:634-640 | every object member reachable from the root whose lowercased key contains the query is reported as a key hit at its full path, carrying its value |
| EditorHelpers.HitsUnderBase | stores/editor.ts:593-641 | every hit lies at or under the path the search starts from, and a key hit strictly under it |
| EditorHelpers.SearchKeyHitsFirst | stores/editor.ts:634-640 | every key hit comes before every other hit at or under its member's path, because a member's key is tested before its value is searched |
| EditorHelpers.KeyThenValue | stores/editor.ts:634-640 | in `{"x":"x"}` the query "x" gives the key hit and then the value hit, both at ["x"] |
| EditorHelpers.ExampleInnerHits | stores/editor.ts:634-640 | in the object `{"b":"x"}` at a.1, "b" gives only the key hit at a.1.b and "x" only the value hit there |
| EditorHelpers.ExpandPathTo | stores/editor.ts:643-647 | the set after the loop is the set before it plus the keys of every proper prefix of the path |
| EditorHelpers.AncestorKeysInclude | stores/editor.ts:644-645 | the key of each prefix of length 0 to length-1 is added |
| EditorHelpers.AncestorKeysExcludeSelf | stores/editor.ts:643-647 | the path's own key is not added, except for `[""]`, whose key equals the root's |
| Editor.Initial | stores/editor.ts:84-110 | the initial session has no document, nothing expanded, no results and index 0 |
| Editor.CalculateStats | lib/utils/json-utils.ts:34-50 | the stats are the UTF-8 size, the number of "\n"-separated lines (newlines plus one), the node count and the depth; the node count is at least the depth plus one |
| Editor.Toggled | stores/editor.ts:306-318 | the toggled set holds the key exactly when the old set did not |
| Editor.ToggledOnlyKey | stores/editor.ts:306-318 | every other key keeps its membership |
| Editor.ToggledTwice | stores/editor.ts:306-318 | toggling the same key twice restores the set |
| Editor.NextIndex | stores/editor.ts:387 | `(i + 1) % n` stays in [0, n) and wraps from the last result to the first |
| Editor.PrevIndex | stores/editor.ts:407-408 | for any index below n the previous index stays in [0, n): it is n - 1 whenever i ≤ 0 and i - 1 otherwise |
| Editor.NextPrevInverse | stores/editor.ts:383-422 | next then previous, and previous then next, return to the same result |
| Editor.NextCycles | stores/editor.ts:387 | n steps forward from the first result return to it, visiting k after k steps |
| Editor.TargetFor | stores/editor.ts:264-268 | a scroll target exists exactly when the source map has the path, and carries its value position and the time |
| Editor.EditorSession.constructor | stores/editor.ts:84-121 | a new session is in the initial state |
| Editor.EditorSession.Reset | stores/editor.ts:468-470 | `reset` restores the initial state |
| Editor.EditorSession.SetJson | stores/editor.ts:123-218 | parsed text replaces the document, expands to depth 2, selects the root and clears query, results and index (visibility kept); a parse failure without repair sets only the text, the error, a null value and stats, the name and the repair flags, keeping expansion, selection, search and the source map |
| Editor.EditorSession.LoadParsed | stores/editor.ts:126-150 | the state after loading parsed text, field by field |
| Editor.EditorSession.DismissRepair | stores/editor.ts:249-251 | only the dismissed flag changes |
| Editor.EditorSession.SelectPathFromPosition | stores/editor.ts:253-261 | with no range containing the offset nothing changes; otherwise the narrowest match is selected and exactly its ancestors are added to the expansion set |
| Editor.EditorSession.ScrollToPath | stores/editor.ts:263-269 | with the path in the source map the scroll target is set to its value position, otherwise nothing changes |
| Editor.EditorSession.ClearScrollTarget | stores/editor.ts:271-273 | only the scroll target changes, to none |
| Editor.EditorSession.SetLayoutMode | stores/editor.ts:290-292 | only the layout mode changes |
| Editor.EditorSession.SetViewMode | stores/editor.ts:294-296 | only the view mode changes |
| Editor.EditorSession.SetWordWrap | stores/editor.ts:298-300 | only the wrap flag changes |
| Editor.EditorSession.SelectPath | stores/editor.ts:302-304 | only the selection changes |
| Editor.EditorSession.ToggleExpand | stores/editor.ts:306-318 | only the expansion set changes, by toggling the path's key |
| Editor.EditorSession.ExpandAll | stores/editor.ts:320-327 | with no document (or a falsy one) nothing changes; otherwise the set becomes the keys of every container, at unbounded depth |
| Editor.EditorSession.CollapseAll | stores/editor.ts:329-331 | the expansion set becomes empty and nothing else changes |
| Editor.EditorSession.ExpandToDepth | stores/editor.ts:333-340 | with no document nothing changes; otherwise the set becomes the keys of the containers above the given depth |
| Editor.EditorSession.SetShowSearch | stores/editor.ts:342-347 | opening only sets the flag; closing also clears query, results and index |
| Editor.EditorSession.Search | stores/editor.ts:349-381 | no document or a blank query gives no results and index 0; otherwise the lowercased, untrimmed query's hits, index 0 when there are hits and -1 when none, and on a hit the first result selected with its ancestors expanded |
| Editor.EditorSession.GoToResult | stores/editor.ts:388-400 | the chosen result becomes current and selected, its ancestors are added and the scroll target follows the source map |
| Editor.EditorSession.NextSearchResult | stores/editor.ts:383-401 | a no-op with no results; otherwise moves to `(i + 1) % n` and goes to that result |
| Editor.EditorSession.PrevSearchResult | stores/editor.ts:403-422 | a no-op with no results; otherwise moves to n - 1 from i ≤ 0, else i - 1, and goes to that result |
| Editor.EditorSession.ClearSearch | stores/editor.ts:424-426 | query, results, index and visibility are reset and nothing else changes |
| Editor.EditorSession.SetShowCommandPalette | stores/editor.ts:428-430 | only the palette flag changes |
| Editor.EditorSession.SetHasHydrated | stores/editor.ts:472-474 | only the hydration flag changes |
| JsonPath.FormatPath | lib/utils/json-path.ts:6-16 | the empty path renders as "$", "." or "data" |
| JsonPath.DigitSegmentRendering | lib/utils/json-path.ts:33-35 | an all-digit segment renders as `[seg]` in JSONPath, JavaScript and jq |
| JsonPath.NamedSegmentRendering | lib/utils/json-path.ts:36-39 | an identifier renders as `.seg` (JSONPath, JavaScript) or `seg` (jq); anything else is bracket-quoted with `'` escaped in JSONPath and `"` in jq and JavaScript |
| JsonPath.JqLeadingIndex | lib/utils/json-path.ts:45-62 | a path starting with an index renders in jq as ".[0]": the dot-before-bracket replacement does not reach the leading dot |
| JsonPath.JqIndexAfterKey | lib/utils/json-path.ts:60-61 | the dot joining a key and a following index is dropped: ".a[0]" |
| JsonPath.ParsePath | lib/utils/json-path.ts:85-98 | the segments are those the regular expression's matches yield, in order, after the leading "$", ".data", "data" or "." is removed |
| JsonPath.CollectSegments | lib/utils/json-path.ts:90-95 | the `exec` loop collects exactly `Segments` of the remaining text |
| JsonPath.ParseFormatJsonPath | lib/utils/json-path.ts:28-43 | parsing the JSONPath rendering of a path whose segments are all digits or identifiers gives the path back |
| JsonPath.JqDataLost | lib/utils/json-path.ts:88 | `["data"]` renders in jq as ".data", which parses back to the empty path |
| JsonPath.KeyRoundTrip | lib/utils/json-path.ts:103-112 | for NUL-free paths other than `[""]`, `keyToPath(pathToKey(p)) == p` |
| JsonPath.KeyCollision | lib/utils/json-path.ts:103-112 | `[]` and `[""]` share the key "" |
| JsonPath.PrefixKeyDiffers | lib/utils/json-path.ts:103-105 | a proper prefix's key differs from the path's key, except for `[""]` |
| SourceMap.PathToPointerKey | lib/source-map.ts:36-39 | the empty path, and only it, gives ""; any other path is "/" followed by its segments joined with "/" |
| SourceMap.PointerKeyRoundTrip | lib/source-map.ts:36-48 | reading back the pointer key of a path whose segments hold no "/" gives the path |
| SourceMap.SlashSegmentSplits | lib/source-map.ts:36-48 | a segment holding "/" is not escaped ("~1" is never produced or read), so `["a/b"]` reads back as `["a", "b"]` |
| SourceMap.FindPathAtPosition | lib/source-map.ts:53-91 | null exactly when no key range and no value range contains the offset (ends inclusive); otherwise the path of the entry whose hit is strictly narrower than every earlier hit and no wider than any later one |
| SourceMap.BestIsUnique | lib/source-map.ts:67-69 | the entry the scan keeps is determined: on equal widths the earliest wins |
| SourceMap.KeyHitWins | lib/source-map.ts:62-73 | a key hit measures the key range and skips the entry's value range; a pointer with no key range is measured by its value range |
| SourceMap.Lookup | lib/source-map.ts:101 | the pointer stored under a key, or none exactly when no entry has that key |
| SourceMap.GetPositionForPath | lib/source-map.ts:96-102 | the pointer stored under the path's pointer key, or null exactly when that key is absent |
| Explorer.Rows | components/editor/JsonExplorer.tsx:37-52 | the first row of every walk is the node's own row, with its path, key, depth, parent type, child count and expansion flag |
| Explorer.Traverse | components/editor/JsonExplorer.tsx:30-80 | the walk appends exactly `Rows` of the value and advances the counter by their number |
| Explorer.TraverseChildren | components/editor/JsonExplorer.tsx:55-66 | walking the children appends each child's rows in index or key order, at depth + 1 |
| Explorer.FlatNodes | components/editor/JsonExplorer.tsx:24-84 | no rows for a falsy document; otherwise the walk from the root: path [], key null, depth 0, no parent |
| Explorer.IndexIsPosition | components/editor/JsonExplorer.tsx:48 | each row's index is its position in the list |
| Explorer.RowsMatchVisiblePaths | components/editor/JsonExplorer.tsx:42-78 | with closing rows removed, the rows' paths are the paths reachable through expanded containers, in pre-order; there is one closing row per expanded container shown |
| Explorer.RowCount | components/editor/JsonExplorer.tsx:42-78 | the number of rows is the number of visible nodes plus the number of visible expanded containers |
| Explorer.UnopenedIsOneRow | components/editor/JsonExplorer.tsx:55 | a primitive, or a container whose key is not expanded, is a single row, even when a primitive's key is in the set |
| Explorer.OpenedShape | components/editor/JsonExplorer.tsx:68-78 | an expanded container, empty or not, ends with one closing row at its own depth: key null, value "]" or "}", path + "__close__", not expanded |
| Explorer.ExpandAllRows | components/editor/JsonExplorer.tsx:42-78 | after expand-all there is one row per node plus one closing row per container |
| Explorer.CollapseAllRows | components/editor/JsonExplorer.tsx:55 | after collapse-all only the root row is shown |
| Explorer.RowKeys | components/editor/JsonExplorer.tsx:56-78 | every row after the first has a key unless it is a closing row; closing rows have no key and a bracket value |
| Explorer.DetectionAsWritten | components/editor/JsonExplorer.tsx:139 | the closing-row check fires exactly for closing rows and for a root row whose value is the string "}" or "]" |
| Explorer.RootBracketStringMisdrawn | components/editor/JsonExplorer.tsx:139 | the document `"}"` is one ordinary row that the closing-row test draws as a closing bracket |
| Explorer.DetectionTyped | components/editor/JsonExplorer.tsx:139 | with the value type also checked, the closing-row test fires exactly for closing rows |
| Keyboard.StepInto | hooks/useKeyboard.ts:55-60 | a primitive cannot be entered; an array is entered at `parseInt(segment, 10)` when that is a valid index; an object at the member with that key |
| Keyboard.GetValueAtPath | hooks/useKeyboard.ts:50-65 | undefined with no (or a falsy) document; otherwise the loop's result is `ValueAt` of the root and the path |
| Keyboard.ValueAtAppend | hooks/useKeyboard.ts:54-61 | following `p + q` is following `p`, then `q` from where it led |
| Keyboard.ValueAtNodeAt | hooks/useKeyboard.ts:54-61 | wherever the tree's own segment names lead, `getValueAtPath` reaches the same value |
| Keyboard.ValueAtLeadingZero | hooks/useKeyboard.ts:57 | `parseInt` reads "01" as index 1, so `getValueAtPath` finds a value the tree's segment names do not have (`NodeAtLeadingZero`) |
| Keyboard.StepIntoLeadingZero | hooks/useKeyboard.ts:57 | one step into the array `[null, true]` by the segment "01" reaches `true`, its entry at index 1 |
| Keyboard.GetAllPaths | hooks/useKeyboard.ts:67-89 | none with no document; otherwise exactly the visible paths in pre-order, which are the tree rows' paths with closing rows removed |
| Keyboard.TraversePaths | hooks/useKeyboard.ts:71-85 | the walk appends exactly the paths reachable through expanded containers |
| Keyboard.RootIsFirst | hooks/useKeyboard.ts:71-87 | the first visible path is the root |
| Keyboard.FindIndex | hooks/useKeyboard.ts:195-197 | the first position whose NUL-joined key equals the selection's, or -1 exactly when none does |
| Keyboard.DownTarget | hooks/useKeyboard.ts:222-230 | the next path, the first when the selection is not visible, nothing on the last |
| Keyboard.UpTarget | hooks/useKeyboard.ts:232-240 | the previous path, the last when the selection is not visible, nothing on the first |
| Keyboard.DownUpReturns | hooks/useKeyboard.ts:222-240 | with distinct visible keys, down then up returns to the same path |
| Keyboard.HandleKeyDown | hooks/useKeyboard.ts:91-162 | nothing happens while disabled; with Cmd or Ctrl held, only the meta shortcuts apply and the pending "g" is kept |
| Keyboard.PlainKeysNeedDocument | hooks/useKeyboard.ts:164-165 | without Cmd or Ctrl, while typing or with no document, nothing happens |
| Keyboard.MetaShortcutsWithoutDocument | hooks/useKeyboard.ts:142-160 | Cmd+\ moves to the next layout and Cmd+Shift+V flips tree and formatted, with or without a document |
| Keyboard.EscapeOrder | hooks/useKeyboard.ts:167-178 | Escape closes search first, else the palette, else selects the root |
| Keyboard.ModalsSwallowKeys | hooks/useKeyboard.ts:180-192 | with search open only n (next) and N or shift+n (previous) act; with the palette open nothing does |
| Keyboard.ReachesSwitch | hooks/useKeyboard.ts:199-220 | any key but g, past the modal checks, clears the pending "g" and goes to the key switch |
| Keyboard.GGSelectsRoot | hooks/useKeyboard.ts:200-206 | g after a pending g selects the first visible path, the root |
| Keyboard.GPrefix | hooks/useKeyboard.ts:208-218 | an unshifted g with nothing pending only sets the pending "g"; every other key clears it |
| Keyboard.GSelectsLast | hooks/useKeyboard.ts:287-290 | G selects the last visible path |
| Keyboard.JKNavigation | hooks/useKeyboard.ts:222-240 | j selects the next visible path, stays on the last and selects the first when the selection is not visible; k mirrors it |
| Keyboard.EnterTogglesAnything | hooks/useKeyboard.ts:292-297 | Enter toggles the selection's key with no expandability check, so a primitive's key can enter the set |
| Keyboard.HNavigation | hooks/useKeyboard.ts:242-259 | h collapses an expanded non-empty container, otherwise selects the parent, and does nothing at the root |
| Keyboard.LNavigation | hooks/useKeyboard.ts:261-285 | l expands a collapsed non-empty container, selects the first child ("0" or the first key) of an expanded one, and otherwise does nothing |
| Keyboard.RightCallReachesChild | hooks/useKeyboard.ts:274-282 | the first-child path l selects leads to that child's value |
| Keyboard.ThemeKeys | hooks/useKeyboard.ts:341-353 | D toggles the theme only from a light theme and L only from a dark one; otherwise nothing happens |
| Keyboard.NodeAtLeadingZero | hooks/useKeyboard.ts:57 | the tree's own segment names have no "01" in a two-element array |
| JsonFormat.GetIndentString | lib/json-format.ts:59-61 | "\t" for a tab indent and two spaces for 2 |
| JsonFormat.FirstIndentedLine | lib/json-format.ts:67 | the first line start at or after `from` that begins with a space or tab, or none exactly when there is no such line |
| JsonFormat.DetectIndent | lib/json-format.ts:66-73 | 2 when no line begins with whitespace; otherwise "tab" exactly when the first such line begins with a tab, else 2 |
| JsonFormat.DetectIndentFirstLineWins | lib/json-format.ts:66-73 | only the first indented line counts: a later tab-indented line does not make the result "tab" |
| JsonFormat.LexLessTotal | lib/json-format.ts:42 | the key comparison orders any two distinct keys |
| JsonFormat.LexLessTransitive | lib/json-format.ts:42 | the key comparison is transitive |
| JsonFormat.SortByKey | lib/json-format.ts:41-42 | the members come out ascending by key, as a permutation of the input |
| JsonFormat.SortValues | lib/json-format.ts:43-51 | every member keeps its key and gets its value sorted deeply |
| JsonFormat.OwnMembers | lib/json-format.ts:43-51 | no kept member is keyed `__proto__`, since `acc[key] =` stores no such member; a list without that key is kept whole |
| JsonFormat.OwnMemberFrom | lib/json-format.ts:43-51 | every kept member is one of the originals |
| JsonFormat.OwnMemberKept | lib/json-format.ts:43-51 | every original member not keyed `__proto__` is kept |
| JsonFormat.SortObjectKeysDeep | lib/json-format.ts:36-54 | primitives come back unchanged; arrays keep their length and order with elements sorted deeply; objects have ascending keys and are a permutation of the members not keyed `__proto__`, with values sorted deeply |
| JsonFormat.SortedKeyFromOriginal | lib/json-format.ts:40-51 | every key of the sorted object is a key of the original and is not `__proto__` |
| JsonFormat.OriginalKeySorted | lib/json-format.ts:40-51 | every key of the original except `__proto__` is a key of the sorted object |
| JsonFormat.SortKeepsKeys | lib/json-format.ts:40-51 | the sorted object's keys are exactly the original's keys minus `__proto__` |
| JsonFormat.SortDropsProto | lib/json-format.ts:43-51 | `{"__proto__": 1, "a": 2}` sorts to `{"a": 2}` |
| JsonFormat.SortSortedIsIdentity | lib/json-format.ts:41-42 | sorting members that are already in key order changes nothing |
| JsonFormat.SortIdempotent | lib/json-format.ts:36-54 | sorting twice is the same as sorting once |
| JsonFormat.FormatJsonCall | lib/json-format.ts:6-23 | the value stringified is sorted deeply only when `sortKeys` is true, and the indent unit is "\t" for "tab" and two spaces by default |
| JsonFormat.MinifyJsonCall | lib/json-format.ts:28-31 | the value is stringified as parsed, with no indent |
| Toolbar.NextLayout | components/layout/Toolbar.tsx:108-112 | the next entry of the layout order, wrapping preview-only to split-horizontal; an unknown mode goes to split-horizontal |
| Toolbar.NextLayoutFourCycles | components/layout/Toolbar.tsx:28-33 | four cycles return to the starting layout |
| Toolbar.ToggleViewMode | components/layout/Toolbar.tsx:114-116 | "tree" exactly when the mode was not "tree", otherwise "formatted" |
| Toolbar.ToggleViewModeTwice | components/layout/Toolbar.tsx:114-116 | flipping twice restores tree or formatted |
| Toolbar.CycleIndent | components/layout/Toolbar.tsx:119 | the indent always changes |
| Toolbar.CycleIndentTwice | components/layout/Toolbar.tsx:119 | 2 goes to "tab" and back |
| Toolbar.IndentLabel | components/layout/Toolbar.tsx:134 | "Tab" exactly for the tab indent and "2 spaces" for 2 |
| Toolbar.Guarded | components/layout/Toolbar.tsx:58-86 | `setJson` is called exactly when the text is non-empty and parses, with the same file name |
| Toolbar.HandleFormat | components/layout/Toolbar.tsx:58-66 | on non-empty text that parses, the value is reformatted with the current indent; otherwise nothing happens |
| Toolbar.HandleMinify | components/layout/Toolbar.tsx:68-76 | on non-empty text that parses, the value is written with no indent; otherwise nothing happens |
| Toolbar.HandleSortKeys | components/layout/Toolbar.tsx:78-86 | on non-empty text that parses, the deep-sorted value is formatted with the current indent; otherwise nothing happens |
| Toolbar.SortKeysButtonSorts | components/layout/Toolbar.tsx:78-86 | sorting an object document gives ascending keys and the document's key set minus `__proto__` |
| Toolbar.CycleIndentAction | components/layout/Toolbar.tsx:118-132 | the indent setting always flips; the text is reformatted with the new indent only when it is non-empty and parses |
| SettingsStore.Clamp | stores/settings.ts:31 | `Math.min(Math.max(x, lo), hi)` lies in [lo, hi], is x when x is in range and the nearer bound otherwise |
| SettingsStore.ClampIdempotent | stores/settings.ts:31 | clamping a clamped value changes nothing |
| SettingsStore.Settings.constructor | stores/settings.ts:25-28 | initial font size 14, indent 2, expand depth 2 and copy format "jsonpath", all inside the clamp ranges |
| SettingsStore.Settings.SetFontSize | stores/settings.ts:30-32 | the font size ends in [10, 20], an in-range size is stored unchanged, and no other field changes |
| SettingsStore.Settings.SetIndent | stores/settings.ts:34-36 | stores exactly its argument and changes no other field |
| SettingsStore.Settings.SetDefaultExpandDepth | stores/settings.ts:38-40 | the depth ends in [0, 10], an in-range depth is stored unchanged, and no other field changes |
| SettingsStore.Settings.SetCopyFormat | stores/settings.ts:42-44 | stores exactly its argument and changes no other field |
| CommandPalette.BaseCommands | components/layout/CommandPalette.tsx:68-253 | the palette offers exactly fourteen commands |
| CommandPalette.MarkCurrent | components/layout/CommandPalette.tsx:258 | appending " (current)" always changes the command |
| CommandPalette.Annotate | components/layout/CommandPalette.tsx:256-264 | only the description can change, and it changes exactly when the id is `layout-<layoutMode>` or `view-<viewMode>` |
| CommandPalette.Commands | components/layout/CommandPalette.tsx:256-264 | marking keeps all fourteen commands |
| CommandPalette.MarksOnlyCurrentView | components/layout/CommandPalette.tsx:257-262 | for every layout mode and view mode, a command is marked exactly when it is the current view's command: no layout command is ever marked |
| CommandPalette.LayoutCommandId | components/layout/CommandPalette.tsx:123-160 | a layout command id exists exactly for the four layout modes |
| CommandPalette.AnnotateIntended | components/layout/CommandPalette.tsx:256-264 | the corrected mark: only the description changes, exactly for the current layout's command id or `view-<viewMode>` |
| CommandPalette.CommandsIntended | components/layout/CommandPalette.tsx:256-264 | the corrected marking keeps all fourteen commands |
| CommandPalette.MarksCurrentLayoutAndView | components/layout/CommandPalette.tsx:256-264 | with the corrected marking, a command is marked exactly when its action switches to the current layout or the current view |
| CommandPalette.FilterMatching | components/layout/CommandPalette.tsx:286-292 | keeps, in order, exactly the commands whose label, description or category contains the lower-cased query, each as many times as it occurs in the input |
| CommandPalette.FilteredCommands | components/layout/CommandPalette.tsx:284-293 | a blank query keeps every command; otherwise exactly the matching ones, in their original order |
| CommandPalette.Categories | components/layout/CommandPalette.tsx:296-305 | the group keys, each listed once |
| CommandPalette.CategoriesCover | components/layout/CommandPalette.tsx:298-303 | every command's category is a group key and every group key is some command's category |
| CommandPalette.Group | components/layout/CommandPalette.tsx:298-303 | every command in the group for a category has that category and comes from the filtered list (GroupMembers gives the converse and the order) |
| CommandPalette.GroupMembers | components/layout/CommandPalette.tsx:298-303 | a group holds exactly the commands of its category, in their original order |
| CommandPalette.GroupCommands | components/layout/CommandPalette.tsx:296-305 | the loop builds one entry per category, in order of first appearance, each holding that category's commands in order |
| CommandPalette.FlatCommands | components/layout/CommandPalette.tsx:307-309 | the flattened groups are the grouping's concatenation and a permutation of the filtered commands |
| CommandPalette.FlattenPermutes | components/layout/CommandPalette.tsx:307-309 | flattening the groups loses and duplicates no command |
| CommandPalette.ArrowDown | components/layout/CommandPalette.tsx:335-340 | moves to the next row and wraps from the last row to the first, staying in range |
| CommandPalette.ArrowUp | components/layout/CommandPalette.tsx:341-346 | moves to the previous row and wraps from the first row to the last, staying in range; on an empty list it gives -1 |
| CommandPalette.ArrowsInverse | components/layout/CommandPalette.tsx:335-346 | on a non-empty list, up after down and down after up return to the same row |
| CommandPalette.Selected | components/layout/CommandPalette.tsx:347-352 | Enter runs a command exactly when the index is in range, and then it is the selected row |
| CommandPalette.Palette.constructor | components/layout/CommandPalette.tsx:311-317 | a new palette has an empty query and the first row selected |
| CommandPalette.Palette.Open | components/layout/CommandPalette.tsx:311-317 | opening clears the query and selects the first row |
| CommandPalette.Palette.SetQuery | components/layout/CommandPalette.tsx:319-321 | a new query resets the selection to the first row |
| CommandPalette.Palette.HandleKey | components/layout/CommandPalette.tsx:332-360 | the arrows move the selection by ArrowDown/ArrowUp over the shown rows, Enter yields the selected row's command, Escape closes, any other key changes nothing; the query never changes |
| TabRegistry.FindById | lib/utils/tab-id.ts:70 | `findIndex`: the first position holding the id, or -1 exactly when no entry has it |
| TabRegistry.InsertByRecency | lib/utils/tab-id.ts:80 | one step of the stable sort: the result holds the entry plus the list, nothing lost or added |
| TabRegistry.InsertSorted | lib/utils/tab-id.ts:80 | inserting into a newest-first list keeps it newest first |
| TabRegistry.SortByRecency | lib/utils/tab-id.ts:79-80 | the sort gives a newest-first permutation of the registry |
| TabRegistry.InsertKeepsUnique | lib/utils/tab-id.ts:80 | inserting an entry with a new id keeps ids unique |
| TabRegistry.SortKeepsUnique | lib/utils/tab-id.ts:79-80 | sorting keeps ids unique |
| TabRegistry.Upsert | lib/utils/tab-id.ts:69-77 | the first entry with the id is replaced, or the entry is appended when the id is absent; either way the entry is present |
| TabRegistry.UpsertKeepsUnique | lib/utils/tab-id.ts:69-77 | replace-or-append never creates a second entry for an id |
| TabRegistry.UpdateTabRegistry | lib/utils/tab-id.ts:66-84 | the list written back has at most twenty entries, is newest first, is the first twenty of the sorted replace-or-append result, and keeps ids unique |
| TabRegistry.TrimKeepsNewest | lib/utils/tab-id.ts:78-81 | every entry the trim drops is no newer than every entry it keeps |
| TabRegistry.NewestUpdateKept | lib/utils/tab-id.ts:66-84 | a tab saved with a timestamp newer than all others ends up first, so it survives the trim |
| TabRegistry.RemoveFromTabRegistry | lib/utils/tab-id.ts:89-94 | exactly the entries with another id remain, in their original order and each with its original count; no entry with the removed id remains |
| TabRegistry.RemoveKeepsInvariants | lib/utils/tab-id.ts:89-94 | removing keeps ids unique and the list newest first |
| TabRegistry.EditorStorageKey | lib/utils/tab-id.ts:99-101 | the key is "superjson-editor-" followed by the tab id |
| TabRegistry.StorageKeysDistinct | lib/utils/tab-id.ts:99-101 | different tabs use different storage keys |
| ShareRoute.FirstField | app/api/share/route.ts:44 | `split(",")[0]`: a comma-free prefix of the header, the whole header when it has no comma |
| ShareRoute.ClientIp | app/api/share/route.ts:44-46 | the limiter key is never empty: the first forwarded field when non-empty, else the real-ip header, else "unknown" |
| ShareRoute.RateStep | app/api/share/route.ts:15-30 | a request is admitted exactly when there is no record, the window has passed (`now > resetAt`) or fewer than 20 were counted; a refusal leaves the record alone, a new window starts at count 1 and ends a minute later, and a request inside a window keeps its end |
| ShareRoute.RateLimiter.constructor | app/api/share/route.ts:11 | the limiter starts with no records |
| ShareRoute.RateLimiter.CheckRateLimit | app/api/share/route.ts:15-30 | the answer and the address's new record are those of RateStep, other addresses' records are untouched, and every count stays between 1 and 20 |
| ShareRoute.Admitted | app/api/share/route.ts:15-30 | no more requests are admitted than are made |
| ShareRoute.WindowCap | app/api/share/route.ts:24-29 | inside a window that has counted `count` requests at most `20 - count` more are admitted |
| ShareRoute.AtMostLimitPerWindow | app/api/share/route.ts:12-30 | a fresh window admits at most 20 requests, whatever came before it |
| ShareRoute.ResetAtBelongsToOldWindow | app/api/share/route.ts:19 | a full window still refuses at exactly `resetAt` and opens a new window one millisecond later |
| ShareRoute.ValidateShare | app/api/share/route.ts:48-82 | the request proceeds exactly when admitted, the body is readable, `json` is a non-empty string of at most 5 MiB of UTF-8 that parses; a refused request always gets 429, and every rejection is 400, 413, 429 or 500 |
| ShareRoute.RateLimitComesFirst | app/api/share/route.ts:48-53 | a refused request gets 429 whatever its body |
| ShareRoute.SizeCheckedBeforeParse | app/api/share/route.ts:65-72 | an oversized document gets 413 whether or not it would parse |
| ShareRoute.SizeLimitInCharacters | app/api/share/route.ts:65-67 | the limit counts UTF-8 bytes: up to 1.25 Mi characters always fit, more than 5 Mi characters never do |
| ShareRoute.ChosenIndex | app/api/share/route.ts:87-97 | the loop settles on the first of the first five ids not taken, else on the sixth, which it never checks |
| ShareRoute.PickShareId | app/api/share/route.ts:87-97 | the loop returns the ChosenIndex id after at most five lookups, and returns a taken id only when all five checked ids were taken |
| ShareRoute.SixthIdUnchecked | app/api/share/route.ts:89-97 | when five ids collide, the sixth is chosen without a lookup even though it collides too |
| ShareRoute.StoredFileName | app/api/share/route.ts:104 | `fileName \|\| null`: an empty or missing name is stored as null, any other name as given |
| ShareRoute.Post | app/api/share/route.ts:41-124 | the limiter is updated as RateStep says; the first failing check answers and nothing is stored; a chosen id that is already taken answers 500 "Failed to create share" and stores nothing, because the INSERT breaks the primary key (lib/db.ts:13); otherwise the row holds the chosen id, the document, its byte size and an expiry thirty days after the store time, and the response carries the same id, URL `<base>/s/<id>`, expiry and size |
| FetchRoute.DottedQuad | app/api/fetch/route.ts:22-25 | a match of the IPv4 pattern yields exactly four values, each below 1000 |
| FetchRoute.DigitsBound | app/api/fetch/route.ts:22-25 | a run of n decimal digits reads as a value below 10^n, so a one-to-three digit group is below 1000 |
| FetchRoute.QuadSplit | app/api/fetch/route.ts:22-23 | four digit groups joined by dots split back into the same four groups |
| FetchRoute.QuadValues | app/api/fetch/route.ts:22-25 | four digit groups joined by dots match the pattern and are read as their four numeric values |
| FetchRoute.BlockedDigitHost | app/api/fetch/route.ts:6-19 | a lower-case host starting with a digit is blocked by name only as 127.0.0.1, 0.0.0.0 or 169.254.169.254 |
| FetchRoute.QuadPrivate | app/api/fetch/route.ts:15-35 | a dotted quad is private exactly when its first two values lie in 10/8, 172.16/12, 192.168/16, 127/8 or 0/8, or it is the metadata address |
| FetchRoute.TenNetUnchecked | app/api/fetch/route.ts:22-27 | groups are not range-checked: "10.999.0.1" counts as private |
| FetchRoute.HighFirstGroupPasses | app/api/fetch/route.ts:22-34 | "999.1.1.1" is not private |
| FetchRoute.OnlyMetadataLinkLocal | app/api/fetch/route.ts:12-34 | of the 169.254.x.y addresses only the metadata address is blocked |
| FetchRoute.NameCaseIgnored | app/api/fetch/route.ts:17 | listed names are matched case-insensitively ("LocalHost" is blocked) |
| FetchRoute.OnlyListedIpv6 | app/api/fetch/route.ts:10-34 | "[::1]" is blocked but "[::2]" is not: only the listed IPv6 host is refused |
| FetchRoute.Relay | app/api/fetch/route.ts:68-109 | data exactly when the upstream answered ok, declared no numeric content-length above 5 MiB and its body parses, and then the data is the parsed body; a network failure is 500, a non-OK answer keeps the upstream's status, an ok answer declaring too much is 413, and an ok answer that does not parse is 422 |
| FetchRoute.Get | app/api/fetch/route.ts:37-110 | in order: a missing or empty url is 400 "URL parameter is required", an unparseable one 400 "Invalid URL", a scheme other than http or https 400, a private host 403, and a URL passing every guard is answered by relaying the fetch of it; data only ever comes from such a URL |
| FetchRoute.PrivateHostNotFetched | app/api/fetch/route.ts:60-66 | a private host gets 403 and the upstream is never consulted |
| FetchRoute.NonOkBeforeSize | app/api/fetch/route.ts:76-90 | a non-OK upstream keeps its own status even when it declares a huge size and sends a parseable body |
| FetchRoute.SizeBeforeParse | app/api/fetch/route.ts:84-103 | an ok upstream declaring more than 5 MiB gets 413 whatever the parser would say |
| FetchRoute.NetworkErrorIs500 | app/api/fetch/route.ts:69-108 | a guarded URL whose request fails in the network gets 500 "Fetch failed: " followed by the message |
| FetchRoute.SizeLimitNeedsHeader | app/api/fetch/route.ts:83-105 | without a content-length header the size limit never applies, however long the body |
| JsonTransform.MatchAt | lib/json-transform.ts:32-135 | a match of any of the transform's regular expressions covers at least one character and lies inside the text |
| JsonTransform.ReplaceAll | lib/json-transform.ts:32-135 | a global replace counts at most one match per character |
| JsonTransform.NotFoundUnchanged | lib/json-transform.ts:32-135 | a replace whose pattern matches nowhere leaves the text as it was and counts nothing |
| JsonTransform.ZeroCountUnchanged | lib/json-transform.ts:33-40 | a pass that counts no match has not changed the text |
| JsonTransform.FoundImplies | lib/json-transform.ts:175-181 | a pattern whose every match implies a match of another pattern is caught wherever the first is |
| JsonTransform.RunChangesFollowPasses | lib/json-transform.ts:29-147 | every reported change counts at least one replacement, and the changes are reported in pass order, each pass at most once |
| JsonTransform.PassDescriptionsDistinct | lib/json-transform.ts:37-144 | the eight passes report eight different descriptions |
| JsonTransform.TwoPatterns | lib/json-transform.ts:69-96 | the quote pass replaces values and then keys on the values' output, and reports the sum of both counts |
| JsonTransform.RunAsSteps | lib/json-transform.ts:31-147 | the transform is the eight passes in source order: single-line comments, multi-line comments, unquoted keys, single quotes, trailing commas, undefined, NaN, Infinity |
| JsonTransform.SimplePass | lib/json-transform.ts:31-67 | a one-pattern pass replaces every match and appends a change with its count exactly when it counted any |
| JsonTransform.QuotePass | lib/json-transform.ts:69-96 | the quote pass applies both replaces and appends one change with their combined count when it counted any |
| JsonTransform.TransformText | lib/json-transform.ts:27-147 | the text and the change list are those of the eight passes run in order |
| JsonTransform.TransformJson | lib/json-transform.ts:27-168 | the result keeps the input, holds the passes' text and changes, is marked transformed exactly when a change was reported, is valid exactly when the text parses to something other than null, and carries an error exactly when parsing failed |
| JsonTransform.FoundNeeds | lib/json-transform.ts:173-192 | any text that one of the transform's patterns matches is flagged by the quick test |
| JsonTransform.NoNeedNoChange | lib/json-transform.ts:27-192 | a text the quick test does not flag comes out of the transform unchanged with no change reported |
| JsonTransform.QuotePairIffTwoApostrophes | lib/json-transform.ts:177 | the single-quote test fires exactly when the text holds at least two apostrophes |
| JsonTransform.CommentInsideString | lib/json-transform.ts:32-34 | comment removal does not respect string literals: `"a//b"` loses everything from `//` on |
| JsonTransform.TrailingCommaDropped | lib/json-transform.ts:98-111 | a comma before a closing bracket is removed and the whitespace kept |
| JsonTransform.DoubleCommaKeepsOne | lib/json-transform.ts:98-111 | of two commas before a closing bracket only the last is removed |
| JsonTransform.UndefinedBecomesNull | lib/json-transform.ts:113-123 | `: undefined` becomes `: null`, however much space follows the colon |
| JsonTransform.NegativeInfinityBecomesNull | lib/json-transform.ts:137-147 | `:-Infinity` becomes `: null`, the minus sign included |
| JsonTransform.NaNNeedsBoundary | lib/json-transform.ts:125-135 | `NaN` followed by a word character is not replaced |
| Themes.OfType | lib/themes.ts:424-425 | `filter` on the type: exactly the themes of that type, in their original order |
| Themes.OfTypeCounts | lib/themes.ts:424-425 | each theme of the type is kept as many times as it occurs, and a theme of the other type is not kept at all |
| Themes.DarkAndLight | lib/themes.ts:406-425 | seven dark and six light themes; every theme is in exactly one of the two lists |
| Themes.FromEntriesKeys | lib/themes.ts:427-429 | `Object.fromEntries` keys exactly the entries' ids, each bound to an entry with that id |
| Themes.FromEntriesFinds | lib/themes.ts:427-429 | with unique ids every entry is found under its own id |
| Themes.FromEntriesSize | lib/themes.ts:427-429 | with unique ids the map has one key per entry |
| Themes.AllIdsUnique | lib/themes.ts:406-422 | no two of the thirteen themes share an id |
| Themes.ThemeMapIsFromEntries | lib/themes.ts:427-429 | the written-out theme map is the one built from the theme list |
| Themes.ThemeMapEntries | lib/themes.ts:427-429 | the map has thirteen ids and finds every theme under its own id |
| Themes.ThemeById | lib/themes.ts:450-452 | looking a theme up by its id gives that theme |
| Themes.UnknownIdIsDefault | lib/themes.ts:450-452 | an id no theme has gives the default theme, paper |
| Themes.LookupIsTheme | lib/themes.ts:450-452 | a lookup always gives one of the thirteen themes: the one with that id, or the default |
| Themes.OppositeIsTheme | lib/themes.ts:454-457 | the opposite of any id is one of the thirteen themes |
| Themes.DarkOpposites | lib/themes.ts:432-457 | moonlight, lavender and midnight toggle to cloud; rose-pine to dawn; ember to sand; glacier to frost; moss to mint |
| Themes.LightOpposites | lib/themes.ts:432-457 | paper and sand toggle to ember; cloud to moonlight; dawn to rose-pine; frost to glacier; mint to moss |
| Themes.OppositeType | lib/themes.ts:432-457 | every theme toggles to a theme of the other type |
| Themes.ToggleTwice | lib/themes.ts:432-457 | toggling twice returns to the theme, except lavender and midnight, which end at moonlight, and paper, which ends at sand |
| Themes.UnpairedToDefault | lib/themes.ts:454-457 | an id without a pair toggles to the default theme |
| Themes.PairsCoverThemes | lib/themes.ts:427-448 | every theme id has a pair, and every pair names a theme |
| Themes.Hex | lib/themes.ts:459-481 | a colour component written as exactly `width` hex digits |
| Themes.ParseHexOfHex | lib/themes.ts:459-481 | hex digits read back as the value written |
| Themes.ColorText | lib/themes.ts:459-481 | a colour is written `#` followed by six hex digits |
| Themes.ColorTextDecodes | lib/themes.ts:459-481 | the written colour reads back as the same 24-bit value |
| Themes.GetThemeCssVars | lib/themes.ts:459-481 | one custom property per colour field, nineteen in all |
| Themes.ColorFieldsDistinct | lib/themes.ts:5-36 | each colour field is listed once |
| Themes.ColorFieldsComplete | lib/themes.ts:5-36 | every colour field is listed |
| Themes.VariableNamesDistinct | lib/themes.ts:459-481 | different fields have different custom property names |
| Themes.CssVarsFollowFields | lib/themes.ts:459-481 | the i-th property is the i-th field's name with that field's colour in the theme |
| Themes.CssVarsDistinct | lib/themes.ts:459-481 | no property is set twice, and every field's colour appears under its own name |
| ThemeStore.Merge | stores/theme.ts:39-48 | hydration always marks the store hydrated and resolves the theme from the id; a non-empty persisted id wins, otherwise the current id is kept |
| ThemeStore.Partialize | stores/theme.ts:38 | only the theme id is persisted |
| ThemeStore.MergePartialized | stores/theme.ts:38-48 | reading back what was written restores the id, and the theme when it was resolved from that id |
| ThemeStore.Store.constructor | stores/theme.ts:17-19 | the store starts on paper, not yet hydrated, with the theme matching its id |
| ThemeStore.Store.SetTheme | stores/theme.ts:21-24 | the id is stored as given and the theme is its lookup; the hydration flag is untouched |
| ThemeStore.Store.ToggleDarkLight | stores/theme.ts:26-30 | the theme becomes the opposite of the current id, and the id becomes that theme's id; under the store invariant (the theme is the lookup of the id), a theme shown under its own id always changes between dark and light |
| ThemeStore.Store.SetHasHydrated | stores/theme.ts:32-34 | only the hydration flag changes |
| ThemeStore.Store.Hydrate | stores/theme.ts:39-48 | the new state is Merge of the persisted value and the old state |
| ThemeStore.UnknownIdMismatch | stores/theme.ts:21-24 | after setting an unknown id the store shows paper while keeping the unknown id |
| ThemeStore.ToggleFromKnown | stores/theme.ts:26-30 | from any theme a toggle changes the type, and a second toggle returns unless the theme is lavender, midnight or paper |
| JsonNode.FormatString | components/editor/JsonValue.tsx:26-30 | a string is shown quoted, never longer than 105 characters |
| JsonNode.FormatValue | components/editor/JsonValue.tsx:24-43 | each kind of value has its text: a quoted string, the number's own text, true/false, null, or the child count in brackets of the container's kind |
| JsonNode.Bracketed | components/editor/JsonValue.tsx:37-41 | the inner text between the container's opening bracket and its closing one |
| JsonNode.Open | components/editor/JsonValue.tsx:37-41 | `[` exactly for arrays and `{` exactly for objects |
| JsonNode.ShortStringShownWhole | components/editor/JsonValue.tsx:26-30 | up to 100 characters are shown whole |
| JsonNode.LongStringElided | components/editor/JsonValue.tsx:26-30 | a longer string shows its first 100 characters followed by `..."` |
| JsonNode.ElisionIdentifies | components/editor/JsonValue.tsx:26-30 | long strings with the same first 100 characters look the same |
| JsonNode.ShortStringsDistinct | components/editor/JsonValue.tsx:26-30 | different short strings look different |
| JsonNode.CountsDistinct | components/editor/JsonValue.tsx:37-41 | containers with different child counts look different |
| JsonNode.KeyText | components/editor/JsonNode.tsx:52-70 | a name key is its name, an index key is its decimal digits |
| JsonNode.HandleToggle | components/editor/JsonNode.tsx:41-46 | a click toggles exactly for a non-empty array or object, and toggles the row's own path |
| JsonNode.RenderKey | components/editor/JsonNode.tsx:52-70 | a key is shown exactly when the row has one, always ending in a colon: an array index bare, any other key quoted |
| JsonNode.RenderExpandIcon | components/editor/JsonNode.tsx:72-89 | the chevron points down exactly when the row is expanded |
| JsonNode.ButtonIffToggle | components/editor/JsonNode.tsx:41-89 | the chevron is drawn exactly for the rows a click toggles |
| JsonNode.RenderValue | components/editor/JsonNode.tsx:91-117 | scalars are delegated to the value text; an empty container shows its bracket pair, a collapsed one the child count, an expanded one only its opening bracket |
| JsonNode.CollapsedMatchesValue | components/editor/JsonNode.tsx:104-110 | a collapsed non-empty container shows the same text as the value display |
| JsonNode.EmptyDiffersFromValue | components/editor/JsonNode.tsx:96-102 | an empty container shows `[]` or `{}`, unlike the value display's `[0]`, whether or not it is expanded |
| JsonNode.ExpandedIsPrefix | components/editor/JsonNode.tsx:112-116 | the expanded text is a non-empty prefix of the collapsed text |

## Left out

- Parsing, serialising and repairing JSON text (`JSON.parse`, `JSON.stringify`, jsonrepair): parse results are inputs, the printed text of `formatJson` and `minifyJson` is not modelled, and neither are the repair branches of `setJson`, `applyRepair` or `repairCurrentJson`.
- `generateSourceMap`: the pointer map is an input list of (pointer, ranges) entries, so range nesting is not assumed.
- Persistence: local storage, session storage and the persist middleware of the editor store. The tab registry is the list read from storage, and only the theme store's `partialize` and `merge` are modelled.
- Network and database: the share table, the upstream fetch, `lib/utils/share.ts` and lz-string. Their answers are inputs. The share route's catch-all 500 is modelled for one database failure only: a duplicate id. Any other failure of the database is not modelled.
- Randomness and the clock: `generateShareId` is the sequence of ids it would return, and `Date.now()` and `performance.now()` are parameters.
- Floating point: numbers are the text JavaScript prints for them. Parse time and byte-size formatting are not modelled, nor is split-pane dragging.
- Timers, DOM, React and CodeMirror glue are not modelled: the timeout that clears a pending "g", focus, scrolling, the virtualiser, the clipboard write behind y/Y (the model only returns the text to copy), class names and colours (`colorClass` in JsonValue.tsx), and the rendering components.
- Unicode: `toLowerCase` and `toUpperCase` fold ASCII letters only, and `localeCompare` is the lexicographic order of characters.
- String length: the model's `|s|` counts characters, while JavaScript's `length` counts UTF-16 code units. This matters for the 100-character cut in JsonValue.tsx when a string holds characters outside the Basic Multilingual Plane.
- Object key order: objects keep their members in the order given. The engine's rule that integer-like keys come first is not reproduced.
- Prototype keys: `themeMap[id]` and `themePairs[id]` on ids such as "constructor" or "__proto__" would reach `Object.prototype`. Here a lookup only ever finds the listed ids.
- Persisted theme state: a persisted `themeId` that is not a string is not modelled, since `Persisted.themeId` is an optional string.
- Themes.GetThemeCssVars: returns the record as its list of (name, value) entries in written order. Each colour is a 24-bit value written as `#` followed by six lower-case hex digits, and the table's colours are held as those values.
- JsonTransform.MatchAt: models each regular expression by an anchored matcher written by hand, covering JavaScript's `\s` (whitespace and line terminators) and `\b` on ASCII word characters. Lazy and backtracking behaviour is reproduced only for these eight patterns.
- FetchRoute.Get: URL parsing (`new URL`) is a parameter that yields the protocol and hostname. No properties of WHATWG URL parsing, such as host canonicalisation, are assumed.
- FetchRoute.Relay: `parseInt` on the content-length header follows JavaScript's leading-digits reading. The network error's message is taken as given.
- ShareRoute.Post: the request body is either unreadable or a `json` member that is or is not a string. Other JavaScript falsy `json` values (0, false, null) take the same 400 path as a non-string, which matches the code. `fileName` is absent or a string. A number or `true` would reach the INSERT unchanged through `fileName || null`; an object would make the INSERT throw and the route answer 500. Those shapes are not modelled.
- SettingsStore.Settings.SetFontSize: `fontSize` and `defaultExpandDepth` are integers here, while the setters accept any JavaScript number and clamp it. A fractional or NaN argument is not modelled.
- SettingsStore.Settings.SetDefaultExpandDepth: same integer restriction as `SetFontSize`.
- CommandPalette.BaseCommands: icons and the optional `shortcut` label each command carries for display (CommandPalette.tsx:34, :76, :95 and on) are not modelled, and each action is a tag naming the store call it makes.

## Findings

| source | as written | input that shows it | evidently intended | confidence | as-written member | corrected member |
|---|---|---|---|---|---|---|
| components/editor/JsonExplorer.tsx:139 | a row is drawn as a closing bracket when its key is null and its value is "}" or "]" | the document `"}"`: its single root row is drawn as a closing bracket | only synthetic closing rows are drawn as brackets, so the value's type must be checked as well | not executed; high | Explorer.RootBracketStringMisdrawn | Explorer.DetectionTyped |
| components/layout/CommandPalette.tsx:257 | the layout command is marked when its id equals `layout-` followed by the layout mode (`replace("-", "-")` changes nothing) | any layout mode, e.g. "split-horizontal": its command id is "layout-split-h", so no layout command is ever marked | the command for the current layout is marked "(current)", as the view command is | not executed; medium | CommandPalette.MarksOnlyCurrentView | CommandPalette.MarksCurrentLayoutAndView |
