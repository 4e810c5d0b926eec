/**
 * The toolbar's pure decisions: layout, view and indent cycling, the indent label, and
 * the guards of the format, minify and sort-keys buttons. The text `JSON.stringify`
 * prints is not modelled; a button's effect is the stringify request it would pass to
 * `setJson`, together with the file name.
 */
module Toolbar {
  import opened Options
  import opened JsonValues
  import opened JsonFormat

  /** The layout modes in the order the layout button cycles through them. */
  const LayoutOrder: seq<string> := ["split-horizontal", "split-vertical", "editor-only", "preview-only"]

  /** `cycleLayout`: the next mode of `LayoutOrder`, wrapping around; an unknown mode gives the first. */
  function NextLayout(mode: string): (r: string)
    ensures r in LayoutOrder && r != mode
    ensures mode !in LayoutOrder ==> r == LayoutOrder[0]
    ensures mode == "split-horizontal" ==> r == "split-vertical"
    ensures mode == "split-vertical" ==> r == "editor-only"
    ensures mode == "editor-only" ==> r == "preview-only"
    ensures mode == "preview-only" ==> r == "split-horizontal"
  {
    // `LAYOUT_ORDER[(LAYOUT_ORDER.indexOf(mode) + 1) % 4]`, with indexOf giving -1 for an unknown mode
    if mode == LayoutOrder[0] then LayoutOrder[1]
    else if mode == LayoutOrder[1] then LayoutOrder[2]
    else if mode == LayoutOrder[2] then LayoutOrder[3]
    else LayoutOrder[0]
  }

  /** Four presses of the layout button return to a known starting mode. */
  lemma NextLayoutFourCycles(mode: string)
    requires mode in LayoutOrder
    ensures NextLayout(NextLayout(NextLayout(NextLayout(mode)))) == mode
  {
  }

  /** `toggleViewMode`: "tree" becomes "formatted", anything else becomes "tree". */
  function ToggleViewMode(mode: string): (r: string)
    ensures r == "tree" <==> mode != "tree"
    ensures r == "tree" || r == "formatted"
  {
    if mode == "tree" then "formatted" else "tree"
  }

  /** Two toggles return to either of the two view modes. */
  lemma ToggleViewModeTwice(mode: string)
    requires mode == "tree" || mode == "formatted"
    ensures ToggleViewMode(ToggleViewMode(mode)) == mode
  {
  }

  /** The indent the indent button switches to: 2 becomes "tab" and "tab" becomes 2. */
  function CycleIndent(indent: IndentType): (r: IndentType)
    ensures r != indent
  {
    if indent == TwoSpaces then Tab else TwoSpaces
  }

  lemma CycleIndentTwice(indent: IndentType)
    ensures CycleIndent(CycleIndent(indent)) == indent
  {
  }

  /** `indentLabel`: "Tab" for a tab indent, "2 spaces" for two spaces. */
  function IndentLabel(indent: IndentType): (r: string)
    ensures r == "Tab" <==> indent == Tab
    ensures indent == TwoSpaces ==> r == "2 spaces"
  {
    if indent == Tab then "Tab" else "2 spaces"
  }

  /** The call `setJson(JSON.stringify(call.value, null, call.space), fileName)`. */
  datatype SetJsonRequest = SetJsonRequest(call: StringifyCall, fileName: string)

  /**
   * The shared guard of the three buttons: nothing on empty text, nothing when the
   * text does not parse (`reparse` is what `JSON.parse(rawJson)` gives), otherwise the
   * stringify request built from the parsed value.
   */
  function Guarded(rawJson: string, reparse: Option<Json>, fileName: string, build: Json -> StringifyCall): (r: Option<SetJsonRequest>)
    ensures r.Some? <==> rawJson != "" && reparse.Some?
    ensures r.Some? ==> r.value.fileName == fileName && r.value.call == build(reparse.value)
  {
    if rawJson == "" then None
    else match reparse
      case None => None
      case Some(v) => Some(SetJsonRequest(build(v), fileName))
  }

  /** `handleFormat`: reformat the current text with the configured indent. */
  function HandleFormat(rawJson: string, reparse: Option<Json>, fileName: string, indent: IndentType): (r: Option<SetJsonRequest>)
    ensures r.Some? <==> rawJson != "" && reparse.Some?
    ensures r.Some? ==> r.value.fileName == fileName && r.value.call.value == reparse.value
    ensures r.Some? ==> StringifyIndentUnit(r.value.call.space) == GetIndentString(indent)
  {
    Guarded(rawJson, reparse, fileName, v => FormatJsonCall(v, FormatOptions(Some(indent), None)))
  }

  /** `handleMinify`: print the current value with no indentation. */
  function HandleMinify(rawJson: string, reparse: Option<Json>, fileName: string): (r: Option<SetJsonRequest>)
    ensures r.Some? <==> rawJson != "" && reparse.Some?
    ensures r.Some? ==> r.value.fileName == fileName && r.value.call.value == reparse.value
    ensures r.Some? ==> StringifyIndentUnit(r.value.call.space) == ""
  {
    Guarded(rawJson, reparse, fileName, MinifyJsonCall)
  }

  /** `handleSortKeys`: reformat with every object's keys sorted, at every depth. */
  function HandleSortKeys(rawJson: string, reparse: Option<Json>, fileName: string, indent: IndentType): (r: Option<SetJsonRequest>)
    ensures r.Some? <==> rawJson != "" && reparse.Some?
    ensures r.Some? ==> r.value.fileName == fileName && r.value.call.value == SortObjectKeysDeep(reparse.value)
    ensures r.Some? ==> StringifyIndentUnit(r.value.call.space) == GetIndentString(indent)
  {
    Guarded(rawJson, reparse, fileName, v => FormatJsonCall(v, FormatOptions(Some(indent), Some(true))))
  }

  /**
   * Sorting keys of an object document yields an object whose keys are in order and are
   * the document's keys, less `__proto__`.
   */
  lemma SortKeysButtonSorts(rawJson: string, reparse: Option<Json>, fileName: string, indent: IndentType, key: string)
    requires rawJson != "" && reparse.Some? && reparse.value.Obj?
    ensures var r := HandleSortKeys(rawJson, reparse, fileName, indent);
      r.Some? && r.value.call.value.Obj? && KeysSorted(r.value.call.value.members) &&
      (key in Keys(r.value.call.value.members) <==> key in Keys(reparse.value.members) && key != ProtoKey)
  {
    SortKeepsKeys(reparse.value, key);
  }

  /**
   * `cycleIndent`: the new indent preference, and the reformat request made with it when
   * the text is non-empty and parses.
   */
  function CycleIndentAction(indent: IndentType, rawJson: string, reparse: Option<Json>, fileName: string): (r: (IndentType, Option<SetJsonRequest>))
    ensures r.0 == CycleIndent(indent)
    ensures r.1.Some? <==> rawJson != "" && reparse.Some?
    ensures r.1.Some? ==> r.1.value.call.value == reparse.value && StringifyIndentUnit(r.1.value.call.space) == GetIndentString(r.0)
  {
    var newIndent := CycleIndent(indent);
    (newIndent, HandleFormat(rawJson, reparse, fileName, newIndent))
  }
}
