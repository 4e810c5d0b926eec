/**
 * One row of the tree view: the key label, the expand control with its toggle guard,
 * and the value label. Primitive values are shown by the value component, whose text
 * is `FormatValue`. Only the row's text and the toggle callback are modelled; classes,
 * colours and indentation are presentation.
 */
module JsonNode {
  import opened Options
  import opened Strings
  import opened JsonValues

  /** The longest string prefix the value component shows before eliding the rest. */
  const MaxLen := 100

  // ---------------------------------------------------------------------------------------
  // The value component
  // ---------------------------------------------------------------------------------------

  /** A string value as shown: quoted, with anything past `MaxLen` characters replaced by "...". */
  function FormatString(s: string): (r: string)
    ensures |r| <= MaxLen + 5
    ensures |r| >= 2 && r[0] == '"' && r[|r| - 1] == '"'
  {
    var display := if |s| > MaxLen then s[..MaxLen] + "..." else s;
    "\"" + display + "\""
  }

  /** `formatValue()`: the text the value component shows for any value. */
  function FormatValue(v: Json): (r: string)
    ensures v.Str? ==> r == FormatString(v.s)
    ensures v.Null? ==> r == "null"
    ensures v.Bool? ==> r == (if v.b then "true" else "false")
    ensures v.Num? ==> r == v.text
    ensures IsContainer(v) ==> r == Bracketed(v, NatToString(GetChildCount(v).value))
  {
    match v
    case Str(s) => FormatString(s)
    case Num(text) => text
    case Bool(b) => if b then "true" else "false"
    case Null => "null"
    case Obj(members) => "{" + NatToString(|members|) + "}"
    case Arr(items) => "[" + NatToString(|items|) + "]"
  }

  /** `inner` between the brackets of the container's kind: square for an array, braces for an object. */
  function Bracketed(v: Json, inner: string): (r: string)
    requires IsContainer(v)
    ensures |r| == |inner| + 2 && r[1..|r| - 1] == inner
    ensures r[0] == Open(v)
  {
    if v.Arr? then "[" + inner + "]" else "{" + inner + "}"
  }

  /** The opening bracket of the container's kind. */
  function Open(v: Json): (c: char)
    requires IsContainer(v)
    ensures c == '[' <==> v.Arr?
    ensures c == '{' <==> v.Obj?
  {
    if v.Arr? then '[' else '{'
  }

  /** A string of at most `MaxLen` characters is shown whole: removing the quotes gives it back. */
  lemma ShortStringShownWhole(s: string)
    requires |s| <= MaxLen
    ensures var r := FormatString(s); r[1..|r| - 1] == s
  {
  }

  /** A longer string is shown as its first `MaxLen` characters followed by "...", in quotes. */
  lemma LongStringElided(s: string)
    requires |s| > MaxLen
    ensures var r := FormatString(s); |r| == MaxLen + 5 && r[1..MaxLen + 1] == s[..MaxLen] && r[MaxLen + 1..] == "...\""
  {
  }

  /** Two strings agreeing on their first `MaxLen` characters and both longer look the same: the elision loses the tail. */
  lemma ElisionIdentifies(s: string, t: string)
    requires |s| > MaxLen && |t| > MaxLen && s[..MaxLen] == t[..MaxLen]
    ensures FormatString(s) == FormatString(t)
  {
  }

  /** Short strings are told apart by their display. */
  lemma ShortStringsDistinct(s: string, t: string)
    requires |s| <= MaxLen && |t| <= MaxLen && s != t
    ensures FormatString(s) != FormatString(t)
  {
    ShortStringShownWhole(s);
    ShortStringShownWhole(t);
  }

  /** Containers of the same kind with different child counts are told apart by their display. */
  lemma CountsDistinct(v: Json, w: Json)
    requires IsContainer(v) && IsContainer(w)
    requires GetChildCount(v) != GetChildCount(w)
    ensures FormatValue(v) != FormatValue(w)
  {
    var a, b := FormatValue(v), FormatValue(w);
    if a == b {
      assert a[1..|a| - 1] == b[1..|b| - 1];
      NatToStringInjective(GetChildCount(v).value, GetChildCount(w).value);
    }
  }

  // ---------------------------------------------------------------------------------------
  // The row
  // ---------------------------------------------------------------------------------------

  /** The key a row was given: an array index, an object key, or none for the root. */
  datatype NodeKey = Index(i: nat) | Name(name: string)

  /** The kind of container holding the row, or none for the root. */
  datatype ParentType = ObjectParent | ArrayParent | NoParent

  /** The key text, as `{nodeKey}` interpolates it. */
  function KeyText(k: NodeKey): (s: string)
    ensures k.Name? ==> s == k.name
    ensures k.Index? ==> IsAllDigits(s)
  {
    match k
    case Index(i) => NatToString(i)
    case Name(name) => name
  }

  /** `isExpandable && !isEmpty`: a container with at least one child. */
  predicate HasChildren(v: Json) {
    IsContainer(v) && GetChildCount(v) != Some(0)
  }

  /** `handleToggle`: the path handed to `onToggle`, or nothing when the guard stops the call. */
  function HandleToggle(v: Json, path: Path): (toggled: Option<Path>)
    ensures toggled.Some? <==> (v.Arr? && |v.items| > 0) || (v.Obj? && |v.members| > 0)
    ensures toggled.Some? ==> toggled.value == path
  {
    if HasChildren(v) then Some(path) else None
  }

  /** `renderKey()`: nothing for the root, `index:` under an array, `"key":` otherwise. */
  function RenderKey(nodeKey: Option<NodeKey>, parentType: ParentType): (shown: Option<string>)
    ensures shown.None? <==> nodeKey.None?
    ensures shown.Some? ==> |shown.value| > 0 && shown.value[|shown.value| - 1] == ':'
    ensures shown.Some? && parentType == ArrayParent ==> shown.value[..|shown.value| - 1] == KeyText(nodeKey.value)
    ensures shown.Some? && parentType != ArrayParent ==>
              (var l := shown.value;
               |l| == |KeyText(nodeKey.value)| + 3 && l[0] == '"' && l[|l| - 2] == '"' && l[1..|l| - 2] == KeyText(nodeKey.value))
  {
    match nodeKey
    case None => None
    case Some(k) =>
      if parentType == ArrayParent then Some(KeyText(k) + ":")
      else Some("\"" + KeyText(k) + "\"" + ":")
  }

  /** The control before the label: a spacer, or a chevron pointing down when expanded. */
  datatype ExpandIcon = Spacer | Chevron(down: bool)

  /** `renderExpandIcon()`. */
  function RenderExpandIcon(v: Json, isExpanded: bool): (icon: ExpandIcon)
    ensures icon.Chevron? ==> icon.down == isExpanded
  {
    if !HasChildren(v) then Spacer else Chevron(isExpanded)
  }

  /** The chevron button is shown exactly for the rows whose toggle reaches `onToggle`. */
  lemma ButtonIffToggle(v: Json, isExpanded: bool, path: Path)
    ensures RenderExpandIcon(v, isExpanded).Chevron? <==> HandleToggle(v, path).Some?
  {
  }

  /** What `renderValue()` shows: the value component's text, or a bracket label in the muted colour. */
  datatype ValueLabel = ValueComponent(text: string) | BracketLabel(text: string)

  /** `renderValue()`. */
  function RenderValue(v: Json, isExpanded: bool): (shown: ValueLabel)
    ensures shown.ValueComponent? <==> !IsContainer(v)
    ensures shown.ValueComponent? ==> shown.text == FormatValue(v)
    ensures IsContainer(v) && !HasChildren(v) ==> shown.text == Bracketed(v, "")
    ensures HasChildren(v) && !isExpanded ==> shown.text == Bracketed(v, NatToString(GetChildCount(v).value))
    ensures HasChildren(v) && isExpanded ==> shown.text == [Open(v)]
  {
    if !IsContainer(v) then ValueComponent(FormatValue(v))
    else
      var childCount := GetChildCount(v).value;
      if childCount == 0 then BracketLabel(if v.Arr? then "[]" else "{}")
      else if !isExpanded then BracketLabel(if v.Arr? then "[" + NatToString(childCount) + "]" else "{" + NatToString(childCount) + "}")
      else BracketLabel(if v.Arr? then "[" else "{")
  }

  /** A collapsed container with children reads as the value component would show it. */
  lemma CollapsedMatchesValue(v: Json)
    requires HasChildren(v)
    ensures RenderValue(v, false).text == FormatValue(v)
  {
  }

  /** An empty container reads `[]` or `{}`, not the value component's `[0]` or `{0}`. */
  lemma EmptyDiffersFromValue(v: Json)
    requires IsContainer(v) && !HasChildren(v)
    ensures RenderValue(v, false).text != FormatValue(v)
    ensures RenderValue(v, false) == RenderValue(v, true)
  {
    assert |NatToString(0)| == 1;
  }

  /** Expanding a container keeps only the opening bracket of the collapsed label. */
  lemma ExpandedIsPrefix(v: Json)
    requires IsContainer(v)
    ensures |RenderValue(v, true).text| >= 1
    ensures RenderValue(v, true).text == RenderValue(v, false).text[..|RenderValue(v, true).text|]
  {
  }
}
