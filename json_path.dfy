/**
 * Path encodings (lib/utils/json-path.ts): rendering a path as a JSONPath, jq or
 * JavaScript accessor, reading one back, and the NUL-joined key that the expansion
 * set and the tree use to identify a path.
 */
module JsonPath {
  import opened Options
  import opened Strings
  import opened JsonValues

  datatype CopyFormat = JsonPathFormat | JqFormat | JsFormat

  // ---------------------------------------------------------------------------
  // Rendering
  // ---------------------------------------------------------------------------

  function JsonPathSegment(seg: string): string {
    if IsAllDigits(seg) then "[" + seg + "]"
    else if IsIdentifier(seg) then "." + seg
    else "['" + EscapeChar(seg, '\'') + "']"
  }

  function JqSegment(seg: string): string {
    if IsAllDigits(seg) then "[" + seg + "]"
    else if IsIdentifier(seg) then seg
    else "[\"" + EscapeChar(seg, '"') + "\"]"
  }

  function JsSegment(seg: string): string {
    if IsAllDigits(seg) then "[" + seg + "]"
    else if IsIdentifier(seg) then "." + seg
    else "[\"" + EscapeChar(seg, '"') + "\"]"
  }

  function ConcatJsonPath(path: Path): string {
    if path == [] then "" else JsonPathSegment(path[0]) + ConcatJsonPath(path[1..])
  }

  function ConcatJs(path: Path): string {
    if path == [] then "" else JsSegment(path[0]) + ConcatJs(path[1..])
  }

  function MapJq(path: Path): (r: seq<string>)
    ensures |r| == |path| && forall i :: 0 <= i < |path| ==> r[i] == JqSegment(path[i])
  {
    if path == [] then [] else [JqSegment(path[0])] + MapJq(path[1..])
  }

  /** `s.replace(/\.\[/g, "[")`: every "." directly before "[" is dropped, scanning left to right. */
  function DropDotBeforeBracket(s: string): string
    decreases |s|
  {
    if |s| >= 2 && s[0] == '.' && s[1] == '[' then "[" + DropDotBeforeBracket(s[2..])
    else if s == [] then []
    else [s[0]] + DropDotBeforeBracket(s[1..])
  }

  function FormatJsonPath(path: Path): string {
    "$" + ConcatJsonPath(path)
  }

  /** The replace applies to the joined segments only, not to the leading ".". */
  function FormatJqPath(path: Path): string {
    if |path| == 0 then "." else "." + DropDotBeforeBracket(Join(MapJq(path), "."))
  }

  function FormatJsPath(path: Path): string {
    "data" + ConcatJs(path)
  }

  /** `formatPath(path, format)`. */
  function FormatPath(path: Path, format: CopyFormat): (r: string)
    ensures path == [] ==> r == (match format
                                 case JsonPathFormat => "$"
                                 case JqFormat => "."
                                 case JsFormat => "data")
  {
    if |path| == 0 then
      match format
      case JsonPathFormat => "$"
      case JqFormat => "."
      case JsFormat => "data"
    else
      match format
      case JsonPathFormat => FormatJsonPath(path)
      case JqFormat => FormatJqPath(path)
      case JsFormat => FormatJsPath(path)
  }

  /** An all-digit segment renders as `[seg]` in all three formats. */
  lemma {:induction false} DigitSegmentRendering(seg: string, rest: Path)
    requires IsAllDigits(seg)
    ensures FormatPath([seg] + rest, JsonPathFormat) == "$[" + seg + "]" + ConcatJsonPath(rest)
    ensures FormatPath([seg] + rest, JsFormat) == "data[" + seg + "]" + ConcatJs(rest)
    ensures JqSegment(seg) == "[" + seg + "]"
  {
    var p := [seg] + rest;
    var b := "[" + seg + "]";
    assert p[0] == seg && p[1..] == rest;
    assert FormatPath(p, JsonPathFormat) == "$[" + seg + "]" + ConcatJsonPath(rest) by {
      assert ConcatJsonPath(p) == b + ConcatJsonPath(rest);
      AppendAssoc("$", b, ConcatJsonPath(rest));
      assert "$" + b == "$[" + seg + "]";
    }
    assert FormatPath(p, JsFormat) == "data[" + seg + "]" + ConcatJs(rest) by {
      assert ConcatJs(p) == b + ConcatJs(rest);
      AppendAssoc("data", b, ConcatJs(rest));
      assert "data" + b == "data[" + seg + "]";
    }
  }

  /** An identifier renders as `.seg` (JSONPath, JS) or bare (jq); anything else is bracket-quoted with the quote escaped. */
  lemma {:induction false} NamedSegmentRendering(seg: string)
    requires !IsAllDigits(seg)
    ensures IsIdentifier(seg) ==> JsonPathSegment(seg) == "." + seg && JsSegment(seg) == "." + seg && JqSegment(seg) == seg
    ensures !IsIdentifier(seg) ==> JsonPathSegment(seg) == "['" + EscapeChar(seg, '\'') + "']"
    ensures !IsIdentifier(seg) ==> JsSegment(seg) == "[\"" + EscapeChar(seg, '"') + "\"]"
    ensures !IsIdentifier(seg) ==> JqSegment(seg) == "[\"" + EscapeChar(seg, '"') + "\"]"
  {
  }

  /** In jq form a leading index keeps the leading dot. */
  lemma JqLeadingIndex()
    ensures FormatPath(["0"], JqFormat) == ".[0]"
  {
    assert IsAllDigits("0");
    assert JqSegment("0") == "[0]";
    assert MapJq(["0"]) == ["[0]"];
    assert DropDotBeforeBracket("[0]") == "[0]";
  }

  /** In jq form an index after a key loses the joining dot. */
  lemma JqIndexAfterKey()
    ensures FormatPath(["a", "0"], JqFormat) == ".a[0]"
  {
    assert IsAllDigits("0") && IsIdentifier("a") && !IsAllDigits("a");
    assert JqSegment("0") == "[0]" && JqSegment("a") == "a";
    assert MapJq(["a", "0"]) == ["a", "[0]"];
    assert Join(["a", "[0]"], ".") == "a.[0]";
    assert DropDotBeforeBracket("a.[0]") == "a[0]";
  }

  // ---------------------------------------------------------------------------
  // Parsing (parsePath)
  // ---------------------------------------------------------------------------

  /** `replace(/^(\$|\.?data|\.)/, "")`: the alternatives are tried in order. */
  function StripPrefix(s: string): (r: string)
    ensures |r| <= |s|
  {
    if |s| > 0 && s[0] == '$' then s[1..]
    else if IsPrefix(".data", s) then s[5..]
    else if IsPrefix("data", s) then s[4..]
    else if |s| > 0 && s[0] == '.' then s[1..]
    else s
  }

  function IdentRun(s: string): (n: nat)
    ensures n <= |s|
    ensures forall i :: 0 <= i < n ==> IsIdentPart(s[i])
    ensures n < |s| ==> !IsIdentPart(s[n])
  {
    if s != [] && IsIdentPart(s[0]) then 1 + IdentRun(s[1..]) else 0
  }

  function NonQuoteRun(s: string): (n: nat)
    ensures n <= |s|
  {
    if s != [] && s[0] != '"' && s[0] != '\'' then 1 + NonQuoteRun(s[1..]) else 0
  }

  predicate IsQuote(c: char) { c == '"' || c == '\'' }

  /** The first alternative of the segment pattern: `\.?([a-zA-Z_][a-zA-Z0-9_]*)`. */
  function MatchIdent(s: string): (r: Option<(string, nat)>)
    ensures r.Some? ==> 0 < r.value.1 <= |s|
  {
    var j := if |s| > 0 && s[0] == '.' then 1 else 0;
    if j < |s| && IsIdentStart(s[j]) then
      var n := IdentRun(s[j..]);
      Some((s[j..j + n], j + n))
    else None
  }

  /** The second alternative: `\[(\d+)\]`. */
  function MatchIndex(s: string): (r: Option<(string, nat)>)
    ensures r.Some? ==> 0 < r.value.1 <= |s|
  {
    if |s| > 0 && s[0] == '[' then
      var d := LeadingDigits(s[1..], 10);
      if d > 0 && 1 + d < |s| && s[1 + d] == ']' then Some((s[1..1 + d], d + 2)) else None
    else None
  }

  /** The third alternative: `\[["']([^"']+)["']\]`. */
  function MatchQuoted(s: string): (r: Option<(string, nat)>)
    ensures r.Some? ==> 0 < r.value.1 <= |s|
  {
    if |s| > 1 && s[0] == '[' && IsQuote(s[1]) then
      var q := NonQuoteRun(s[2..]);
      var k := 2 + q;
      if q > 0 && k + 1 < |s| && IsQuote(s[k]) && s[k + 1] == ']' then Some((s[2..k], k + 2)) else None
    else None
  }

  /** One attempt of the segment pattern at the start of `s`: the captured segment and the length matched. */
  function MatchHere(s: string): (r: Option<(string, nat)>)
    ensures r.Some? ==> 0 < r.value.1 <= |s|
  {
    if MatchIdent(s).Some? then MatchIdent(s)
    else if MatchIndex(s).Some? then MatchIndex(s)
    else MatchQuoted(s)
  }

  /** `regex.exec`: the first match in `s`, with the offset where it ends. */
  function Exec(s: string): (r: Option<(string, nat)>)
    ensures r.Some? ==> 0 < r.value.1 <= |s|
  {
    if s == [] then None
    else match MatchHere(s)
      case Some(m) => Some(m)
      case None =>
        match Exec(s[1..])
        case None => None
        case Some((seg, e)) => Some((seg, e + 1))
  }

  /** The segments the exec loop collects: each match, then the matches after its end. */
  function Segments(s: string): seq<string>
    decreases |s|
  {
    match Exec(s)
    case None => []
    case Some((seg, e)) => [seg] + Segments(s[e..])
  }

  /** `parsePath(pathStr)`: strip the prefix, then collect every match of the segment pattern. */
  method ParsePath(pathStr: string) returns (path: Path)
    ensures path == Segments(StripPrefix(pathStr))
  {
    path := CollectSegments(StripPrefix(pathStr));
  }

  /**
   * The exec loop of `parsePath`: resume the pattern where the last match ended until it
   * fails. `rest` is the text from the regex's `lastIndex` on.
   */
  method CollectSegments(str: string) returns (path: Path)
    ensures path == Segments(str)
  {
    path := [];
    var rest := str;
    while true
      invariant path + Segments(rest) == Segments(str)
      decreases |rest|
    {
      var m := Exec(rest);
      if m.None? {
        break;
      }
      SegmentsStep(rest, path);
      path := path + [m.value.0];
      rest := rest[m.value.1..];
    }
    assert path + [] == path;
  }

  /** One round of the exec loop: the match at the front of `rest` joins the collected segments. */
  lemma {:induction false} SegmentsStep(rest: string, path: Path)
    requires Exec(rest).Some?
    ensures (path + [Exec(rest).value.0]) + Segments(rest[Exec(rest).value.1..]) == path + Segments(rest)
  {
    var seg, e := Exec(rest).value.0, Exec(rest).value.1;
    AppendAssoc(path, [seg], Segments(rest[e..]));
  }

  /** The text after a rendered segment: nothing, or another rendered segment. */
  predicate StartsSegment(t: string) {
    t == [] || t[0] == '.' || t[0] == '['
  }

  lemma {:induction false} IdentRunConcat(x: string, t: string)
    requires forall i :: 0 <= i < |x| ==> IsIdentPart(x[i])
    requires StartsSegment(t)
    ensures IdentRun(x + t) == |x|
  {
    if x != [] {
      assert (x + t)[1..] == x[1..] + t;
      IdentRunConcat(x[1..], t);
    }
  }

  lemma {:induction false} LeadingDigitsConcat(x: string, t: string)
    requires forall i :: 0 <= i < |x| ==> IsDigit(x[i])
    requires t != [] && t[0] == ']'
    ensures LeadingDigits(x + t, 10) == |x|
  {
    if x != [] {
      assert (x + t)[1..] == x[1..] + t;
      LeadingDigitsConcat(x[1..], t);
    }
  }

  /** A rendered index segment followed by another rendered segment is matched whole. */
  lemma {:induction false} MatchRenderedIndex(seg: string, t: string)
    requires IsAllDigits(seg)
    requires StartsSegment(t)
    ensures MatchHere(JsonPathSegment(seg) + t) == Some((seg, |seg| + 2))
  {
    var s := JsonPathSegment(seg) + t;
    var u := seg + ("]" + t);
    assert s == "[" + u by {
      assert JsonPathSegment(seg) == "[" + seg + "]";
      AppendAssoc("[", seg, "]");
      AppendAssoc("[", seg + "]", t);
      AppendAssoc(seg, "]", t);
    }
    assert MatchIdent(s) == None by {
      assert s[0] == '[';
    }
    assert MatchIndex(s) == Some((seg, |seg| + 2)) by {
      assert s[0] == '[' && s[1..] == u;
      LeadingDigitsConcat(seg, "]" + t);
      assert u[|seg|] == ']' && u[..|seg|] == seg;
      assert s[1 + |seg|] == ']' && s[1..1 + |seg|] == seg;
    }
  }

  /** A rendered identifier segment followed by another rendered segment is matched whole. */
  lemma {:induction false} MatchRenderedIdent(seg: string, t: string)
    requires IsIdentifier(seg) && !IsAllDigits(seg)
    requires StartsSegment(t)
    ensures MatchHere(JsonPathSegment(seg) + t) == Some((seg, |seg| + 1))
  {
    var s := JsonPathSegment(seg) + t;
    var u := seg + t;
    assert s == "." + u by {
      assert JsonPathSegment(seg) == "." + seg;
      AppendAssoc(".", seg, t);
    }
    assert MatchIdent(s) == Some((seg, |seg| + 1)) by {
      assert s[0] == '.' && s[1..] == u && s[1] == seg[0];
      IdentRunConcat(seg, t);
      assert s[1..1 + |seg|] == seg;
    }
  }

  lemma {:induction false} MatchRendered(seg: string, t: string)
    requires IsAllDigits(seg) || IsIdentifier(seg)
    requires StartsSegment(t)
    ensures MatchHere(JsonPathSegment(seg) + t) == Some((seg, |JsonPathSegment(seg)|))
  {
    if IsAllDigits(seg) {
      MatchRenderedIndex(seg, t);
    } else {
      MatchRenderedIdent(seg, t);
    }
  }

  lemma {:induction false} ConcatStartsSegment(path: Path)
    ensures StartsSegment(ConcatJsonPath(path))
  {
    if path != [] {
      var seg := path[0];
      assert JsonPathSegment(seg)[0] == '.' || JsonPathSegment(seg)[0] == '[';
    }
  }

  predicate PlainPath(path: Path) {
    forall i :: 0 <= i < |path| ==> IsAllDigits(path[i]) || IsIdentifier(path[i])
  }

  lemma {:induction false} SegmentsOfConcat(path: Path)
    requires PlainPath(path)
    ensures Segments(ConcatJsonPath(path)) == path
  {
    if path != [] {
      var seg, rest := path[0], path[1..];
      var r, t := JsonPathSegment(seg), ConcatJsonPath(rest);
      ConcatStartsSegment(rest);
      MatchRendered(seg, t);
      assert (r + t)[|r|..] == t;
      SegmentsOfConcat(rest);
    }
  }

  /** Reading back a rendered JSONPath gives the path, when every segment is an index or an identifier. */
  lemma {:induction false} ParseFormatJsonPath(path: Path)
    requires PlainPath(path)
    ensures Segments(StripPrefix(FormatPath(path, JsonPathFormat))) == path
  {
    if path == [] {
      assert StripPrefix("$") == "";
    } else {
      assert StripPrefix(FormatJsonPath(path)) == ConcatJsonPath(path);
      SegmentsOfConcat(path);
    }
  }

  /** The jq rendering of `["data"]` is ".data", which parsePath strips to nothing. */
  lemma JqDataLost()
    ensures FormatPath(["data"], JqFormat) == ".data"
    ensures Segments(StripPrefix(".data")) == []
  {
    assert IsIdentifier("data") && !IsAllDigits("data");
    assert MapJq(["data"]) == ["data"];
    assert DropDotBeforeBracket("a") == "a";
    assert DropDotBeforeBracket("ta") == "ta";
    assert DropDotBeforeBracket("ata") == "ata";
    assert DropDotBeforeBracket("data") == "data";
    assert StripPrefix(".data") == "";
  }

  // ---------------------------------------------------------------------------
  // Set keys (pathToKey / keyToPath)
  // ---------------------------------------------------------------------------

  const NUL: char := '\0'

  /** `pathToKey`: the segments joined by NUL. */
  function PathToKey(path: Path): string {
    Join(path, [NUL])
  }

  /** `keyToPath`: the empty key is the root; otherwise split on NUL. */
  function KeyToPath(key: string): Path {
    if key == "" then [] else Split(key, NUL)
  }

  predicate NulFree(path: Path) {
    forall i :: 0 <= i < |path| ==> NUL !in path[i]
  }

  /** The key of a NUL-free path other than `[""]` reads back as that path. */
  lemma {:induction false} KeyRoundTrip(path: Path)
    requires NulFree(path) && path != [""]
    ensures KeyToPath(PathToKey(path)) == path
  {
    if path != [] {
      if PathToKey(path) == "" {
        JoinEmpty(path, NUL);
      }
      SplitJoin(path, NUL);
    }
  }

  /** The root and the one-empty-segment path share the key "". */
  lemma {:induction false} KeyCollision()
    ensures PathToKey([]) == "" && PathToKey([""]) == ""
  {
  }

  /** A proper prefix never has the key of the whole path, except for `[""]` and its root. */
  lemma {:induction false} PrefixKeyDiffers(path: Path, i: nat)
    requires i < |path| && path != [""]
    ensures PathToKey(path[..i]) != PathToKey(path)
  {
    if i == 0 {
      if PathToKey(path) == "" {
        JoinEmpty(path, NUL);
      }
    } else {
      JoinPrefixShorter(path, i, NUL);
    }
  }
}
