/**
 * The JavaScript-object-notation to JSON text transform: eight regular-expression passes
 * (comments, unquoted keys, single quotes, trailing commas, `undefined`, `NaN`,
 * `Infinity`), the bookkeeping of what each pass changed, and the quick test of whether a
 * text needs transforming at all. Each regular expression is modelled by a matcher
 * anchored at the start of the remaining text, and a global `replace` by a left-to-right
 * scan that resumes after each match. `JSON.parse` is an input.
 */
module JsonTransform {
  import opened Options
  import opened Strings
  import opened Sequences
  import opened JsonValues

  // ---------------------------------------------------------------------------------------
  // Matchers
  // ---------------------------------------------------------------------------------------

  /** A match at the start of the remaining text: how much it covers and what replaces it. */
  datatype Match = Match(length: nat, replacement: string)

  /** The regular expressions of the transform and of the test. */
  datatype Pattern =
    | SingleLineComment  // `\/\/[^\n]*`
    | MultiLineComment   // `\/\*[\s\S]*?\*\/`
    | UnquotedKey        // `([{,]\s*)([a-zA-Z_$][a-zA-Z0-9_$]*)\s*:`
    | SingleQuotedValue  // `:\s*'([^'\\]*(?:\\.[^'\\]*)*)'`
    | SingleQuotedKey    // `([{,]\s*)'([^'\\]*(?:\\.[^'\\]*)*)'\s*:`
    | TrailingComma      // `,(\s*[}\]])`
    | UndefinedValue     // `:\s*undefined\b`
    | NaNValue           // `:\s*NaN\b`
    | InfinityValue      // `:\s*-?Infinity\b`
    | CommentOpener      // `\/\/|\/\*`
    | QuotePair          // `'[^']*'`

  /** Length of the leading run of `\s`. */
  function SpaceRun(t: string): (n: nat)
    ensures n <= |t|
  {
    if t != [] && IsJsSpace(t[0]) then 1 + SpaceRun(t[1..]) else 0
  }

  /** Length of the leading run of `[^\n]`. */
  function LineRun(t: string): (n: nat)
    ensures n <= |t|
  {
    if t != [] && t[0] != '\n' then 1 + LineRun(t[1..]) else 0
  }

  predicate IsKeyStart(c: char) { 'a' <= c <= 'z' || 'A' <= c <= 'Z' || c == '_' || c == '$' }

  predicate IsKeyPart(c: char) { IsKeyStart(c) || '0' <= c <= '9' }

  /** `\w`: the characters on one side of a `\b` boundary. */
  predicate IsWordChar(c: char) { 'a' <= c <= 'z' || 'A' <= c <= 'Z' || '0' <= c <= '9' || c == '_' }

  /** Length of the leading run of `[a-zA-Z0-9_$]`. */
  function KeyRun(t: string): (n: nat)
    ensures n <= |t|
  {
    if t != [] && IsKeyPart(t[0]) then 1 + KeyRun(t[1..]) else 0
  }

  // Where the first star-slash of `t` starts: the lazy `[\s\S]*?` stops at the first close.
  function CommentClose(t: string): (r: Option<nat>)
    ensures r.Some? ==> r.value + 2 <= |t|
  {
    if |t| < 2 then None
    else if t[0] == '*' && t[1] == '/' then Some(0)
    else match CommentClose(t[1..])
      case None => None
      case Some(j) => Some(j + 1)
  }

  /**
   * The body `[^'\\]*(?:\\.[^'\\]*)*` followed by the closing `'`: the length of the body,
   * which ends at the first quote not escaped by a backslash; a backslash before a line
   * terminator or at the end, or no closing quote, fails.
   */
  function QuoteBody(t: string): (r: Option<nat>)
    ensures r.Some? ==> r.value < |t| && t[r.value] == '\''
  {
    if t == [] then None
    else if t[0] == '\'' then Some(0)
    else if t[0] == '\\' then
      if |t| >= 2 && !IsLineTerminator(t[1]) then
        match QuoteBody(t[2..])
        case None => None
        case Some(n) => Some(n + 2)
      else None
    else
      match QuoteBody(t[1..])
      case None => None
      case Some(n) => Some(n + 1)
  }

  predicate StartsWith(t: string, w: string) {
    |w| <= |t| && t[..|w|] == w
  }

  /** `:\s*` then `word` then `\b`, replaced by ": null". */
  function ColonWord(t: string, word: string, allowMinus: bool): (r: Option<Match>)
    requires word != []
    ensures r.Some? ==> 0 < r.value.length <= |t| && r.value.replacement == ": null"
  {
    if t == [] || t[0] != ':' then None
    else
      var p := 1 + SpaceRun(t[1..]);
      var q := if allowMinus && p < |t| && t[p] == '-' then p + 1 else p;
      var e := q + |word|;
      if StartsWith(t[q..], word) && (e == |t| || !IsWordChar(t[e])) then Some(Match(e, ": null"))
      else None
  }

  /** `[{,]\s*` at the start of `t`: where what follows it begins, or 0 when `t` does not start with `{` or `,`. */
  function KeyPrefix(t: string): (p: nat)
    ensures p <= |t|
  {
    if t != [] && (t[0] == '{' || t[0] == ',') then 1 + SpaceRun(t[1..]) else 0
  }

  /** `\s*:` at position `q` of `t`: the end of the match, or None. */
  function ColonAfter(t: string, q: nat): (r: Option<nat>)
    requires q <= |t|
    ensures r.Some? ==> q < r.value <= |t|
  {
    var c := q + SpaceRun(t[q..]);
    if c < |t| && t[c] == ':' then Some(c + 1) else None
  }

  /** The match of `pattern` at the start of `t`, with what the transform replaces it by. */
  function MatchAt(pattern: Pattern, t: string): (r: Option<Match>)
    ensures r.Some? ==> 0 < r.value.length <= |t|
  {
    match pattern
    case SingleLineComment =>
      if StartsWith(t, "//") then Some(Match(2 + LineRun(t[2..]), "")) else None
    case MultiLineComment =>
      if StartsWith(t, "/*") then
        match CommentClose(t[2..])
        case None => None
        case Some(j) => Some(Match(j + 4, ""))
      else None
    case UnquotedKey =>
      var p := KeyPrefix(t);
      if p > 0 && p < |t| && IsKeyStart(t[p]) then
        var q := p + KeyRun(t[p..]);
        match ColonAfter(t, q)
        case None => None
        case Some(e) => Some(Match(e, t[..p] + "\"" + t[p..q] + "\":"))
      else None
    case SingleQuotedValue =>
      if t != [] && t[0] == ':' then
        var p := 1 + SpaceRun(t[1..]);
        if p < |t| && t[p] == '\'' then
          match QuoteBody(t[p + 1..])
          case None => None
          case Some(n) => Some(Match(p + n + 2, ": \"" + EscapeChar(t[p + 1..p + 1 + n], '"') + "\""))
        else None
      else None
    case SingleQuotedKey =>
      var p := KeyPrefix(t);
      if p > 0 && p < |t| && t[p] == '\'' then
        match QuoteBody(t[p + 1..])
        case None => None
        case Some(n) =>
          match ColonAfter(t, p + n + 2)
          case None => None
          case Some(e) => Some(Match(e, t[..p] + "\"" + t[p + 1..p + 1 + n] + "\":"))
      else None
    case TrailingComma =>
      if t != [] && t[0] == ',' then
        var p := 1 + SpaceRun(t[1..]);
        if p < |t| && (t[p] == '}' || t[p] == ']') then Some(Match(p + 1, t[1..p + 1])) else None
      else None
    case UndefinedValue => ColonWord(t, "undefined", false)
    case NaNValue => ColonWord(t, "NaN", false)
    case InfinityValue => ColonWord(t, "Infinity", true)
    case CommentOpener =>
      if StartsWith(t, "//") || StartsWith(t, "/*") then Some(Match(2, "")) else None
    case QuotePair =>
      if t != [] && t[0] == '\'' && '\'' in t[1..] then Some(Match(IndexOfChar(t[1..], '\'') + 2, "")) else None
  }

  // ---------------------------------------------------------------------------------------
  // Global replace and test
  // ---------------------------------------------------------------------------------------

  /** The text after a global replace and the number of matches replaced. */
  datatype Replaced = Replaced(text: string, count: nat)

  /** `s.replace(/pattern/g, …)`: leftmost matches, the scan resuming after each one. */
  function ReplaceAll(s: string, pattern: Pattern): (r: Replaced)
    ensures r.count <= |s|
    decreases |s|
  {
    if s == [] then Replaced([], 0)
    else match MatchAt(pattern, s)
      case Some(m) =>
        var rest := ReplaceAll(s[m.length..], pattern);
        Replaced(m.replacement + rest.text, rest.count + 1)
      case None =>
        var rest := ReplaceAll(s[1..], pattern);
        Replaced([s[0]] + rest.text, rest.count)
  }

  /** `/pattern/.test(s)`: a match starts somewhere in `s`. */
  predicate Found(s: string, pattern: Pattern)
    decreases |s|
  {
    s != [] && (MatchAt(pattern, s).Some? || Found(s[1..], pattern))
  }

  /** A replace with no match anywhere changes nothing. */
  lemma {:induction false} NotFoundUnchanged(s: string, pattern: Pattern)
    requires !Found(s, pattern)
    ensures ReplaceAll(s, pattern) == Replaced(s, 0)
    decreases |s|
  {
    if s != [] {
      NotFoundUnchanged(s[1..], pattern);
      assert [s[0]] + s[1..] == s;
    }
  }

  /** A replace that counts no match changes nothing. */
  lemma {:induction false} ZeroCountUnchanged(s: string, pattern: Pattern)
    requires ReplaceAll(s, pattern).count == 0
    ensures ReplaceAll(s, pattern).text == s
    decreases |s|
  {
    if s != [] && MatchAt(pattern, s).None? {
      ZeroCountUnchanged(s[1..], pattern);
      assert [s[0]] + s[1..] == s;
    }
  }

  /** A match in a suffix is a match in the whole text. */
  lemma {:induction false} FoundInSuffix(s: string, k: nat, pattern: Pattern)
    requires k <= |s| && Found(s[k..], pattern)
    ensures Found(s, pattern)
    decreases k
  {
    if k > 0 {
      assert s[1..][k - 1..] == s[k..];
      FoundInSuffix(s[1..], k - 1, pattern);
    }
  }

  /** When every match of `p` is preceded by, or is, a match of `q`, finding `p` finds `q`. */
  lemma {:induction false} FoundImplies(s: string, p: Pattern, q: Pattern)
    requires forall t :: MatchAt(p, t).Some? ==> Found(t, q)
    requires Found(s, p)
    ensures Found(s, q)
    decreases |s|
  {
    if MatchAt(p, s).None? {
      FoundImplies(s[1..], p, q);
      FoundInSuffix(s, 1, q);
    }
  }

  // ---------------------------------------------------------------------------------------
  // The passes
  // ---------------------------------------------------------------------------------------

  /** The `type` field of a change. */
  datatype ChangeKind = Keys | Quotes | Commas | Comments | Undefined | NaN | Infinity

  /**
   * A reported change: the pass that made it and how many replacements it counted. Its
   * `type` and `description` are those of the pass, `Kind(pass)` and `Description(pass)`.
   */
  datatype TransformChange = TransformChange(pass: Pass, count: nat)

  /** One numbered step of the transform. */
  datatype Pass =
    | SingleLineComments | MultiLineComments | UnquotedKeys | SingleQuotes
    | TrailingCommas | UndefinedValues | NaNValues | InfinityValues

  /** The `type` of the change a pass reports. */
  function Kind(pass: Pass): ChangeKind {
    match pass
    case SingleLineComments => Comments
    case MultiLineComments => Comments
    case UnquotedKeys => Keys
    case SingleQuotes => Quotes
    case TrailingCommas => Commas
    case UndefinedValues => Undefined
    case NaNValues => NaN
    case InfinityValues => Infinity
  }

  /** The `description` of the change a pass reports. */
  function Description(pass: Pass): string {
    match pass
    case SingleLineComments => "Removed single-line comments"
    case MultiLineComments => "Removed multi-line comments"
    case UnquotedKeys => "Added quotes to unquoted keys"
    case SingleQuotes => "Converted single quotes to double quotes"
    case TrailingCommas => "Removed trailing commas"
    case UndefinedValues => "Converted undefined to null"
    case NaNValues => "Converted NaN to null"
    case InfinityValues => "Converted Infinity to null"
  }

  /** The regular expressions a pass replaces, in order. */
  function Patterns(pass: Pass): seq<Pattern> {
    match pass
    case SingleLineComments => [SingleLineComment]
    case MultiLineComments => [MultiLineComment]
    case UnquotedKeys => [UnquotedKey]
    case SingleQuotes => [SingleQuotedValue, SingleQuotedKey]
    case TrailingCommas => [TrailingComma]
    case UndefinedValues => [UndefinedValue]
    case NaNValues => [NaNValue]
    case InfinityValues => [InfinityValue]
  }

  /** The eight passes, in the order they run. */
  const Passes: seq<Pass> := [
    SingleLineComments, MultiLineComments, UnquotedKeys, SingleQuotes,
    TrailingCommas, UndefinedValues, NaNValues, InfinityValues
  ]

  /** The replaces of one pass, each on the previous one's output, their counts added up. */
  function ApplyPatterns(patterns: seq<Pattern>, s: string): (r: Replaced)
    decreases |patterns|
  {
    if patterns == [] then Replaced(s, 0)
    else
      var first := ReplaceAll(s, patterns[0]);
      var rest := ApplyPatterns(patterns[1..], first.text);
      Replaced(rest.text, first.count + rest.count)
  }

  /** The text after some passes and the changes they reported. */
  datatype Outcome = Outcome(text: string, changes: seq<TransformChange>)

  /** One pass on an outcome: its text replaced, a change appended when it matched anything. */
  function Step(o: Outcome, pass: Pass): Outcome {
    var r := ApplyPatterns(Patterns(pass), o.text);
    Outcome(r.text, o.changes + if r.count > 0 then [TransformChange(pass, r.count)] else [])
  }

  /** The passes run in order from `s`. */
  function Run(passes: seq<Pass>, s: string): (o: Outcome)
    decreases |passes|
  {
    if passes == [] then Outcome(s, [])
    else Step(Run(passes[..|passes| - 1], s), passes[|passes| - 1])
  }

  function Descriptions(changes: seq<TransformChange>): (ds: seq<string>)
    ensures |ds| == |changes|
  {
    if changes == [] then [] else Descriptions(changes[..|changes| - 1]) + [Description(changes[|changes| - 1].pass)]
  }

  function PassDescriptions(passes: seq<Pass>): (ds: seq<string>)
    ensures |ds| == |passes|
  {
    if passes == [] then [] else PassDescriptions(passes[..|passes| - 1]) + [Description(passes[|passes| - 1])]
  }

  /**
   * Every reported change counts at least one replacement, and the changes follow the
   * passes: their descriptions are a subsequence of the passes' descriptions.
   */
  lemma {:induction false} RunChangesFollowPasses(passes: seq<Pass>, s: string)
    ensures forall i :: 0 <= i < |Run(passes, s).changes| ==> Run(passes, s).changes[i].count > 0
    ensures IsSubsequence(Descriptions(Run(passes, s).changes), PassDescriptions(passes))
    decreases |passes|
  {
    if passes == [] {
    } else {
      var front := passes[..|passes| - 1];
      var last := passes[|passes| - 1];
      var o := Run(front, s);
      RunChangesFollowPasses(front, s);
      var r := ApplyPatterns(Patterns(last), o.text);
      assert PassDescriptions(passes) == PassDescriptions(front) + [Description(last)];
      if r.count > 0 {
        var c := TransformChange(last, r.count);
        assert Run(passes, s).changes == o.changes + [c];
        assert (o.changes + [c])[..|o.changes|] == o.changes;
        assert Descriptions(o.changes + [c]) == Descriptions(o.changes) + [Description(last)];
        SubsequenceAppend(Descriptions(o.changes), PassDescriptions(front), Description(last));
      } else {
        assert Run(passes, s).changes == o.changes;
        SubsequenceExtend(Descriptions(o.changes), PassDescriptions(front), Description(last));
      }
    }
  }

  /** The eight passes report different descriptions, so the transform reports at most one change per pass, in pass order. */
  lemma PassDescriptionsDistinct()
    ensures forall i, j :: 0 <= i < j < |Passes| ==> Description(Passes[i]) != Description(Passes[j])
  {
  }

  /** Running the passes one more: `Run` on a prefix one longer is one more `Step`. */
  lemma RunPrefix(passes: seq<Pass>, k: nat, s: string)
    requires k < |passes|
    ensures Run(passes[..k + 1], s) == Step(Run(passes[..k], s), passes[k])
  {
    assert passes[..k + 1][..k] == passes[..k];
  }

  /** A pass with one regular expression is that replace. */
  lemma OnePattern(p: Pattern, s: string)
    ensures ApplyPatterns([p], s) == ReplaceAll(s, p)
  {
    assert [p][1..] == [];
  }

  /** The quote pass is the value replace followed by the key replace. */
  lemma TwoPatterns(p: Pattern, q: Pattern, s: string)
    ensures ApplyPatterns([p, q], s).text == ReplaceAll(ReplaceAll(s, p).text, q).text
    ensures ApplyPatterns([p, q], s).count == ReplaceAll(s, p).count + ReplaceAll(ReplaceAll(s, p).text, q).count
  {
    assert [p, q][1..] == [q];
    OnePattern(q, ReplaceAll(s, p).text);
  }

  // ---------------------------------------------------------------------------------------
  // transformJson
  // ---------------------------------------------------------------------------------------

  /** What `JSON.parse` does with the transformed text: a value, or the message it throws. */
  datatype ParseResult = Parsed(value: Json) | ParseFailed(message: string)

  datatype TransformResult = TransformResult(
    original: string,
    transformed: string,
    parsed: Option<Json>,
    error: Option<string>,
    changes: seq<TransformChange>,
    isValid: bool,
    wasTransformed: bool)

  /** The eight passes, one `Step` after another. */
  lemma RunAsSteps(s: string)
    ensures Run(Passes, s)
         == Step(Step(Step(Step(Step(Step(Step(Step(Outcome(s, []),
              SingleLineComments), MultiLineComments), UnquotedKeys), SingleQuotes),
              TrailingCommas), UndefinedValues), NaNValues), InfinityValues)
  {
    assert Passes[..0] == [];
    RunPrefix(Passes, 0, s);
    RunPrefix(Passes, 1, s);
    RunPrefix(Passes, 2, s);
    RunPrefix(Passes, 3, s);
    RunPrefix(Passes, 4, s);
    RunPrefix(Passes, 5, s);
    RunPrefix(Passes, 6, s);
    RunPrefix(Passes, 7, s);
    assert Passes[..8] == Passes;
  }

  /** A single-replace pass as `transformJson` writes it: replace only when something matched. */
  method SimplePass(pass: Pass, transformed: string, changes: seq<TransformChange>)
    returns (transformed': string, changes': seq<TransformChange>)
    requires pass != SingleQuotes
    ensures Outcome(transformed', changes') == Step(Outcome(transformed, changes), pass)
  {
    var pattern := Patterns(pass)[0];
    var r := ReplaceAll(transformed, pattern);
    transformed', changes' := transformed, changes;
    if r.count > 0 {
      transformed' := r.text;
      changes' := changes + [TransformChange(pass, r.count)];
    } else {
      ZeroCountUnchanged(transformed, pattern);
    }
    assert Patterns(pass) == [pattern];
    OnePattern(pattern, transformed);
  }

  /** The quote pass: both replaces always run, and one change counts the matches of both. */
  method QuotePass(transformed: string, changes: seq<TransformChange>)
    returns (transformed': string, changes': seq<TransformChange>)
    ensures Outcome(transformed', changes') == Step(Outcome(transformed, changes), SingleQuotes)
  {
    var singleQuoteCount := 0;
    var values := ReplaceAll(transformed, SingleQuotedValue);
    singleQuoteCount := singleQuoteCount + values.count;
    var keys := ReplaceAll(values.text, SingleQuotedKey);
    singleQuoteCount := singleQuoteCount + keys.count;
    transformed' := keys.text;
    changes' := changes;
    if singleQuoteCount > 0 {
      changes' := changes + [TransformChange(SingleQuotes, singleQuoteCount)];
    }
    TwoPatterns(SingleQuotedValue, SingleQuotedKey, transformed);
  }

  /** The eight passes of `transformJson`, in order, from `input`. */
  method TransformText(input: string) returns (transformed: string, changes: seq<TransformChange>)
    ensures Outcome(transformed, changes) == Run(Passes, input)
  {
    transformed := input;
    changes := [];
    // 1. single-line comments, 2. multi-line comments, 3. unquoted keys
    transformed, changes := SimplePass(SingleLineComments, transformed, changes);
    transformed, changes := SimplePass(MultiLineComments, transformed, changes);
    transformed, changes := SimplePass(UnquotedKeys, transformed, changes);
    // 4. single-quoted values, then single-quoted keys, one count for both
    transformed, changes := QuotePass(transformed, changes);
    // 5. trailing commas, 6. undefined, 7. NaN, 8. Infinity
    transformed, changes := SimplePass(TrailingCommas, transformed, changes);
    transformed, changes := SimplePass(UndefinedValues, transformed, changes);
    transformed, changes := SimplePass(NaNValues, transformed, changes);
    transformed, changes := SimplePass(InfinityValues, transformed, changes);
    RunAsSteps(input);
  }

  /**
   * `transformJson(input)`: the eight passes, then `JSON.parse` (`parse`) on the result.
   * `isValid` is `parsed !== null`, so a text that parses to `null` is reported invalid
   * with no error.
   */
  method TransformJson(input: string, parse: string -> ParseResult) returns (result: TransformResult)
    ensures result.original == input
    ensures Outcome(result.transformed, result.changes) == Run(Passes, input)
    ensures result.wasTransformed <==> result.changes != []
    ensures result.isValid <==> result.parsed.Some?
    ensures result.parsed.Some? <==> parse(result.transformed).Parsed? && parse(result.transformed).value != Null
    ensures result.parsed.Some? ==> result.parsed.value == parse(result.transformed).value
    ensures result.error.Some? <==> parse(result.transformed).ParseFailed?
  {
    var transformed, changes := TransformText(input);
    var parsed: Option<Json> := None;
    var error: Option<string> := None;
    match parse(transformed) {
      case Parsed(v) => parsed := if v == Null then None else Some(v);
      case ParseFailed(message) => error := Some(message);
    }
    result := TransformResult(input, transformed, parsed, error, changes, parsed.Some?, |changes| > 0);
  }

  // ---------------------------------------------------------------------------------------
  // needsTransformation
  // ---------------------------------------------------------------------------------------

  /** `needsTransformation(input)`: any of the seven quick tests finds a match. */
  predicate NeedsTransformation(s: string) {
    Found(s, CommentOpener) || Found(s, UnquotedKey) || Found(s, QuotePair) || Found(s, TrailingComma)
    || Found(s, UndefinedValue) || Found(s, NaNValue) || Found(s, InfinityValue)
  }

  /** A quoted body contains its closing quote, so a single-quoted match holds a pair of apostrophes. */
  lemma QuotedHasPair(t: string, p: nat)
    requires p < |t| && t[p] == '\'' && QuoteBody(t[p + 1..]).Some?
    ensures Found(t, QuotePair)
  {
    var n := QuoteBody(t[p + 1..]).value;
    assert t[p..][1..][n] == '\'';
    assert MatchAt(QuotePair, t[p..]).Some?;
    FoundInSuffix(t, p, QuotePair);
  }

  /** Every pattern the transform replaces is caught by one of the quick tests. */
  lemma {:induction false} FoundNeeds(s: string, p: Pattern)
    requires Found(s, p)
    ensures NeedsTransformation(s)
  {
    match p
    case SingleLineComment =>
      FoundImplies(s, SingleLineComment, CommentOpener);
    case MultiLineComment =>
      FoundImplies(s, MultiLineComment, CommentOpener);
    case SingleQuotedValue =>
      forall t | MatchAt(SingleQuotedValue, t).Some?
        ensures Found(t, QuotePair)
      {
        QuotedHasPair(t, 1 + SpaceRun(t[1..]));
      }
      FoundImplies(s, SingleQuotedValue, QuotePair);
    case SingleQuotedKey =>
      forall t | MatchAt(SingleQuotedKey, t).Some?
        ensures Found(t, QuotePair)
      {
        QuotedHasPair(t, KeyPrefix(t));
      }
      FoundImplies(s, SingleQuotedKey, QuotePair);
    case _ =>
  }

  /** A text no quick test flags comes out of the transform unchanged, with no change reported. */
  lemma NoNeedNoChange(s: string)
    requires !NeedsTransformation(s)
    ensures Run(Passes, s) == Outcome(s, [])
  {
    forall k, j | 0 <= k < |Passes| && 0 <= j < |Patterns(Passes[k])|
      ensures !Found(s, Patterns(Passes[k])[j])
    {
      if Found(s, Patterns(Passes[k])[j]) {
        FoundNeeds(s, Patterns(Passes[k])[j]);
      }
    }
    UntouchedRun(Passes, s);
  }

  /** Passes none of whose patterns matches leave the text alone and report nothing. */
  lemma {:induction false} UntouchedRun(passes: seq<Pass>, s: string)
    requires forall k, j :: 0 <= k < |passes| && 0 <= j < |Patterns(passes[k])| ==> !Found(s, Patterns(passes[k])[j])
    ensures Run(passes, s) == Outcome(s, [])
    decreases |passes|
  {
    if passes != [] {
      UntouchedRun(passes[..|passes| - 1], s);
      UntouchedPatterns(Patterns(passes[|passes| - 1]), s);
    }
  }

  lemma {:induction false} UntouchedPatterns(patterns: seq<Pattern>, s: string)
    requires forall j :: 0 <= j < |patterns| ==> !Found(s, patterns[j])
    ensures ApplyPatterns(patterns, s) == Replaced(s, 0)
    decreases |patterns|
  {
    if patterns != [] {
      NotFoundUnchanged(s, patterns[0]);
      UntouchedPatterns(patterns[1..], s);
    }
  }

  /** The quote test fires exactly when the text holds two apostrophes, wherever they are. */
  lemma {:induction false} QuotePairIffTwoApostrophes(s: string)
    ensures Found(s, QuotePair) <==> CountChar(s, '\'') >= 2
    decreases |s|
  {
    if s != [] {
      QuotePairIffTwoApostrophes(s[1..]);
      assert s == [s[0]] + s[1..];
      CountCharConcat([s[0]], s[1..], '\'');
      assert CountChar([s[0]], '\'') == if s[0] == '\'' then 1 else 0 by {
        assert [s[0]][..0] == [];
      }
      CountPresent(s[1..], '\'');
    }
  }

  /** A character occurs in a text exactly when it is counted there. */
  lemma {:induction false} CountPresent(s: string, c: char)
    ensures c in s <==> CountChar(s, c) >= 1
    decreases |s|
  {
    if s != [] {
      CountPresent(s[..|s| - 1], c);
      assert s == s[..|s| - 1] + [s[|s| - 1]];
    }
  }

  // ---------------------------------------------------------------------------------------
  // What single passes do
  // ---------------------------------------------------------------------------------------

  /** A `//` inside a string literal is taken for a comment: the rest of the line goes. */
  lemma CommentInsideString()
    ensures ReplaceAll("\"a//b\"", SingleLineComment) == Replaced("\"a", 1)
  {
    var s := "\"a//b\"";
    assert MatchAt(SingleLineComment, s).None?;
    assert MatchAt(SingleLineComment, s[1..]).None?;
    assert s[2..] == "//b\"";
    assert LineRun("b\"") == 2;
    assert MatchAt(SingleLineComment, s[2..]) == Some(Match(4, ""));
    assert s[2..][4..] == [];
  }

  /** A trailing comma goes, the whitespace and bracket after it stay. */
  lemma TrailingCommaDropped()
    ensures ReplaceAll(", ]", TrailingComma) == Replaced(" ]", 1)
  {
    assert SpaceRun(" ]") == 1;
    assert ", ]"[3..] == [];
  }

  /** The comma pass is not idempotent: of two commas before a bracket only the second goes. */
  lemma DoubleCommaKeepsOne()
    ensures ReplaceAll(",,]", TrailingComma) == Replaced(",]", 1)
  {
    assert MatchAt(TrailingComma, ",,]").None? by {
      assert SpaceRun(",]") == 0;
    }
    assert ",,]"[1..] == ",]";
    assert SpaceRun("]") == 0;
    assert ",]"[2..] == [];
  }

  /** `: undefined` becomes `: null`, the whitespace after the colon normalised to one space. */
  lemma UndefinedBecomesNull()
    ensures ReplaceAll(":  undefined", UndefinedValue) == Replaced(": null", 1)
  {
    var t := ":  undefined";
    assert MatchAt(UndefinedValue, t) == Some(Match(12, ": null")) by {
      assert SpaceRun(t[1..]) == 2 by {
        assert t[1..] == "  undefined";
        assert "  undefined"[1..] == " undefined";
        assert " undefined"[1..] == "undefined";
        assert !IsJsSpace('u');
      }
      assert t[3..][..9] == "undefined";
    }
    assert t[12..] == [];
  }
  /** A minus sign before `Infinity` goes with it. */
  lemma NegativeInfinityBecomesNull()
    ensures ReplaceAll(":-Infinity", InfinityValue) == Replaced(": null", 1)
  {
    var t := ":-Infinity";
    assert MatchAt(InfinityValue, t) == Some(Match(10, ": null")) by {
      assert SpaceRun(t[1..]) == 0 by {
        assert !IsJsSpace('-');
      }
      assert t[2..][..8] == "Infinity";
    }
    assert t[10..] == [];
  }

  /** The word must end at a word boundary: `:NaNa` is left alone. */
  lemma NaNNeedsBoundary()
    ensures ReplaceAll(":NaNa", NaNValue) == Replaced(":NaNa", 0)
  {
    var t := ":NaNa";
    assert MatchAt(NaNValue, t).None? by {
      assert SpaceRun(t[1..]) == 0 by {
        assert !IsJsSpace('N');
      }
      assert IsWordChar(t[4]);
    }
    NotFoundUnchanged(t, NaNValue);
  }
}
