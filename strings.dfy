/**
 * The JavaScript string operations the viewer relies on, stated over `seq<char>`:
 * `trim`-style whitespace, ASCII case folding, `includes`, `split`/`join` on one
 * character, `String(n)` for non-negative integers, `parseInt` and the UTF-8 length
 * that `TextEncoder` and `Blob` report.
 */
module Strings {
  import opened Options

  /** The code points JavaScript treats as WhiteSpace or LineTerminator: what `trim` strips and `\s` matches. */
  predicate IsJsSpace(c: char) {
    c == ' ' || c == '\t' || c == '\n' || c == '\r' || c == '\U{B}' || c == '\U{C}'
    || c == '\U{A0}' || c == '\U{1680}' || ('\U{2000}' <= c <= '\U{200A}')
    || c == '\U{2028}' || c == '\U{2029}' || c == '\U{202F}' || c == '\U{205F}'
    || c == '\U{3000}' || c == '\U{FEFF}'
  }

  /** The characters after which a multiline-mode `^` matches. */
  predicate IsLineTerminator(c: char) {
    c == '\n' || c == '\r' || c == '\U{2028}' || c == '\U{2029}'
  }

  /** `!s.trim()`: the string is empty once whitespace is stripped. */
  predicate IsBlank(s: string) {
    forall i :: 0 <= i < |s| ==> IsJsSpace(s[i])
  }

  function TrimStart(s: string): (r: string)
    ensures |r| <= |s| && r == s[|s| - |r|..]
    ensures r == [] || !IsJsSpace(r[0])
  {
    if s != [] && IsJsSpace(s[0]) then TrimStart(s[1..]) else s
  }

  /** `toLowerCase`, restricted to ASCII letters. */
  function LowerChar(c: char): char {
    if 'A' <= c <= 'Z' then (c as int + 32) as char else c
  }

  function ToLower(s: string): string {
    seq(|s|, i requires 0 <= i < |s| => LowerChar(s[i]))
  }

  predicate IsPrefix(p: string, s: string) {
    |p| <= |s| && s[..|p|] == p
  }

  /** `s.includes(sub)`. */
  function Contains(s: string, sub: string): bool
    decreases |s|
  {
    if |sub| > |s| then false
    else if IsPrefix(sub, s) then true
    else Contains(s[1..], sub)
  }

  lemma {:induction false} ContainsEmpty(s: string)
    ensures Contains(s, "")
  {
  }

  /** Searching for one character is membership. */
  lemma {:induction false} ContainsChar(s: string, c: char)
    ensures Contains(s, [c]) <==> c in s
  {
    if s != [] {
      ContainsChar(s[1..], c);
      assert c in s <==> s[0] == c || c in s[1..];
    }
  }

  /** Concatenation regroups freely (used where the proof context is large). */
  lemma AppendAssoc<T>(a: seq<T>, b: seq<T>, c: seq<T>)
    ensures a + b + c == a + (b + c)
  {
  }

  lemma AppendAround<T>(front: seq<T>, a: T, m: seq<T>, b: T)
    ensures front + ([a] + m + [b]) == front + [a] + m + [b]
  {
    AppendAssoc(front, [a], m);
    AppendAssoc(front, [a] + m, [b]);
  }

  predicate IsDigit(c: char) { '0' <= c <= '9' }

  /** `/^\d+$/.test(s)`. */
  predicate IsAllDigits(s: string) {
    |s| > 0 && forall i :: 0 <= i < |s| ==> IsDigit(s[i])
  }

  predicate IsIdentStart(c: char) { 'a' <= c <= 'z' || 'A' <= c <= 'Z' || c == '_' }

  predicate IsIdentPart(c: char) { IsIdentStart(c) || IsDigit(c) }

  /** `/^[a-zA-Z_][a-zA-Z0-9_]*$/.test(s)`. */
  predicate IsIdentifier(s: string) {
    |s| > 0 && IsIdentStart(s[0]) && forall i :: 1 <= i < |s| ==> IsIdentPart(s[i])
  }

  function DigitChar(d: nat): char
    requires d < 10
  {
    ('0' as int + d) as char
  }

  /** `String(n)` for a non-negative integer. */
  function NatToString(n: nat): (r: string)
    ensures IsAllDigits(r)
    ensures n < 10 <==> |r| == 1
  {
    if n < 10 then [DigitChar(n)] else NatToString(n / 10) + [DigitChar(n % 10)]
  }

  /** Distinct array indices have distinct segment names. */
  lemma {:induction false} NatToStringInjective(m: nat, n: nat)
    requires NatToString(m) == NatToString(n)
    ensures m == n
  {
    if m >= 10 && n >= 10 {
      var sm, sn := NatToString(m), NatToString(n);
      assert sm[|sm| - 1] == DigitChar(m % 10) && sn[|sn| - 1] == DigitChar(n % 10);
      assert sm[..|sm| - 1] == NatToString(m / 10);
      assert sn[..|sn| - 1] == NatToString(n / 10);
      NatToStringInjective(m / 10, n / 10);
    }
  }

  /** `parts.join(sep)`. */
  function Join(parts: seq<string>, sep: string): string {
    if |parts| == 0 then ""
    else if |parts| == 1 then parts[0]
    else parts[0] + sep + Join(parts[1..], sep)
  }

  function IndexOfChar(s: string, c: char): (i: nat)
    requires c in s
    ensures i < |s| && s[i] == c && c !in s[..i]
  {
    if s[0] == c then 0 else 1 + IndexOfChar(s[1..], c)
  }

  /** `s.split(c)` for a one-character separator. */
  function Split(s: string, c: char): (parts: seq<string>)
    ensures |parts| >= 1
    decreases |s|
  {
    if c !in s then [s]
    else
      var i := IndexOfChar(s, c);
      [s[..i]] + Split(s[i + 1..], c)
  }

  /** Splitting a join on a separator that no part contains gives the parts back. */
  lemma {:induction false} SplitJoin(parts: seq<string>, c: char)
    requires |parts| >= 1
    requires forall k :: 0 <= k < |parts| ==> c !in parts[k]
    ensures Split(Join(parts, [c]), c) == parts
  {
    if |parts| > 1 {
      var head, rest := parts[0], Join(parts[1..], [c]);
      var s := head + [c] + rest;
      assert Join(parts, [c]) == s;
      IndexOfCharAfter(head, c, rest);
      assert s[..|head|] == head;
      assert s[|head| + 1..] == rest;
      SplitJoin(parts[1..], c);
    }
  }

  lemma {:induction false} IndexOfCharAfter(head: string, c: char, rest: string)
    requires c !in head
    ensures c in head + [c] + rest && IndexOfChar(head + [c] + rest, c) == |head|
  {
    var s := head + [c] + rest;
    assert s[|head|] == c;
    if head != [] {
      assert s[1..] == head[1..] + [c] + rest;
      IndexOfCharAfter(head[1..], c, rest);
    }
  }

  /** A join of two or more parts is longer than the join of a proper prefix of them. */
  lemma {:induction false} JoinPrefixShorter(parts: seq<string>, k: nat, c: char)
    requires 1 <= k < |parts|
    ensures |Join(parts[..k], [c])| < |Join(parts, [c])|
  {
    if k == 1 {
      assert parts[..k] == [parts[0]];
    } else {
      JoinPrefixShorter(parts[1..], k - 1, c);
      assert parts[1..][..k - 1] == parts[..k][1..];
    }
  }

  lemma {:induction false} JoinEmpty(parts: seq<string>, c: char)
    requires Join(parts, [c]) == ""
    ensures parts == [] || parts == [""]
  {
  }

  function CountChar(s: string, c: char): nat {
    if s == [] then 0 else CountChar(s[..|s| - 1], c) + (if s[|s| - 1] == c then 1 else 0)
  }

  lemma {:induction false} CountCharConcat(a: string, b: string, c: char)
    ensures CountChar(a + b, c) == CountChar(a, c) + CountChar(b, c)
    decreases |b|
  {
    if b == [] {
      assert a + b == a;
    } else {
      assert (a + b)[..|a + b| - 1] == a + b[..|b| - 1];
      CountCharConcat(a, b[..|b| - 1], c);
    }
  }

  lemma {:induction false} CountCharAbsent(s: string, c: char)
    requires c !in s
    ensures CountChar(s, c) == 0
  {
    if s != [] {
      CountCharAbsent(s[..|s| - 1], c);
    }
  }

  /** `s.split(c).length` is one more than the number of occurrences of `c`. */
  lemma {:induction false} SplitCount(s: string, c: char)
    ensures |Split(s, c)| == CountChar(s, c) + 1
    decreases |s|
  {
    if c !in s {
      CountCharAbsent(s, c);
    } else {
      var i := IndexOfChar(s, c);
      assert s == s[..i] + ([c] + s[i + 1..]);
      CountCharConcat(s[..i], [c] + s[i + 1..], c);
      CountCharConcat([c], s[i + 1..], c);
      CountCharAbsent(s[..i], c);
      assert CountChar([c], c) == 1 by { assert [c][..0] == []; }
      SplitCount(s[i + 1..], c);
    }
  }

  /** The number of bytes of the UTF-8 encoding of one code point. */
  function Utf8Width(c: char): nat {
    if c as int < 0x80 then 1
    else if c as int < 0x800 then 2
    else if c as int < 0x10000 then 3
    else 4
  }

  /** `new TextEncoder().encode(s).length`, also `new Blob([s]).size`. */
  function Utf8Length(s: string): (n: nat)
    ensures |s| <= n <= 4 * |s|
  {
    if s == [] then 0 else Utf8Length(s[..|s| - 1]) + Utf8Width(s[|s| - 1])
  }

  /** Value of a digit character in radix 36 (36 for a non-digit). */
  function DigitValue(c: char): nat {
    if '0' <= c <= '9' then c as int - '0' as int
    else if 'a' <= c <= 'z' then c as int - 'a' as int + 10
    else if 'A' <= c <= 'Z' then c as int - 'A' as int + 10
    else 36
  }

  /** Length of the longest prefix of `s` made of digits of the radix. */
  function LeadingDigits(s: string, radix: nat): (n: nat)
    ensures n <= |s|
    ensures forall i :: 0 <= i < n ==> DigitValue(s[i]) < radix
    ensures n < |s| ==> DigitValue(s[n]) >= radix
  {
    if s != [] && DigitValue(s[0]) < radix then 1 + LeadingDigits(s[1..], radix) else 0
  }

  function DigitsValue(s: string, radix: nat): nat {
    if s == [] then 0
    else DigitsValue(s[..|s| - 1], radix) * radix
         + (if DigitValue(s[|s| - 1]) < radix then DigitValue(s[|s| - 1]) else 0)
  }

  /** Whether `parseInt` is called with radix 10 or with no radix (a `0x` prefix then means hexadecimal). */
  datatype Radix = Decimal | Auto

  /**
   * `parseInt(s, 10)` or `parseInt(s)`: skip leading whitespace, read an optional sign and
   * the longest run of digits; no digit at all gives NaN (None).
   */
  function ParseInt(s: string, radix: Radix): Option<int> {
    var t := TrimStart(s);
    var negative := |t| > 0 && t[0] == '-';
    var u := if |t| > 0 && (t[0] == '-' || t[0] == '+') then t[1..] else t;
    var hex := radix == Auto && |u| >= 2 && u[0] == '0' && (u[1] == 'x' || u[1] == 'X');
    match ParseDigits(if hex then u[2..] else u, if hex then 16 else 10)
    case None => None
    case Some(value) => var v: int := value; Some(if negative then -v else v)
  }

  /** The value of the longest run of leading digits, or None when there is none. */
  function ParseDigits(body: string, base: nat): Option<nat> {
    var n := LeadingDigits(body, base);
    if n == 0 then None else Some(DigitsValue(body[..n], base))
  }

  /** `String(n)` read back with `parseInt(s, 10)` is `n`. */
  lemma {:induction false} ParseIntNatToString(n: nat)
    ensures ParseInt(NatToString(n), Decimal) == Some(n)
  {
    ParseIntAllDigits(NatToString(n));
    NatToStringValue(n);
  }

  /** A plain run of decimal digits parses to its value. */
  lemma {:induction false} ParseIntAllDigits(s: string)
    requires IsAllDigits(s)
    ensures ParseInt(s, Decimal) == Some(DigitsValue(s, 10))
  {
    assert !IsJsSpace(s[0]);
    assert TrimStart(s) == s;
    AllDigitsLeading(s);
    assert s[..|s|] == s;
    assert ParseDigits(s, 10) == Some(DigitsValue(s, 10));
  }

  lemma {:induction false} AllDigitsLeading(s: string)
    requires IsAllDigits(s)
    ensures LeadingDigits(s, 10) == |s|
  {
    if |s| > 1 {
      AllDigitsLeading(s[1..]);
    }
  }

  lemma {:induction false} NatToStringValue(n: nat)
    ensures DigitsValue(NatToString(n), 10) == n
  {
    if n >= 10 {
      var s := NatToString(n);
      assert s[..|s| - 1] == NatToString(n / 10);
      NatToStringValue(n / 10);
    }
  }

  /** `s.replace(/q/g, "\\" + q)`: a backslash before every occurrence of `q`. */
  function EscapeChar(s: string, q: char): (r: string)
    ensures |r| == |s| + CountChar(s, q)
  {
    if s == [] then []
    else EscapeChar(s[..|s| - 1], q) + (if s[|s| - 1] == q then ['\\', q] else [s[|s| - 1]])
  }
}
