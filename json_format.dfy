/**
 * Formatting helpers (lib/json-format.ts): deep key sorting, the indent unit, indent
 * detection and the arguments `formatJson` hands to `JSON.stringify`.
 *
 * `localeCompare` is replaced by the lexicographic order on characters (see
 * LexLess); `JSON.parse` and `JSON.stringify` themselves are outside the model.
 */
module JsonFormat {
  import opened Options
  import opened Strings
  import opened JsonValues

  /** `IndentType`: two spaces or a tab. */
  datatype IndentType = TwoSpaces | Tab

  function Repeat(c: char, n: nat): (r: string)
    ensures |r| == n && forall i :: 0 <= i < n ==> r[i] == c
  {
    if n == 0 then [] else Repeat(c, n - 1) + [c]
  }

  /** `getIndentString`: a tab, or `" ".repeat(2)`. */
  function GetIndentString(indent: IndentType): (r: string)
    ensures indent == Tab ==> r == "\t"
    ensures indent == TwoSpaces ==> |r| == 2 && forall i :: 0 <= i < |r| ==> r[i] == ' '
  {
    if indent == Tab then "\t" else Repeat(' ', 2)
  }

  // ---------------------------------------------------------------------------
  // detectIndent: the first match of /^[\t ]+/m
  // ---------------------------------------------------------------------------

  /** Position `i` starts a line: the start of the text or just after a line terminator. */
  predicate LineStart(s: string, i: nat) {
    i == 0 || (i <= |s| && IsLineTerminator(s[i - 1]))
  }

  /** A line starts at `i` with a space or a tab. */
  predicate IndentedLineAt(s: string, i: nat) {
    i < |s| && LineStart(s, i) && (s[i] == ' ' || s[i] == '\t')
  }

  /** The leftmost position from `from` on where `^[\t ]` matches. */
  function FirstIndentedLine(s: string, from: nat): (r: Option<nat>)
    ensures r.Some? ==> from <= r.value && IndentedLineAt(s, r.value)
                        && forall k :: from <= k < r.value ==> !IndentedLineAt(s, k)
    ensures r.None? ==> forall k :: from <= k ==> !IndentedLineAt(s, k)
    decreases |s| - from
  {
    if from >= |s| then None
    else if IndentedLineAt(s, from) then Some(from)
    else FirstIndentedLine(s, from + 1)
  }

  /**
   * `detectIndent`: 2 when no line begins with a space or a tab; otherwise "tab" exactly
   * when the first such line begins with a tab.
   */
  function DetectIndent(json: string): (r: IndentType)
    ensures (forall k: nat :: !IndentedLineAt(json, k)) ==> r == TwoSpaces
    ensures forall k: nat :: IndentedLineAt(json, k) && (forall j: nat :: j < k ==> !IndentedLineAt(json, j)) ==>
                          (r == Tab <==> json[k] == '\t')
  {
    match FirstIndentedLine(json, 0)
    case None => TwoSpaces
    case Some(k) => if json[k] == '\t' then Tab else TwoSpaces
  }

  /** A line indented with spaces before one indented with a tab gives 2. */
  lemma DetectIndentFirstLineWins()
    ensures DetectIndent("{\n  \"a\": [\n\t1]}") == TwoSpaces
    ensures DetectIndent("{\n\t\"a\": 1\n}") == Tab
    ensures DetectIndent("{\"a\": 1}") == TwoSpaces
  {
    var s := "{\n  \"a\": [\n\t1]}";
    assert IndentedLineAt(s, 2);
    assert !IndentedLineAt(s, 0) && !IndentedLineAt(s, 1);
    var t := "{\n\t\"a\": 1\n}";
    assert IndentedLineAt(t, 2);
    assert !IndentedLineAt(t, 0) && !IndentedLineAt(t, 1);
    var u := "{\"a\": 1}";
    forall k: nat ensures !IndentedLineAt(u, k) {
      if 0 < k <= |u| {
        assert !IsLineTerminator(u[k - 1]);
      }
    }
  }

  // ---------------------------------------------------------------------------
  // The key order
  // ---------------------------------------------------------------------------

  /** Lexicographic order on characters: the order the sort uses here in place of `localeCompare`. */
  predicate LexLess(a: string, b: string)
    decreases |a|
  {
    |b| > 0 && (|a| == 0 || a[0] < b[0] || (a[0] == b[0] && LexLess(a[1..], b[1..])))
  }

  lemma {:induction false} LexLessIrreflexive(a: string)
    ensures !LexLess(a, a)
    decreases |a|
  {
    if |a| > 0 {
      LexLessIrreflexive(a[1..]);
    }
  }

  lemma {:induction false} LexLessTransitive(a: string, b: string, c: string)
    requires LexLess(a, b) && LexLess(b, c)
    ensures LexLess(a, c)
    decreases |a|
  {
    if |a| > 0 && a[0] == b[0] && b[0] == c[0] {
      LexLessTransitive(a[1..], b[1..], c[1..]);
    }
  }

  lemma {:induction false} LexLessTotal(a: string, b: string)
    ensures a == b || LexLess(a, b) || LexLess(b, a)
    decreases |a|
  {
    if |a| > 0 && |b| > 0 && a[0] == b[0] {
      LexLessTotal(a[1..], b[1..]);
      if a[1..] == b[1..] {
        assert a == [a[0]] + a[1..] && b == [b[0]] + b[1..];
      }
    }
  }

  /** `b` is not before `a`. */
  predicate LexLessEq(a: string, b: string) {
    !LexLess(b, a)
  }

  lemma {:induction false} LexLessEqTransitive(a: string, b: string, c: string)
    requires LexLessEq(a, b) && LexLessEq(b, c)
    ensures LexLessEq(a, c)
  {
    if LexLess(c, a) {
      LexLessTotal(a, b);
      LexLessTotal(b, c);
      if a == b {
      } else if b == c {
      } else {
        LexLessTransitive(a, b, c);
        LexLessTransitive(c, a, b);
      }
    }
  }

  // ---------------------------------------------------------------------------
  // sortObjectKeysDeep
  // ---------------------------------------------------------------------------

  type Members = seq<(string, Json)>

  /** The keys appear in ascending order. */
  predicate KeysSorted(ms: Members) {
    forall i, j :: 0 <= i < j < |ms| ==> LexLessEq(ms[i].0, ms[j].0)
  }

  /** Insert `m` before the first member whose key is not below its own. */
  function InsertByKey(m: (string, Json), s: Members): (r: Members)
    requires KeysSorted(s)
    ensures KeysSorted(r)
    ensures multiset(r) == multiset(s) + multiset{m}
    ensures |r| == |s| + 1
  {
    if s == [] then [m]
    else if !LexLess(s[0].0, m.0) then
      InsertFrontSorted(m, s);
      [m] + s
    else
      assert KeysSorted(s[1..]);
      var rest := InsertByKey(m, s[1..]);
      assert multiset(s) == multiset{s[0]} + multiset(s[1..]) by { assert s == [s[0]] + s[1..]; }
      HeadBelowInsert(m, s, rest);
      ConsSorted(s[0], rest);
      [s[0]] + rest
  }

  /** `m` goes in front of a sorted list whose first key is not below its own. */
  lemma {:induction false} InsertFrontSorted(m: (string, Json), s: Members)
    requires KeysSorted(s) && s != [] && !LexLess(s[0].0, m.0)
    ensures KeysSorted([m] + s)
  {
    var r := [m] + s;
    forall i, j | 0 <= i < j < |r| ensures LexLessEq(r[i].0, r[j].0) {
      if i == 0 && j > 1 {
        LexLessEqTransitive(m.0, s[0].0, s[j - 1].0);
      }
    }
  }

  /** The head of a sorted list whose key is below `m`'s is not above anything in the rest with `m` added. */
  lemma {:induction false} HeadBelowInsert(m: (string, Json), s: Members, rest: Members)
    requires KeysSorted(s) && s != [] && LexLess(s[0].0, m.0)
    requires multiset(rest) == multiset(s[1..]) + multiset{m}
    ensures forall y :: y in multiset(rest) ==> LexLessEq(s[0].0, y.0)
  {
    forall y | y in multiset(rest) ensures LexLessEq(s[0].0, y.0) {
      if y == m {
        if LexLess(m.0, s[0].0) {
          LexLessTransitive(m.0, s[0].0, m.0);
          LexLessIrreflexive(m.0);
        }
      } else {
        assert y in multiset(s[1..]);
        var k :| 0 <= k < |s[1..]| && s[1..][k] == y;
        assert s[k + 1] == y;
      }
    }
  }

  /** A head not above anything in the sorted tail keeps the list sorted; here the tail holds only keys above or equal to `x`'s. */
  lemma {:induction false} ConsSorted(x: (string, Json), rest: Members)
    requires KeysSorted(rest)
    requires forall y :: y in multiset(rest) ==> LexLessEq(x.0, y.0)
    ensures KeysSorted([x] + rest)
  {
    var r := [x] + rest;
    forall i, j | 0 <= i < j < |r| ensures LexLessEq(r[i].0, r[j].0) {
      if i == 0 {
        assert rest[j - 1] in multiset(rest);
      }
    }
  }

  /** The members ordered by key; members with equal keys keep their order. */
  function SortByKey(ms: Members): (r: Members)
    ensures KeysSorted(r)
    ensures multiset(r) == multiset(ms)
    ensures |r| == |ms|
  {
    if ms == [] then []
    else
      assert ms == [ms[0]] + ms[1..];
      InsertByKey(ms[0], SortByKey(ms[1..]))
  }

  /** Each member with its value sorted. */
  function SortValues(ms: Members, ghost parent: Json): (r: Members)
    requires forall i :: 0 <= i < |ms| ==> ms[i].1 < parent
    ensures |r| == |ms| && forall i :: 0 <= i < |ms| ==> r[i] == (ms[i].0, SortObjectKeysDeep(ms[i].1))
    decreases parent, 0
  {
    seq(|ms|, i requires 0 <= i < |ms| => (ms[i].0, SortObjectKeysDeep(ms[i].1)))
  }

  /**
   * The one key that `acc[key] = value` on a plain `{}` does not store: the assignment runs
   * the inherited `__proto__` setter, which replaces or ignores the prototype and adds no
   * member.
   */
  const ProtoKey: string := "__proto__"

  /** The members the `reduce` in `sortObjectKeysDeep` keeps: all but those keyed `__proto__`, in order. */
  function OwnMembers(ms: Members): (r: Members)
    ensures |r| <= |ms|
    ensures forall i :: 0 <= i < |r| ==> r[i].0 != ProtoKey
    ensures (forall i :: 0 <= i < |ms| ==> ms[i].0 != ProtoKey) ==> r == ms
  {
    if ms == [] then []
    else (if ms[0].0 == ProtoKey then [] else [ms[0]]) + OwnMembers(ms[1..])
  }

  /** Each kept member is one of the originals. */
  lemma {:induction false} OwnMemberFrom(ms: Members, i: nat) returns (j: nat)
    requires i < |OwnMembers(ms)|
    ensures j < |ms| && ms[j] == OwnMembers(ms)[i]
  {
    if ms[0].0 == ProtoKey {
      j := OwnMemberFrom(ms[1..], i);
      j := j + 1;
    } else if i == 0 {
      j := 0;
    } else {
      j := OwnMemberFrom(ms[1..], i - 1);
      j := j + 1;
    }
  }

  /** Each original not keyed `__proto__` is kept. */
  lemma {:induction false} OwnMemberKept(ms: Members, j: nat) returns (i: nat)
    requires j < |ms| && ms[j].0 != ProtoKey
    ensures i < |OwnMembers(ms)| && OwnMembers(ms)[i] == ms[j]
  {
    if j == 0 {
      i := 0;
    } else {
      i := OwnMemberKept(ms[1..], j - 1);
      if ms[0].0 != ProtoKey {
        i := i + 1;
      }
    }
  }

  /** Every member kept from an object's own list is below that object. */
  lemma OwnMembersBelow(v: Json)
    requires v.Obj?
    ensures forall i :: 0 <= i < |OwnMembers(v.members)| ==> OwnMembers(v.members)[i].1 < v
  {
    forall i | 0 <= i < |OwnMembers(v.members)| ensures OwnMembers(v.members)[i].1 < v {
      var j := OwnMemberFrom(v.members, i);
    }
  }

  /**
   * `sortObjectKeysDeep`: arrays keep their elements in order, each sorted; objects get
   * their keys in ascending order with each value sorted, less any `__proto__` member;
   * other values are unchanged.
   */
  function SortObjectKeysDeep(v: Json): (r: Json)
    ensures !IsContainer(v) ==> r == v
    ensures v.Arr? ==> r.Arr? && |r.items| == |v.items|
                       && forall i :: 0 <= i < |v.items| ==> r.items[i] == SortObjectKeysDeep(v.items[i])
    ensures v.Obj? ==> r.Obj? && KeysSorted(r.members)
                       && (OwnMembersBelow(v); multiset(r.members) == multiset(SortValues(OwnMembers(v.members), v)))
    decreases v, 1
  {
    match v
    case Arr(items) => Arr(seq(|items|, i requires 0 <= i < |items| => SortObjectKeysDeep(items[i])))
    case Obj(members) =>
      OwnMembersBelow(v);
      Obj(SortByKey(SortValues(OwnMembers(members), v)))
    case _ => v
  }

  /** Sorting a list that is already sorted changes nothing. */
  lemma {:induction false} SortSortedIsIdentity(s: Members)
    requires KeysSorted(s)
    ensures SortByKey(s) == s
  {
    if s != [] {
      assert KeysSorted(s[1..]);
      SortSortedIsIdentity(s[1..]);
      assert s == [s[0]] + s[1..];
    }
  }

  /** A key of the sorted object is one of the original's, and not `__proto__`. */
  lemma {:induction false} SortedKeyFromOriginal(v: Json, key: string)
    requires v.Obj? && key in Keys(SortObjectKeysDeep(v).members)
    ensures key in Keys(v.members) && key != ProtoKey
  {
    var ms := v.members;
    var own := OwnMembers(ms);
    OwnMembersBelow(v);
    var sv := SortValues(own, v);
    var r := SortObjectKeysDeep(v).members;
    var i :| 0 <= i < |r| && Keys(r)[i] == key;
    assert r[i] in multiset(sv);
    var k :| 0 <= k < |sv| && sv[k] == r[i];
    var j := OwnMemberFrom(ms, k);
    assert Keys(ms)[j] == key;
  }

  /** A key of the original other than `__proto__` is a key of the sorted object. */
  lemma {:induction false} OriginalKeySorted(v: Json, key: string)
    requires v.Obj? && key in Keys(v.members) && key != ProtoKey
    ensures key in Keys(SortObjectKeysDeep(v).members)
  {
    var ms := v.members;
    OwnMembersBelow(v);
    var sv := SortValues(OwnMembers(ms), v);
    var r := SortObjectKeysDeep(v).members;
    var j :| 0 <= j < |ms| && Keys(ms)[j] == key;
    var k := OwnMemberKept(ms, j);
    assert sv[k] in multiset(r);
    var i :| 0 <= i < |r| && r[i] == sv[k];
    assert Keys(r)[i] == key;
  }

  /** The sorted object has the original's keys, except `__proto__`. */
  lemma {:induction false} SortKeepsKeys(v: Json, key: string)
    requires v.Obj?
    ensures key in Keys(SortObjectKeysDeep(v).members) <==> key in Keys(v.members) && key != ProtoKey
  {
    if key in Keys(SortObjectKeysDeep(v).members) {
      SortedKeyFromOriginal(v, key);
    }
    if key in Keys(v.members) && key != ProtoKey {
      OriginalKeySorted(v, key);
    }
  }

  /** `{"__proto__": 1, "a": 2}` sorts to `{"a": 2}`. */
  lemma SortDropsProto()
    ensures SortObjectKeysDeep(Obj([(ProtoKey, Num("1")), ("a", Num("2"))])) == Obj([("a", Num("2"))])
  {
    var v := Obj([(ProtoKey, Num("1")), ("a", Num("2"))]);
    assert "a" != ProtoKey;
    assert OwnMembers(v.members) == [("a", Num("2"))];
  }

  /** Sorting twice is sorting once. */
  lemma {:induction false} SortIdempotent(v: Json)
    ensures SortObjectKeysDeep(SortObjectKeysDeep(v)) == SortObjectKeysDeep(v)
    decreases v
  {
    match v
    case Arr(items) =>
      var r := SortObjectKeysDeep(v);
      forall i | 0 <= i < |items|
        ensures SortObjectKeysDeep(r.items[i]) == r.items[i]
      {
        SortIdempotent(items[i]);
      }
      assert SortObjectKeysDeep(r).items == r.items;
    case Obj(ms) =>
      var r := SortObjectKeysDeep(v).members;
      var own := OwnMembers(ms);
      OwnMembersBelow(v);
      var sv := SortValues(own, v);
      forall i | 0 <= i < |r|
        ensures SortObjectKeysDeep(r[i].1) == r[i].1 && r[i].0 != ProtoKey
      {
        assert r[i] in multiset(sv);
        var k :| 0 <= k < |sv| && sv[k] == r[i];
        var j := OwnMemberFrom(ms, k);
        SortIdempotent(ms[j].1);
      }
      assert OwnMembers(r) == r;
      OwnMembersBelow(SortObjectKeysDeep(v));
      var r2 := SortValues(r, SortObjectKeysDeep(v));
      assert r2 == r;
      SortSortedIsIdentity(r);
    case _ =>
  }

  // ---------------------------------------------------------------------------
  // formatJson's options
  // ---------------------------------------------------------------------------

  /** `{ indent?, sortKeys? }`; a missing field takes its default (2, false). */
  datatype FormatOptions = FormatOptions(indent: Option<IndentType>, sortKeys: Option<bool>)

  /** The `space` argument of `JSON.stringify`: a count of spaces or a string. */
  datatype Space = SpaceCount(n: nat) | SpaceText(text: string)

  /** What `formatJson` asks `JSON.stringify` to print. */
  datatype StringifyCall = StringifyCall(value: Json, space: Space)

  /** The indent unit `JSON.stringify` uses for a `space` argument: at most ten spaces, or the string's first ten characters. */
  function StringifyIndentUnit(space: Space): string {
    match space
    case SpaceCount(n) => Repeat(' ', if n < 10 then n else 10)
    case SpaceText(t) => if |t| <= 10 then t else t[..10]
  }

  /**
   * `formatJson(json, options)` once the text is parsed to `parsed`: the value is
   * deep-sorted only when `sortKeys` is true, and "tab" becomes the string "\t".
   */
  function FormatJsonCall(parsed: Json, options: FormatOptions): (r: StringifyCall)
    ensures options.sortKeys != Some(true) ==> r.value == parsed
    ensures options.sortKeys == Some(true) ==> r.value == SortObjectKeysDeep(parsed)
    ensures StringifyIndentUnit(r.space) == GetIndentString(if options.indent.Some? then options.indent.value else TwoSpaces)
  {
    var indent := if options.indent.Some? then options.indent.value else TwoSpaces;
    var sortKeys := options.sortKeys == Some(true);
    var obj := if sortKeys then SortObjectKeysDeep(parsed) else parsed;
    var space := if indent == Tab then SpaceText("\t") else SpaceCount(2);
    assert Repeat(' ', 2) == "  ";
    StringifyCall(obj, space)
  }

  /** `minifyJson(json)` once the text is parsed to `parsed`: the value unchanged, with no indentation. */
  function MinifyJsonCall(parsed: Json): (r: StringifyCall)
    ensures r.value == parsed
    ensures StringifyIndentUnit(r.space) == ""
  {
    StringifyCall(parsed, SpaceCount(0))
  }
}
