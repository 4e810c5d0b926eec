/**
 * The parsed JSON value and the small utilities over it (lib/utils/json-utils.ts):
 * value type, child count, node count and maximum depth.
 *
 * A number carries the text that JavaScript's `String(n)` prints for it; number
 * arithmetic is never needed. An object is its members in enumeration order.
 */
module JsonValues {
  import opened Options
  import opened Strings

  datatype Json =
    | Null
    | Bool(b: bool)
    | Num(text: string)
    | Str(s: string)
    | Arr(items: seq<Json>)
    | Obj(members: seq<(string, Json)>)

  /** A path from the root: object keys and array indices written in decimal. */
  type Path = seq<string>

  predicate IsContainer(v: Json) {
    v.Arr? || v.Obj?
  }

  /**
   * The children of a value as (segment, child) pairs, in the order every traversal
   * of the source visits them: array elements by index (segment `String(i)`),
   * object members in `Object.keys` order, nothing for a primitive.
   */
  function Entries(v: Json): (es: seq<(string, Json)>)
    ensures forall i :: 0 <= i < |es| ==> es[i].1 < v
    ensures !IsContainer(v) ==> es == []
  {
    match v
    case Arr(items) => seq(|items|, i requires 0 <= i < |items| => (NatToString(i), items[i]))
    case Obj(members) => members
    case _ => []
  }

  /** JavaScript falsiness of a parsed value: `null`, `false`, `0` and `""`. */
  predicate IsFalsy(v: Json) {
    v == Null || v == Bool(false) || v == Num("0") || v == Str("")
  }

  datatype ValueType = StringType | NumberType | BooleanType | NullType | ObjectType | ArrayType {
    /** The name `getValueType` returns. */
    function Name(): string {
      match this
      case StringType => "string"
      case NumberType => "number"
      case BooleanType => "boolean"
      case NullType => "null"
      case ObjectType => "object"
      case ArrayType => "array"
    }
  }

  /** `getValueType`: "null" for null, "array" for arrays, the `typeof` name otherwise. */
  function GetValueType(v: Json): (t: ValueType)
    ensures t == NullType <==> v.Null?
    ensures t == ArrayType <==> v.Arr?
    ensures t == ObjectType <==> v.Obj?
    ensures t == StringType <==> v.Str?
    ensures t == NumberType <==> v.Num?
    ensures t == BooleanType <==> v.Bool?
  {
    match v
    case Null => NullType
    case Bool(_) => BooleanType
    case Num(_) => NumberType
    case Str(_) => StringType
    case Arr(_) => ArrayType
    case Obj(_) => ObjectType
  }

  /** `getChildCount`: undefined for primitives, length for arrays, key count for objects. */
  function GetChildCount(v: Json): (n: Option<nat>)
    ensures n.None? <==> !IsContainer(v)
    ensures v.Arr? ==> n == Some(|v.items|)
    ensures v.Obj? ==> n == Some(|v.members|)
    ensures n.Some? ==> n.value == |Entries(v)|
  {
    if IsContainer(v) then Some(|Entries(v)|) else None
  }

  /** Keys of object members, in order. */
  function Keys(members: seq<(string, Json)>): (ks: seq<string>)
    ensures |ks| == |members|
    ensures forall i :: 0 <= i < |members| ==> ks[i] == members[i].0
  {
    if members == [] then [] else Keys(members[..|members| - 1]) + [members[|members| - 1].0]
  }

  /** Every object in the value has distinct keys, as `JSON.parse` guarantees. */
  predicate UniqueKeys(v: Json)
    decreases v, 1
  {
    (v.Obj? ==> forall i, j :: 0 <= i < j < |v.members| ==> v.members[i].0 != v.members[j].0)
    && AllUniqueKeys(Entries(v), v)
  }

  predicate AllUniqueKeys(es: seq<(string, Json)>, ghost parent: Json)
    requires forall i :: 0 <= i < |es| ==> es[i].1 < parent
    decreases parent, 0
  {
    forall i :: 0 <= i < |es| ==> UniqueKeys(es[i].1)
  }

  /** Distinct entries of a value (of any kind) have distinct segments when keys are unique. */
  lemma EntrySegmentsDistinct(v: Json, i: nat, j: nat)
    requires UniqueKeys(v)
    requires i < j < |Entries(v)|
    ensures Entries(v)[i].0 != Entries(v)[j].0
  {
    if v.Arr? {
      if NatToString(i) == NatToString(j) {
        NatToStringInjective(i, j);
      }
    }
  }

  // ---------------------------------------------------------------------------
  // Node count and depth (countNodes)
  // ---------------------------------------------------------------------------

  /** The number of values in the tree: 1 for the value itself plus its descendants. */
  function Size(v: Json): nat
    decreases v, 1
  {
    1 + SumSizes(Entries(v), v)
  }

  function SumSizes(es: seq<(string, Json)>, ghost parent: Json): nat
    requires forall i :: 0 <= i < |es| ==> es[i].1 < parent
    decreases parent, 0, |es|
  {
    if es == [] then 0 else SumSizes(es[..|es| - 1], parent) + Size(es[|es| - 1].1)
  }

  /** The deepest level below `depth` that the value reaches, counting `depth` for itself. */
  function MaxDepth(v: Json, depth: nat): nat
    decreases v, 1
  {
    MaxOver(Entries(v), v, depth)
  }

  function MaxOver(es: seq<(string, Json)>, ghost parent: Json, depth: nat): nat
    requires forall i :: 0 <= i < |es| ==> es[i].1 < parent
    decreases parent, 0, |es|
  {
    if es == [] then depth
    else
      var m := MaxOver(es[..|es| - 1], parent, depth);
      var c := MaxDepth(es[|es| - 1].1, depth + 1);
      if m < c then c else m
  }

  /** Taking in entry `i` adds its size to the running count and may raise the running depth. */
  lemma {:induction false} CountStep(v: Json, i: nat, depth: nat)
    requires i < |Entries(v)|
    ensures SumSizes(Entries(v)[..i + 1], v) == SumSizes(Entries(v)[..i], v) + Size(Entries(v)[i].1)
    ensures MaxOver(Entries(v)[..i + 1], v, depth)
            == if MaxOver(Entries(v)[..i], v, depth) < MaxDepth(Entries(v)[i].1, depth + 1)
               then MaxDepth(Entries(v)[i].1, depth + 1) else MaxOver(Entries(v)[..i], v, depth)
  {
    var es := Entries(v);
    assert es[..i + 1][..i] == es[..i];
    assert es[..i + 1][i] == es[i];
  }

  /**
   * `countNodes(value, depth)`: a leaf is one node at `depth`; a container adds each
   * child's count and keeps the largest of `depth` and the children's depths.
   */
  method CountNodes(v: Json, depth: nat) returns (nodeCount: nat, maxDepth: nat)
    ensures nodeCount == Size(v)
    ensures maxDepth == MaxDepth(v, depth)
    decreases v
  {
    if !IsContainer(v) {
      return 1, depth;
    }
    nodeCount, maxDepth := 1, depth;
    var es := Entries(v);
    for i := 0 to |es|
      invariant nodeCount == 1 + SumSizes(es[..i], v)
      invariant maxDepth == MaxOver(es[..i], v, depth)
    {
      var n, m := CountNodes(es[i].1, depth + 1);
      CountStep(v, i, depth);
      nodeCount := nodeCount + n;
      maxDepth := if maxDepth < m then m else maxDepth;
    }
    assert es[..|es|] == es;
  }

  /** A leaf counts one node; a leaf and an empty container report `depth` as their depth. */
  lemma {:induction false} LeafCounts(v: Json, depth: nat)
    requires Entries(v) == []
    ensures Size(v) == 1 && MaxDepth(v, depth) == depth
  {
  }

  /** The reported depth never falls below the starting depth. */
  lemma {:induction false} MaxDepthAtLeast(v: Json, depth: nat)
    ensures MaxDepth(v, depth) >= depth
    decreases v, 1
  {
    MaxOverAtLeast(Entries(v), v, depth);
  }

  lemma {:induction false} MaxOverAtLeast(es: seq<(string, Json)>, parent: Json, depth: nat)
    requires forall i :: 0 <= i < |es| ==> es[i].1 < parent
    ensures MaxOver(es, parent, depth) >= depth
    decreases parent, 0, |es|
  {
    if es != [] {
      MaxOverAtLeast(es[..|es| - 1], parent, depth);
    }
  }

  /** A path from the root to the deepest node has one node per level: `nodeCount >= maxDepth - depth + 1`. */
  lemma {:induction false} SizeBoundsDepth(v: Json, depth: nat)
    ensures Size(v) >= MaxDepth(v, depth) - depth + 1
    decreases v, 1
  {
    SumSizesBoundsDepth(Entries(v), v, depth);
  }

  lemma {:induction false} SumSizesBoundsDepth(es: seq<(string, Json)>, parent: Json, depth: nat)
    requires forall i :: 0 <= i < |es| ==> es[i].1 < parent
    ensures SumSizes(es, parent) >= MaxOver(es, parent, depth) - depth
    decreases parent, 0, |es|
  {
    if es != [] {
      var last := es[|es| - 1].1;
      SumSizesBoundsDepth(es[..|es| - 1], parent, depth);
      SizeBoundsDepth(last, depth + 1);
    }
  }

  // ---------------------------------------------------------------------------
  // Navigation by exact segments
  // ---------------------------------------------------------------------------

  /** The child reached by one segment: the first entry with that segment. */
  function Child(v: Json, seg: string): (r: Option<Json>)
    ensures r.Some? ==> r.value < v
    ensures r.Some? <==> exists i :: 0 <= i < |Entries(v)| && Entries(v)[i].0 == seg
  {
    FirstWith(Entries(v), seg, v)
  }

  function FirstWith(es: seq<(string, Json)>, seg: string, ghost parent: Json): (r: Option<Json>)
    requires forall i :: 0 <= i < |es| ==> es[i].1 < parent
    ensures r.Some? ==> r.value < parent
    ensures r.Some? <==> exists i :: 0 <= i < |es| && es[i].0 == seg
  {
    if es == [] then None
    else if es[0].0 == seg then Some(es[0].1)
    else FirstWith(es[1..], seg, parent)
  }

  /** With distinct segments, the child named by entry `i`'s segment is that entry's value. */
  lemma {:induction false} ChildOfEntry(v: Json, i: nat)
    requires UniqueKeys(v)
    requires i < |Entries(v)|
    ensures Child(v, Entries(v)[i].0) == Some(Entries(v)[i].1)
  {
    var es := Entries(v);
    forall j | 0 <= j < i
      ensures es[j].0 != es[i].0
    {
      EntrySegmentsDistinct(v, j, i);
    }
    FirstWithAt(es, i, v);
  }

  lemma {:induction false} FirstWithAt(es: seq<(string, Json)>, i: nat, parent: Json)
    requires forall k :: 0 <= k < |es| ==> es[k].1 < parent
    requires i < |es|
    requires forall j :: 0 <= j < i ==> es[j].0 != es[i].0
    ensures FirstWith(es, es[i].0, parent) == Some(es[i].1)
  {
    if i > 0 {
      FirstWithAt(es[1..], i - 1, parent);
    }
  }

  /** The node a path leads to, if any. */
  function NodeAt(v: Json, p: Path): Option<Json>
    decreases |p|
  {
    if p == [] then Some(v)
    else match Child(v, p[0])
      case None => None
      case Some(c) => NodeAt(c, p[1..])
  }

  /** Under a unique-keyed value, stepping to entry `k` and then following `q` is following `[seg] + q`. */
  lemma {:induction false} NodeAtEntry(v: Json, k: nat, q: Path)
    requires UniqueKeys(v) && k < |Entries(v)|
    ensures NodeAt(v, [Entries(v)[k].0] + q) == NodeAt(Entries(v)[k].1, q)
  {
    ChildOfEntry(v, k);
    assert ([Entries(v)[k].0] + q)[1..] == q;
  }
}
