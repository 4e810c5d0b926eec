/**
 * Offset-to-path lookup over a source map (lib/source-map.ts).
 *
 * The pointer map is produced by the json-source-map library and is an input here:
 * a sequence of (JSON Pointer key, ranges) pairs in the map's iteration order. Only
 * the character offset (`pos`) of each position matters to this code.
 */
module SourceMap {
  import opened Options
  import opened Strings
  import opened JsonValues

  /** A pointer's ranges: the key range of an object member (both ends or neither used), and the value range. */
  datatype Pointer = Pointer(key: Option<int>, keyEnd: Option<int>, value: int, valueEnd: int)

  type PointerMap = seq<(string, Pointer)>

  /** `pathToPointerKey`: "" for the root, otherwise "/" followed by the segments joined with "/". */
  function PathToPointerKey(path: Path): (key: string)
    ensures path == [] <==> key == ""
    ensures path != [] ==> key == "/" + Join(path, "/")
  {
    if |path| == 0 then "" else "/" + Join(path, "/")
  }

  /** `pointerKeyToPath`: "" is the root; otherwise drop the first character and split on "/" (no "~0"/"~1" unescaping). */
  function PointerKeyToPath(key: string): Path {
    if key == "" then [] else Split(key[1..], '/')
  }

  /** Reading back a pointer key gives the path when no segment contains "/". */
  lemma {:induction false} PointerKeyRoundTrip(path: Path)
    requires forall i :: 0 <= i < |path| ==> '/' !in path[i]
    ensures PointerKeyToPath(PathToPointerKey(path)) == path
  {
    if path != [] {
      var key := PathToPointerKey(path);
      assert key[1..] == Join(path, "/");
      SplitJoin(path, '/');
    }
  }

  /** A segment holding "/" does not survive: `["a/b"]` reads back as `["a", "b"]`. */
  lemma SlashSegmentSplits()
    ensures PathToPointerKey(["a/b"]) == "/a/b"
    ensures PointerKeyToPath("/a/b") == ["a", "b"]
  {
    assert "/a/b"[1..] == "a/b";
    assert '/' !in "b";
    assert Split("b", '/') == ["b"];
    assert IndexOfChar("a/b", '/') == 1;
    assert "a/b"[..1] == "a" && "a/b"[2..] == "b";
  }

  /**
   * The size of the range of `p` that contains `pos`, if any: the key range when the
   * pointer has one and it contains `pos` (the value range is then not looked at),
   * otherwise the value range. Both ends are inclusive.
   */
  function Hit(p: Pointer, pos: int): (r: Option<int>)
    ensures r.Some? ==> r.value >= 0
  {
    if p.key.Some? && p.keyEnd.Some? && p.key.value <= pos <= p.keyEnd.value then
      Some(p.keyEnd.value - p.key.value)
    else if p.value <= pos <= p.valueEnd then
      Some(p.valueEnd - p.value)
    else None
  }

  /** Entry `i` is the one the scan keeps: it contains `pos`, no earlier entry is as narrow, no later one narrower. */
  predicate IsBest(ps: PointerMap, pos: int, i: int) {
    0 <= i < |ps| && Hit(ps[i].1, pos).Some?
    && (forall j :: 0 <= j < i && Hit(ps[j].1, pos).Some? ==> Hit(ps[j].1, pos).value > Hit(ps[i].1, pos).value)
    && (forall j :: i < j < |ps| && Hit(ps[j].1, pos).Some? ==> Hit(ps[j].1, pos).value >= Hit(ps[i].1, pos).value)
  }

  /**
   * `findPathAtPosition`: scan the entries keeping the narrowest containing range seen so
   * far, replacing it only by a strictly narrower one.
   */
  method FindPathAtPosition(pointers: PointerMap, pos: int) returns (r: Option<Path>)
    ensures r.None? <==> forall j :: 0 <= j < |pointers| ==> Hit(pointers[j].1, pos).None?
    ensures r.Some? ==> exists i :: IsBest(pointers, pos, i) && r.value == PointerKeyToPath(pointers[i].0)
  {
    var best: Option<nat> := None;
    var bestSize: Option<int> := None;  // None stands for Infinity
    for k := 0 to |pointers|
      invariant best.None? <==> bestSize.None?
      invariant best.None? <==> forall j :: 0 <= j < k ==> Hit(pointers[j].1, pos).None?
      invariant best.Some? ==> best.value < k && bestSize == Hit(pointers[best.value].1, pos)
      invariant best.Some? ==> forall j :: 0 <= j < best.value && Hit(pointers[j].1, pos).Some? ==>
                                  Hit(pointers[j].1, pos).value > bestSize.value
      invariant best.Some? ==> forall j :: best.value < j < k && Hit(pointers[j].1, pos).Some? ==>
                                  Hit(pointers[j].1, pos).value >= bestSize.value
    {
      var p := pointers[k].1;
      if p.key.Some? && p.keyEnd.Some? {
        var keyStart, keyEnd := p.key.value, p.keyEnd.value;
        if keyStart <= pos <= keyEnd {
          var size := keyEnd - keyStart;
          if bestSize.None? || size < bestSize.value {
            best, bestSize := Some(k), Some(size);
          }
          continue;
        }
      }
      var start, end := p.value, p.valueEnd;
      if start <= pos <= end {
        var size := end - start;
        if bestSize.None? || size < bestSize.value {
          best, bestSize := Some(k), Some(size);
        }
      }
    }
    if best.None? {
      return None;
    }
    assert IsBest(pointers, pos, best.value);
    return Some(PointerKeyToPath(pointers[best.value].0));
  }

  /** Two indices that both satisfy IsBest are the same: the scan's choice is determined. */
  lemma {:induction false} BestIsUnique(ps: PointerMap, pos: int, i: int, j: int)
    requires IsBest(ps, pos, i) && IsBest(ps, pos, j)
    ensures i == j
  {
  }

  /** A member whose key range holds the position is reported by its key range even when its value range is narrower. */
  lemma KeyHitWins()
    ensures Hit(Pointer(Some(0), Some(10), 12, 13), 5) == Some(10)
    ensures Hit(Pointer(Some(0), Some(10), 12, 13), 12) == Some(1)
    ensures Hit(Pointer(None, Some(10), 0, 20), 5) == Some(20)
  {
  }

  /** The first entry whose key is the pointer key, if any. */
  function Lookup(pointers: PointerMap, key: string): (r: Option<Pointer>)
    ensures r.Some? ==> exists i :: 0 <= i < |pointers| && pointers[i] == (key, r.value)
    ensures r.None? <==> forall i :: 0 <= i < |pointers| ==> pointers[i].0 != key
  {
    if pointers == [] then None
    else if pointers[0].0 == key then Some(pointers[0].1)
    else Lookup(pointers[1..], key)
  }

  /** `getPositionForPath`: the pointer stored under the path's pointer key, or null. */
  function GetPositionForPath(pointers: PointerMap, path: Path): (r: Option<Pointer>)
    ensures r.Some? ==> exists i :: 0 <= i < |pointers| && pointers[i] == (PathToPointerKey(path), r.value)
    ensures r.None? <==> forall i :: 0 <= i < |pointers| ==> pointers[i].0 != PathToPointerKey(path)
  {
    Lookup(pointers, PathToPointerKey(path))
  }
}
