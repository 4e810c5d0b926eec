/**
 * The persisted user settings store: font size, indent, default expansion depth and
 * copy format, with the numeric setters clamped into their ranges.
 */
module SettingsStore {
  import opened JsonPath
  import opened JsonFormat

  const MinFontSize := 10
  const MaxFontSize := 20
  const MinExpandDepth := 0
  const MaxExpandDepth := 10

  /** `Math.min(Math.max(x, lo), hi)`. */
  function Clamp(x: int, lo: int, hi: int): (r: int)
    requires lo <= hi
    ensures lo <= r <= hi
    ensures lo <= x <= hi ==> r == x
    ensures x < lo ==> r == lo
    ensures x > hi ==> r == hi
  {
    var atLeast := if x < lo then lo else x;
    if atLeast > hi then hi else atLeast
  }

  /** Clamping twice changes nothing the first clamp did not. */
  lemma ClampIdempotent(x: int, lo: int, hi: int)
    requires lo <= hi
    ensures Clamp(Clamp(x, lo, hi), lo, hi) == Clamp(x, lo, hi)
  {
  }

  class Settings {
    var fontSize: int
    var indent: IndentType
    var defaultExpandDepth: int
    var copyFormat: CopyFormat

    /** The defaults: font size 14, indent 2, expansion depth 2, JSONPath copy format. */
    constructor ()
      ensures fontSize == 14 && indent == TwoSpaces && defaultExpandDepth == 2 && copyFormat == JsonPathFormat
    {
      fontSize := 14;
      indent := TwoSpaces;
      defaultExpandDepth := 2;
      copyFormat := JsonPathFormat;
    }

    method SetFontSize(size: int)
      modifies this
      ensures MinFontSize <= fontSize <= MaxFontSize
      ensures MinFontSize <= size <= MaxFontSize ==> fontSize == size
      ensures fontSize == Clamp(size, MinFontSize, MaxFontSize)
      ensures indent == old(indent) && defaultExpandDepth == old(defaultExpandDepth) && copyFormat == old(copyFormat)
    {
      fontSize := Clamp(size, MinFontSize, MaxFontSize);
    }

    method SetIndent(newIndent: IndentType)
      modifies this
      ensures indent == newIndent
      ensures fontSize == old(fontSize) && defaultExpandDepth == old(defaultExpandDepth) && copyFormat == old(copyFormat)
    {
      indent := newIndent;
    }

    method SetDefaultExpandDepth(depth: int)
      modifies this
      ensures MinExpandDepth <= defaultExpandDepth <= MaxExpandDepth
      ensures MinExpandDepth <= depth <= MaxExpandDepth ==> defaultExpandDepth == depth
      ensures defaultExpandDepth == Clamp(depth, MinExpandDepth, MaxExpandDepth)
      ensures fontSize == old(fontSize) && indent == old(indent) && copyFormat == old(copyFormat)
    {
      defaultExpandDepth := Clamp(depth, MinExpandDepth, MaxExpandDepth);
    }

    method SetCopyFormat(format: CopyFormat)
      modifies this
      ensures copyFormat == format
      ensures fontSize == old(fontSize) && indent == old(indent) && defaultExpandDepth == old(defaultExpandDepth)
    {
      copyFormat := format;
    }
  }
}
