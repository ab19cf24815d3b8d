/**
 * The few JavaScript string operations the module relies on:
 * `String.prototype.split` with a one-character separator, its inverse
 * `Array.prototype.join`, `String.prototype.trim`, and the regular
 * expression rewrite `/\.value$/ -> ".max"`.
 */
module JsStrings {

  /** The position of the first occurrence of `c` in `s`. */
  function FirstIndex(s: string, c: char): (i: nat)
    requires c in s
    ensures i < |s| && s[i] == c && c !in s[..i]
  {
    if s[0] == c then 0
    else
      assert c in s[1..] by { var k :| 0 <= k < |s| && s[k] == c; assert s[1..][k - 1] == c; }
      var j := FirstIndex(s[1..], c);
      assert s[..j + 1] == [s[0]] + s[1..][..j];
      1 + j
  }

  /** `parts.join(sep)`: the parts with one `sep` between neighbours. */
  function Join(parts: seq<string>, sep: char): string
  {
    if |parts| == 0 then ""
    else if |parts| == 1 then parts[0]
    else parts[0] + [sep] + Join(parts[1..], sep)
  }

  /**
   * `s.split(sep)`: the maximal pieces of `s` between occurrences of `sep`.
   * There is always at least one piece (`"".split(".")` is `[""]`), no piece holds
   * the separator, and joining the pieces gives `s` back.
   */
  function Split(s: string, sep: char): (parts: seq<string>)
    ensures |parts| >= 1
    ensures forall k :: 0 <= k < |parts| ==> sep !in parts[k]
    ensures Join(parts, sep) == s
    decreases |s|
  {
    if sep !in s then [s]
    else
      var i := FirstIndex(s, sep);
      var rest := Split(s[i + 1..], sep);
      assert s == s[..i] + [sep] + s[i + 1..];
      [s[..i]] + rest
  }

  /** Joining pieces that do not hold the separator and splitting again gives the pieces back. */
  lemma {:induction false} SplitJoin(parts: seq<string>, sep: char)
    requires |parts| >= 1
    requires forall k :: 0 <= k < |parts| ==> sep !in parts[k]
    ensures Split(Join(parts, sep), sep) == parts
  {
    if |parts| == 1 {
    } else {
      var tail := Join(parts[1..], sep);
      var s := parts[0] + [sep] + tail;
      assert sep in s by { assert s[|parts[0]|] == sep; }
      var i := FirstIndex(s, sep);
      assert s[..|parts[0]|] == parts[0];
      assert i == |parts[0]|;
      assert s[..i] == parts[0];
      assert s[i + 1..] == tail;
      SplitJoin(parts[1..], sep);
    }
  }

  /** Joining one more piece appends the separator and that piece. */
  lemma {:induction false} JoinAppend(parts: seq<string>, k: string, sep: char)
    requires |parts| >= 1
    ensures Join(parts + [k], sep) == Join(parts, sep) + [sep] + k
  {
    if |parts| == 1 {
      assert (parts + [k])[1..] == [k];
    } else {
      assert (parts + [k])[1..] == parts[1..] + [k];
      JoinAppend(parts[1..], k, sep);
    }
  }

  /** The characters `String.prototype.trim` removes (white space and line terminators). */
  predicate IsJsWhitespace(c: char)
    ensures IsJsWhitespace(c) ==> c != '.' && c != ',' && c != '-'
  {
    c == '\t' || c == '\n' || c == '\U{B}' || c == '\U{C}' || c == '\r' || c == ' ' ||
    c == '\U{A0}' || c == '\U{1680}' || ('\U{2000}' <= c <= '\U{200A}') ||
    c == '\U{2028}' || c == '\U{2029}' || c == '\U{202F}' || c == '\U{205F}' ||
    c == '\U{3000}' || c == '\U{FEFF}'
  }

  function TrimStart(s: string): (r: string)
    ensures |r| <= |s| && r == s[|s| - |r|..]
    ensures r == [] || !IsJsWhitespace(r[0])
    ensures forall k :: 0 <= k < |s| - |r| ==> IsJsWhitespace(s[k])
  {
    if s != [] && IsJsWhitespace(s[0]) then TrimStart(s[1..]) else s
  }

  function TrimEnd(s: string): (r: string)
    ensures |r| <= |s| && r == s[..|r|]
    ensures r == [] || !IsJsWhitespace(r[|r| - 1])
    ensures forall k :: |r| <= k < |s| ==> IsJsWhitespace(s[k])
  {
    if s != [] && IsJsWhitespace(s[|s| - 1]) then TrimEnd(s[..|s| - 1]) else s
  }

  /**
   * `s.trim()`: what is left neither starts nor ends with white space, and a
   * string that already does neither is left as it is.
   */
  function Trim(s: string): (r: string)
    ensures |r| <= |s|
    ensures r == [] || (!IsJsWhitespace(r[0]) && !IsJsWhitespace(r[|r| - 1]))
    ensures s != [] && !IsJsWhitespace(s[0]) && !IsJsWhitespace(s[|s| - 1]) ==> r == s
  {
    TrimEnd(TrimStart(s))
  }

  /**
   * What `trim` keeps is a slice of the input, and everything it drops, before
   * and after that slice, is white space.
   */
  lemma TrimDropsOnlyEdgeWhitespace(s: string, i: nat)
    requires i == |s| - |TrimStart(s)|
    ensures i + |Trim(s)| <= |s| && Trim(s) == s[i..i + |Trim(s)|]
    ensures forall k :: 0 <= k < i ==> IsJsWhitespace(s[k])
    ensures forall k :: i + |Trim(s)| <= k < |s| ==> IsJsWhitespace(s[k])
  {
    var t := TrimStart(s);
    var r := TrimEnd(t);
    assert Trim(s) == r;
    PrefixOfSuffix(s, i, r);
  }

  /** A prefix `r` of `s[i..]` whose rest is white space is the slice `s[i..i+|r|]`, followed by white space. */
  lemma PrefixOfSuffix(s: string, i: nat, r: string)
    requires i <= |s| && |r| <= |s| - i && r == s[i..][..|r|]
    requires forall k :: |r| <= k < |s| - i ==> IsJsWhitespace(s[i..][k])
    ensures r == s[i..i + |r|]
    ensures forall k :: i + |r| <= k < |s| ==> IsJsWhitespace(s[k])
  {
    forall k | i + |r| <= k < |s|
      ensures IsJsWhitespace(s[k])
    {
      assert s[k] == s[i..][k - i];
    }
  }

  predicate EndsWith(s: string, suffix: string)
  {
    |suffix| <= |s| && s[|s| - |suffix|..] == suffix
  }

  /**
   * `path.replace(/\.value$/, '.max')`: only a `.value` at the very end of the
   * string becomes `.max`; every other string is returned unchanged.
   */
  function MaxPath(path: string): (r: string)
    ensures EndsWith(path, ".value") ==> r == path[..|path| - 6] + ".max"
    ensures !EndsWith(path, ".value") ==> r == path
  {
    if EndsWith(path, ".value") then path[..|path| - 6] + ".max" else path
  }
}
