/**
 * Worked cases of the stat derivation of `getData`, for any two dot-free keys
 * `a` and `b`: the usual `a.b.value` path with its `a.b.max` sibling, the same
 * path written with a leading space, and a path whose first step is already 0.
 */
module TrackerExamples {
  import opened Wrappers
  import opened JsStrings
  import opened JsValue
  import opened TrackerApp

  /** A path of three dot-free parts splits back into them. */
  lemma DottedParts(a: string, b: string, leaf: string)
    requires '.' !in a && '.' !in b && '.' !in leaf
    ensures Split(a + "." + b + "." + leaf, '.') == [a, b, leaf]
  {
    assert Join([a, b, leaf], '.') == a + "." + b + "." + leaf by {
      assert [a, b, leaf][1..] == [b, leaf];
      assert [b, leaf][1..] == [leaf];
      assert Join([b, leaf], '.') == b + ['.'] + leaf;
      assert Join([a, b, leaf], '.') == a + ['.'] + (b + ['.'] + leaf);
    }
    SplitJoin([a, b, leaf], '.');
  }

  /** `{ a: { b: { value: v, max: m } } }`. */
  function Nested(a: string, b: string, v: real, m: real): JsVal
  {
    Obj([Field(a, Obj([Field(b, Obj([Field("value", Num(v)), Field("max", Num(m))]))]))])
  }

  /** `a.b.value` gets the max path `a.b.max`. */
  lemma MaxPathOfValuePath(a: string, b: string)
    requires '.' !in a && '.' !in b
    ensures MaxPath(a + "." + b + ".value") == a + "." + b + "." + "max"
  {
    var path := a + "." + b + ".value";
    var stem := a + "." + b;
    assert path == stem + ".value";
    assert path[|path| - 6..] == ".value";
    assert path[..|path| - 6] == stem;
  }

  /** `a.b.value` has nothing to trim when `a` does not start with white space. */
  lemma TrimmedPath(a: string, b: string)
    requires a != [] && !IsJsWhitespace(a[0])
    ensures Trim(a + "." + b + ".value") == a + "." + b + "." + "value"
  {
    var path := a + "." + b + ".value";
    assert path[0] == a[0];
    assert TrimStart(path) == path;
    assert path[|path| - 1] == 'e';
    assert TrimEnd(path) == path;
  }

  lemma ValuePartsOfPath(a: string, b: string)
    requires '.' !in a && '.' !in b && a != [] && !IsJsWhitespace(a[0])
    ensures ValueParts(a + "." + b + ".value") == [a, b, "value"]
  {
    var path := a + "." + b + ".value";
    var dotted := a + "." + b + "." + "value";
    assert Split(dotted, '.') == [a, b, "value"] by { DottedParts(a, b, "value"); }
    assert Trim(path) == dotted by { TrimmedPath(a, b); }
  }

  lemma MaxPartsOfPath(a: string, b: string)
    requires '.' !in a && '.' !in b
    ensures MaxParts(a + "." + b + ".value") == [a, b, "max"]
  {
    MaxPathOfValuePath(a, b);
    DottedParts(a, b, "max");
  }

  /** The value walk of `a.b.value` follows `a`, `b`, `value`; the max walk `a`, `b`, `max`. */
  lemma ValuePathSplits(a: string, b: string)
    requires '.' !in a && '.' !in b && a != [] && !IsJsWhitespace(a[0])
    ensures ValueParts(a + "." + b + ".value") == [a, b, "value"]
    ensures MaxParts(a + "." + b + ".value") == [a, b, "max"]
  {
    ValuePartsOfPath(a, b);
    MaxPartsOfPath(a, b);
  }

  /** Both walks reach their leaf in the nested object. */
  lemma NestedResolves(a: string, b: string, v: real, m: real)
    ensures Resolve(Nested(a, b, v, m), [a, b, "value"]) == Num(v)
    ensures Resolve(Nested(a, b, v, m), [a, b, "max"]) == Num(m)
  {
    var inner := Obj([Field("value", Num(v)), Field("max", Num(m))]);
    assert [a, b, "value"][1..] == [b, "value"];
    assert [b, "value"][1..] == ["value"];
    assert [a, b, "max"][1..] == [b, "max"];
    assert [b, "max"][1..] == ["max"];
    assert Resolve(inner, ["value"]) == Num(v);
    assert ["max"][1..] == [];
    assert Lookup(inner.fields, "max") == Some(Num(m));
    assert Resolve(inner, ["max"]) == Num(m);
  }

  /**
   * The configured default `attributes.hp.value` shape: the stat has the
   * value, the sibling max, the percentage value/max x 100, and the first colour.
   */
  lemma ValueMaxExample(a: string, b: string, v: real, m: real, colors: seq<string>)
    requires '.' !in a && '.' !in b && a != [] && !IsJsWhitespace(a[0])
    requires m != 0.0 && |colors| >= 1 && colors[0] != ""
    ensures StatFor(Nested(a, b, v, m), a + "." + b + ".value", 0, colors) ==
      Some(Stat(v, m, Finite(v / m * 100.0), colors[0]))
  {
    var root := Nested(a, b, v, m);
    var path := a + "." + b + ".value";
    ValuePathSplits(a, b);
    NestedResolves(a, b, v, m);
    assert ColorAt(colors, 0) == colors[0];
    assert StatFor(root, path, 0, colors) == MakeStat(Num(v), Num(m), colors[0]);
    MakeStatOfNumbers(v, m, colors[0]);
  }

  /** Two numbers with a non-zero max make a stat with a finite percentage. */
  lemma MakeStatOfNumbers(v: real, m: real, color: string)
    requires m != 0.0
    ensures MakeStat(Num(v), Num(m), color) == Some(Stat(v, m, Finite(v / m * 100.0), color))
  {
  }

  /** A leading space is trimmed off the value walk. */
  lemma SpacedValueParts(a: string, b: string)
    requires '.' !in a && '.' !in b && a != [] && !IsJsWhitespace(a[0])
    ensures ValueParts(" " + a + "." + b + ".value") == [a, b, "value"]
  {
    var path := a + "." + b + ".value";
    assert " " + a + "." + b + ".value" == " " + path;
    TrimLeadingSpace(path);
    ValuePathSplits(a, b);
  }

  /** Trimming ignores a leading space. */
  lemma TrimLeadingSpace(s: string)
    ensures Trim(" " + s) == Trim(s)
  {
    assert (" " + s)[1..] == s;
  }

  /** The max walk is not trimmed: its first part keeps the space. */
  lemma SpacedMaxParts(a: string, b: string)
    requires '.' !in a && '.' !in b
    ensures MaxParts(" " + a + "." + b + ".value") == [" " + a, b, "max"]
  {
    assert '.' !in " " + a;
    DottedParts(" " + a, b, "max");
    MaxPathOfValuePath(" " + a, b);
  }

  /** No key ` a` exists, so the max walk ends on `undefined`. */
  lemma SpacedKeyMisses(a: string, b: string, v: real, m: real)
    ensures Resolve(Nested(a, b, v, m), [" " + a, b, "max"]) == Undef
  {
    assert |" " + a| != |a|;
    assert Get(Nested(a, b, v, m), " " + a) == Undef;
    assert [" " + a, b, "max"][1..] == [b, "max"];
  }

  /**
   * A path written with a leading space (as `"hp.value, mp.value"` gives for its
   * second entry) still finds its value, but not its max: the max is taken to be
   * the value and the percentage is 100.
   */
  lemma LeadingSpaceDefeatsMax(a: string, b: string, v: real, m: real, colors: seq<string>)
    requires '.' !in a && '.' !in b && a != [] && !IsJsWhitespace(a[0])
    requires |colors| >= 1 && colors[0] != ""
    ensures StatFor(Nested(a, b, v, m), " " + a + "." + b + ".value", 0, colors) ==
      Some(Stat(v, v, Finite(100.0), colors[0]))
  {
    var root := Nested(a, b, v, m);
    var spaced := " " + a + "." + b + ".value";
    SpacedValueParts(a, b);
    SpacedMaxParts(a, b);
    NestedResolves(a, b, v, m);
    SpacedKeyMisses(a, b, v, m);
    assert ColorAt(colors, 0) == colors[0];
    assert StatFor(root, spaced, 0, colors) == MakeStat(Num(v), Undef, colors[0]);
  }

  /**
   * A 0 part-way along the path is falsy, so both walks stop on it and yield
   * it: the stat is a number 0 with max 0, and 0/0 makes the percentage NaN.
   */
  lemma ZeroPartWayStopsWalk(a: string, b: string, colors: seq<string>)
    requires '.' !in a && '.' !in b && a != [] && !IsJsWhitespace(a[0])
    requires |colors| >= 1 && colors[0] != ""
    ensures StatFor(Obj([Field(a, Num(0.0))]), a + "." + b + ".value", 0, colors) ==
      Some(Stat(0.0, 0.0, NonFinite, colors[0]))
  {
    var root := Obj([Field(a, Num(0.0))]);
    ValuePathSplits(a, b);
    ZeroStopsWalk(a, b, "value");
    ZeroStopsWalk(a, b, "max");
    assert ColorAt(colors, 0) == colors[0];
    assert StatFor(root, a + "." + b + ".value", 0, colors) == MakeStat(Num(0.0), Num(0.0), colors[0]);
  }

  /** A walk through `{ a: 0 }` stops on the 0 after its first part. */
  lemma ZeroStopsWalk(a: string, b: string, leaf: string)
    ensures Resolve(Obj([Field(a, Num(0.0))]), [a, b, leaf]) == Num(0.0)
  {
    assert [a, b, leaf][1..] == [b, leaf];
    assert Get(Obj([Field(a, Num(0.0))]), a) == Num(0.0);
  }
}
