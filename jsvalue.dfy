/**
 * The host's actor data as a JavaScript value tree, with the three JavaScript
 * semantics the status tracker depends on: truthiness, property lookup
 * `v[key]`, and the `for ... in` order of an object's keys. Also the dotted
 * path walk of `getData` and the `flattenObject` helper of `inspectActor`,
 * which are each other's inverse.
 */
module JsValue {
  import opened Wrappers
  import opened JsStrings

  /** A JavaScript value as it appears in actor data. An object keeps its keys in enumeration order. */
  datatype JsVal =
    | Undef
    | Null
    | Bool(b: bool)
    | Num(n: real)
    | Str(s: string)
    | Arr(elems: seq<JsVal>)
    | Obj(fields: seq<Field>)

  datatype Field = Field(key: string, val: JsVal)

  /** `!!v`: undefined, null, false, 0 and "" are falsy; every array and object is truthy. */
  predicate Truthy(v: JsVal)
    ensures Truthy(v) <==> !(v == Undef || v == Null || v == Bool(false) || v == Num(0.0) || v == Str(""))
  {
    match v
    case Undef => false
    case Null => false
    case Bool(b) => b
    case Num(n) => n != 0.0
    case Str(s) => s != ""
    case Arr(_) => true
    case Obj(_) => true
  }

  /** The value of the first field named `key`, if any. */
  function Lookup(fields: seq<Field>, key: string): (r: Option<JsVal>)
    ensures r.None? <==> forall j :: 0 <= j < |fields| ==> fields[j].key != key
    ensures r.Some? ==> exists j :: 0 <= j < |fields| && fields[j].key == key && fields[j].val == r.value
  {
    if fields == [] then None
    else if fields[0].key == key then Some(fields[0].val)
    else
      var r := Lookup(fields[1..], key);
      assert forall j :: 1 <= j < |fields| ==> fields[j] == fields[1..][j - 1];
      r
  }

  /** No two fields of an object share a key, at any depth: what a JavaScript object guarantees. */
  predicate WellFormed(v: JsVal)
  {
    match v
    case Obj(fields) =>
      (forall j, k :: 0 <= j < k < |fields| ==> fields[j].key != fields[k].key) &&
      (forall j :: 0 <= j < |fields| ==> WellFormed(fields[j].val))
    case Arr(elems) => forall j :: 0 <= j < |elems| ==> WellFormed(elems[j])
    case _ => true
  }

  /** With distinct keys, looking up the key of field `i` finds field `i`. */
  lemma {:induction false} LookupDistinct(fields: seq<Field>, i: nat)
    requires i < |fields|
    requires forall j, k :: 0 <= j < k < |fields| ==> fields[j].key != fields[k].key
    ensures Lookup(fields, fields[i].key) == Some(fields[i].val)
  {
    if i > 0 {
      assert fields[1..][i - 1] == fields[i];
      LookupDistinct(fields[1..], i - 1);
    }
  }

  predicate IsDigit(c: char) { '0' <= c <= '9' }

  function DigitsValue(s: string): nat
    requires forall k :: 0 <= k < |s| ==> IsDigit(s[k])
  {
    if s == [] then 0
    else
      assert IsDigit(s[|s| - 1]);
      DigitsValue(s[..|s| - 1]) * 10 + (s[|s| - 1] as int - '0' as int)
  }

  /** A key that names an array or string index: a decimal numeral without leading zeros. */
  function ParseIndex(key: string): (r: Option<nat>)
    ensures r.Some? <==> key != "" && (forall k :: 0 <= k < |key| ==> IsDigit(key[k])) && (key[0] != '0' || key == "0")
  {
    if key != [] && (forall k :: 0 <= k < |key| ==> IsDigit(key[k])) && (key[0] != '0' || key == "0")
    then Some(DigitsValue(key))
    else None
  }

  /**
   * `v[key]` for a value that is not undefined or null. Objects give their field,
   * arrays and strings their `length` and their elements; every other lookup is
   * undefined. A string's length and indices count its characters (Unicode
   * scalar values), not UTF-16 code units.
   */
  function Get(v: JsVal, key: string): (r: JsVal)
    ensures v.Obj? ==> r == (match Lookup(v.fields, key) case Some(x) => x case None => Undef)
    ensures !(v.Obj? || v.Arr? || v.Str?) ==> r == Undef
  {
    match v
    case Obj(fields) =>
      (match Lookup(fields, key) case Some(x) => x case None => Undef)
    case Arr(elems) =>
      if key == "length" then Num(|elems| as real)
      else (match ParseIndex(key)
            case Some(i) => if i < |elems| then elems[i] else Undef
            case None => Undef)
    case Str(s) =>
      if key == "length" then Num(|s| as real)
      else (match ParseIndex(key)
            case Some(i) => if i < |s| then Str([s[i]]) else Undef
            case None => Undef)
    case _ => Undef
  }

  /** One step of the walk: a falsy value stops it and is kept, otherwise its property is taken. */
  function Step(v: JsVal, key: string): (r: JsVal)
    ensures r == Resolve(v, [key])
  {
    if Truthy(v) then Get(v, key) else v
  }

  /** The value the walk of `getData` ends on: each part is looked up until a falsy value is met. */
  function Resolve(v: JsVal, parts: seq<string>): (r: JsVal)
    ensures parts == [] || !Truthy(v) ==> r == v
    ensures |parts| == 1 && Truthy(v) ==> r == Get(v, parts[0])
    decreases parts
  {
    if parts == [] then v
    else if !Truthy(v) then v
    else Resolve(Get(v, parts[0]), parts[1..])
  }

  /** Walking one more part takes one more step from where the shorter walk ended. */
  lemma {:induction false} ResolveAppend(v: JsVal, parts: seq<string>, key: string)
    ensures Resolve(v, parts + [key]) == Step(Resolve(v, parts), key)
    decreases parts
  {
    if parts == [] {
      assert [key][1..] == [];
    } else if Truthy(v) {
      assert (parts + [key])[1..] == parts[1..] + [key];
      ResolveAppend(Get(v, parts[0]), parts[1..], key);
    }
  }

  /**
   * The walk stops at the first falsy intermediate value and yields it: if the walk
   * of the first `j` parts ends on a falsy value, the whole walk ends on that value.
   */
  lemma {:induction false} ResolveStopsAtFalsy(v: JsVal, parts: seq<string>, j: nat)
    requires j <= |parts|
    requires !Truthy(Resolve(v, parts[..j]))
    ensures Resolve(v, parts) == Resolve(v, parts[..j])
    decreases parts
  {
    if j == 0 {
      assert parts[..0] == [];
    } else if Truthy(v) {
      assert parts[..j][1..] == parts[1..][..j - 1];
      ResolveStopsAtFalsy(Get(v, parts[0]), parts[1..], j - 1);
    }
  }

  /** The `for` loop of `getData` that reassigns `obj` along the path and breaks on a falsy value. */
  method WalkPath(root: JsVal, parts: seq<string>) returns (obj: JsVal)
    ensures obj == Resolve(root, parts)
  {
    obj := root;
    var i := 0;
    while i < |parts|
      invariant 0 <= i <= |parts|
      invariant Resolve(root, parts) == Resolve(obj, parts[i..])
    {
      if !Truthy(obj) {
        break;
      }
      assert parts[i..][1..] == parts[i + 1..];
      obj := Get(obj, parts[i]);
      i := i + 1;
    }
  }

  /** One `{ path, value }` record pushed by `flattenObject`. */
  datatype PathEntry = PathEntry(path: string, value: JsVal)

  /**
   * The records `flattenObject(o, prefix)` pushes for the keys of `o` from the
   * `i`-th on, in `for ... in` order: a plain object (not null, not an array) is
   * descended into with `prefix + key + "."`, anything else is a leaf recorded
   * under `prefix + key`.
   */
  function FlattenFrom(o: JsVal, i: nat, prefix: string): (r: seq<PathEntry>)
    requires o.Obj? && i <= |o.fields|
    ensures forall e :: e in r ==> !e.value.Obj?
    decreases o, |o.fields| - i
  {
    if i == |o.fields| then []
    else
      var f := o.fields[i];
      assert f in o.fields;
      (if f.val.Obj? then FlattenFrom(f.val, 0, prefix + f.key + ".")
       else [PathEntry(prefix + f.key, f.val)])
      + FlattenFrom(o, i + 1, prefix)
  }

  /** Each non-object field from the `i`-th on is recorded under `prefix + key`. */
  lemma {:induction false} FlattenFromRecordsLeaf(o: JsVal, i: nat, prefix: string, j: nat)
    requires o.Obj? && i <= j < |o.fields| && !o.fields[j].val.Obj?
    ensures PathEntry(prefix + o.fields[j].key, o.fields[j].val) in FlattenFrom(o, i, prefix)
    decreases |o.fields| - i
  {
    var f := o.fields[i];
    assert f in o.fields;
    var head := if f.val.Obj? then FlattenFrom(f.val, 0, prefix + f.key + ".")
                else [PathEntry(prefix + f.key, f.val)];
    assert FlattenFrom(o, i, prefix) == head + FlattenFrom(o, i + 1, prefix);
    if j > i {
      FlattenFromRecordsLeaf(o, i + 1, prefix, j);
    }
  }

  /** `flattenObject(system)`: every leaf of an object with its dotted path. */
  function Flatten(system: JsVal): (r: seq<PathEntry>)
    ensures forall e :: e in r ==> !e.value.Obj?
    ensures !system.Obj? ==> r == []
    ensures system.Obj? ==> forall j :: 0 <= j < |system.fields| && !system.fields[j].val.Obj? ==>
      PathEntry(system.fields[j].key, system.fields[j].val) in r
  {
    if system.Obj? then
      var r := FlattenFrom(system, 0, "");
      assert forall j :: 0 <= j < |system.fields| && !system.fields[j].val.Obj? ==>
        PathEntry(system.fields[j].key, system.fields[j].val) in r by {
        forall j | 0 <= j < |system.fields| && !system.fields[j].val.Obj?
          ensures PathEntry(system.fields[j].key, system.fields[j].val) in r
        {
          FlattenFromRecordsLeaf(system, 0, "", j);
          assert "" + system.fields[j].key == system.fields[j].key;
        }
      }
      r
    else []
  }

  /**
   * `flattenObject` as the source writes it: a `for ... in` loop that pushes
   * leaves onto the outer `paths` array and recurses into plain objects.
   */
  method FlattenObject(o: JsVal, prefix: string, paths: seq<PathEntry>) returns (out: seq<PathEntry>)
    requires o.Obj?
    ensures out == paths + FlattenFrom(o, 0, prefix)
    decreases o
  {
    out := paths;
    var i := 0;
    while i < |o.fields|
      invariant 0 <= i <= |o.fields|
      invariant out + FlattenFrom(o, i, prefix) == paths + FlattenFrom(o, 0, prefix)
    {
      var f := o.fields[i];
      assert f in o.fields;
      ghost var before, head, rest := out, FlattenHead(o, i, prefix), FlattenFrom(o, i + 1, prefix);
      FlattenFromUnfold(o, i, prefix);
      if f.val.Obj? {
        out := FlattenObject(f.val, prefix + f.key + ".", out);
      } else {
        out := out + [PathEntry(prefix + f.key, f.val)];
      }
      assert out == before + head;
      SeqAssoc(before, head, rest);
      i := i + 1;
    }
  }

  /** The records `flattenObject` pushes for the `i`-th key alone. */
  function FlattenHead(o: JsVal, i: nat, prefix: string): seq<PathEntry>
    requires o.Obj? && i < |o.fields|
  {
    var f := o.fields[i];
    assert f in o.fields;
    if f.val.Obj? then FlattenFrom(f.val, 0, prefix + f.key + ".") else [PathEntry(prefix + f.key, f.val)]
  }

  lemma FlattenFromUnfold(o: JsVal, i: nat, prefix: string)
    requires o.Obj? && i < |o.fields|
    ensures FlattenFrom(o, i, prefix) == FlattenHead(o, i, prefix) + FlattenFrom(o, i + 1, prefix)
  {
  }

  lemma SeqAssoc<T>(a: seq<T>, b: seq<T>, c: seq<T>)
    ensures (a + b) + c == a + (b + c)
  {
  }

  /** `paths.filter(p => typeof p.value === 'number')`: the candidate attribute paths. */
  function NumericPaths(entries: seq<PathEntry>): (r: seq<PathEntry>)
    ensures forall e :: e in r <==> e in entries && e.value.Num?
    ensures |r| <= |entries|
  {
    if entries == [] then []
    else (if entries[0].value.Num? then [entries[0]] else []) + NumericPaths(entries[1..])
  }

  /** No key of the value's objects, at any depth, holds a dot; arrays are leaves and are not looked into. */
  predicate Undotted(v: JsVal)
  {
    match v
    case Obj(fields) =>
      (forall j :: 0 <= j < |fields| ==> '.' !in fields[j].key) &&
      (forall j :: 0 <= j < |fields| ==> Undotted(fields[j].val))
    case _ => true
  }

  /** The prefix `flattenObject` has built after descending through `keys`. */
  function DottedPrefix(keys: seq<string>): string
  {
    if keys == [] then "" else DottedPrefix(keys[..|keys| - 1]) + keys[|keys| - 1] + "."
  }

  lemma {:induction false} DottedPrefixJoin(keys: seq<string>, k: string)
    ensures DottedPrefix(keys) + k == Join(keys + [k], '.')
  {
    if keys != [] {
      var init, last := keys[..|keys| - 1], keys[|keys| - 1];
      assert init + [last] == keys;
      DottedPrefixJoin(init, last);
      JoinAppend(keys, k, '.');
    }
  }

  lemma {:induction false} FlattenFromResolves(root: JsVal, keys: seq<string>, o: JsVal, i: nat, e: PathEntry)
    requires o.Obj? && i <= |o.fields|
    requires WellFormed(o) && Undotted(o)
    requires forall j :: 0 <= j < |keys| ==> '.' !in keys[j]
    requires Resolve(root, keys) == o
    requires e in FlattenFrom(o, i, DottedPrefix(keys))
    ensures Resolve(root, Split(e.path, '.')) == e.value
    decreases o, |o.fields| - i
  {
    var prefix := DottedPrefix(keys);
    var f := o.fields[i];
    assert f in o.fields;
    var head := if f.val.Obj? then FlattenFrom(f.val, 0, prefix + f.key + ".")
                else [PathEntry(prefix + f.key, f.val)];
    assert FlattenFrom(o, i, prefix) == head + FlattenFrom(o, i + 1, prefix);
    if e in head {
      var keys' := keys + [f.key];
      LookupDistinct(o.fields, i);
      ResolveAppend(root, keys, f.key);
      assert Resolve(root, keys') == f.val;
      assert forall j :: 0 <= j < |keys'| ==> '.' !in keys'[j];
      if f.val.Obj? {
        assert DottedPrefix(keys') == prefix + f.key + "." by {
          assert keys'[..|keys'| - 1] == keys;
        }
        FlattenFromResolves(root, keys', f.val, 0, e);
      } else {
        DottedPrefixJoin(keys, f.key);
        SplitJoin(keys', '.');
      }
    } else {
      FlattenFromResolves(root, keys, o, i + 1, e);
    }
  }

  /**
   * Round trip between `flattenObject` and the path walk: walking the dotted path
   * of any record from the object it was flattened from gives back the record's
   * value, as long as no key holds a dot.
   */
  lemma FlattenRoundTrip(system: JsVal)
    requires system.Obj? && WellFormed(system) && Undotted(system)
    ensures forall e :: e in Flatten(system) ==> Resolve(system, Split(e.path, '.')) == e.value
  {
    forall e | e in Flatten(system)
      ensures Resolve(system, Split(e.path, '.')) == e.value
    {
      FlattenFromResolves(system, [], system, 0, e);
    }
  }

  /** A key that starts and ends with something other than white space. */
  predicate EdgeFreeKey(k: string)
  {
    k != [] && !IsJsWhitespace(k[0]) && !IsJsWhitespace(k[|k| - 1])
  }

  /** Every key anywhere in the objects of the value starts and ends without white space. */
  predicate EdgeFree(v: JsVal)
  {
    match v
    case Obj(fields) =>
      (forall j :: 0 <= j < |fields| ==> EdgeFreeKey(fields[j].key)) &&
      (forall j :: 0 <= j < |fields| ==> EdgeFree(fields[j].val))
    case _ => true
  }

  /**
   * A record pushed under `prefix` extends the prefix by a path that starts and
   * ends with an edge character of some key, when every key is edge-free.
   */
  lemma {:induction false} FlattenPathEdges(o: JsVal, i: nat, prefix: string, e: PathEntry)
    requires o.Obj? && i <= |o.fields| && EdgeFree(o)
    requires e in FlattenFrom(o, i, prefix)
    ensures |e.path| > |prefix| && e.path[..|prefix|] == prefix
    ensures !IsJsWhitespace(e.path[|prefix|]) && !IsJsWhitespace(e.path[|e.path| - 1])
    decreases o, |o.fields| - i
  {
    var f := o.fields[i];
    assert f in o.fields;
    assert EdgeFreeKey(f.key) && EdgeFree(f.val);
    var inner := prefix + f.key + ".";
    var head := if f.val.Obj? then FlattenFrom(f.val, 0, inner) else [PathEntry(prefix + f.key, f.val)];
    assert FlattenFrom(o, i, prefix) == head + FlattenFrom(o, i + 1, prefix);
    if e in head {
      if f.val.Obj? {
        FlattenPathEdges(f.val, 0, inner, e);
        assert e.path[..|inner|] == inner;
        assert e.path[..|prefix|] == inner[..|prefix|] == prefix;
        assert e.path[|prefix|] == inner[|prefix|] == f.key[0];
      } else {
        assert e.path == prefix + f.key;
        assert e.path[|prefix|] == f.key[0];
        assert e.path[|e.path| - 1] == f.key[|f.key| - 1];
      }
    } else {
      FlattenPathEdges(o, i + 1, prefix, e);
    }
  }

  /** With edge-free keys, every path `flattenObject(system)` lists starts and ends without white space. */
  lemma FlattenPathsEdgeFree(system: JsVal, e: PathEntry)
    requires system.Obj? && EdgeFree(system)
    requires e in Flatten(system)
    ensures EdgeFreeKey(e.path)
  {
    FlattenPathEdges(system, 0, "", e);
  }
}
