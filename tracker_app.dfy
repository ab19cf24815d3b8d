/**
 * The status panel application (`PCStatusTracker`): the rows `getData` derives
 * from the visible character tokens, and the corner arithmetic of `setPosition`.
 * The panel object itself, whose `rendered` flag changes as it is rendered and
 * closed, is a class.
 */
module TrackerApp {
  import opened Wrappers
  import opened JsStrings
  import opened JsValue
  import opened Canvas

  const FallbackColor: string := "gray"

  /** `obj / maxObj * 100`; a zero max gives Infinity or NaN in JavaScript. */
  datatype Percent = Finite(p: real) | NonFinite

  /** One status bar: `{ value, max, pct, color }`. */
  datatype Stat = Stat(value: real, max: real, pct: Percent, color: string)

  /** One panel row: `{ id, name, img, stats }`. */
  datatype TokenRow = TokenRow(id: string, name: string, img: string, stats: seq<Stat>)

  /** `barColors[index] || 'gray'`: the colour at the path's index, unless missing or empty. */
  function ColorAt(colors: seq<string>, index: nat): (c: string)
    ensures index < |colors| && colors[index] != "" ==> c == colors[index]
    ensures index >= |colors| || colors[index] == "" ==> c == FallbackColor
  {
    if index < |colors| && colors[index] != "" then colors[index] else FallbackColor
  }

  /**
   * The stat built from what the value walk and the max walk ended on: none
   * unless the value is a number; the max is the max walk's number, or the value
   * itself; the percentage is value/max x 100 when the max walk gave a number,
   * and 100 otherwise.
   */
  function MakeStat(v: JsVal, m: JsVal, color: string): (r: Option<Stat>)
    ensures r.Some? <==> v.Num?
    ensures r.Some? ==> r.value.value == v.n && r.value.color == color
    ensures r.Some? && m.Num? ==> r.value.max == m.n
    ensures r.Some? && !m.Num? ==> r.value.max == v.n && r.value.pct == Finite(100.0)
    ensures r.Some? && m.Num? && m.n != 0.0 ==> r.value.pct == Finite(v.n / m.n * 100.0)
    ensures r.Some? && m.Num? && m.n == 0.0 ==> r.value.pct == NonFinite
  {
    if !v.Num? then None
    else
      var max := if m.Num? then m.n else v.n;
      var pct := if !m.Num? then Finite(100.0) else if m.n == 0.0 then NonFinite else Finite(v.n / m.n * 100.0);
      Some(Stat(v.n, max, pct, color))
  }

  /** The parts the value walk follows: the path is trimmed, then split on dots. */
  function ValueParts(path: string): (parts: seq<string>)
    ensures |parts| >= 1
    ensures forall k :: 0 <= k < |parts| ==> '.' !in parts[k]
  {
    Split(Trim(path), '.')
  }

  /** The parts the max walk follows: the untrimmed path, with a trailing `.value` made `.max`. */
  function MaxParts(path: string): (parts: seq<string>)
    ensures |parts| >= 1
    ensures forall k :: 0 <= k < |parts| ==> '.' !in parts[k]
  {
    Split(MaxPath(path), '.')
  }

  /** Rejoining either walk's parts on dots gives back the path it split: trimmed, or with `.max` for `.value`. */
  lemma PartsRejoin(path: string)
    ensures Join(ValueParts(path), '.') == Trim(path)
    ensures Join(MaxParts(path), '.') == MaxPath(path)
  {
  }

  /**
   * Round trip between `flattenObject` and the value walk of `getData`: every
   * path listed for an actor, entered as an attribute path, is walked back to
   * the listed value, as long as no key holds a dot or starts or ends with
   * white space (which the value walk trims off).
   */
  lemma FlattenValueWalkRoundTrip(system: JsVal)
    requires system.Obj? && WellFormed(system) && Undotted(system) && EdgeFree(system)
    ensures forall e :: e in Flatten(system) ==> Resolve(system, ValueParts(e.path)) == e.value
  {
    FlattenRoundTrip(system);
    forall e | e in Flatten(system)
      ensures Resolve(system, ValueParts(e.path)) == e.value
    {
      FlattenPathsEdgeFree(system, e);
      assert Trim(e.path) == e.path;
    }
  }

  /** The stat for the attribute path at position `index`, walked from the actor data `root`. */
  function StatFor(root: JsVal, path: string, index: nat, colors: seq<string>): (r: Option<Stat>)
    ensures r.Some? <==> Resolve(root, ValueParts(path)).Num?
    ensures r.Some? ==> r.value.value == Resolve(root, ValueParts(path)).n && r.value.color == ColorAt(colors, index)
    ensures r.Some? && Resolve(root, MaxParts(path)).Num? ==> r.value.max == Resolve(root, MaxParts(path)).n
  {
    var v, m := Resolve(root, ValueParts(path)), Resolve(root, MaxParts(path));
    MakeStat(v, m, ColorAt(colors, index))
  }

  /** `.filter(s => s !== null)`: the present values, in order. */
  function Somes<T(!new)>(s: seq<Option<T>>): (r: seq<T>)
    ensures forall x :: x in r <==> Some(x) in s
    ensures |r| <= |s|
  {
    if s == [] then []
    else
      var init := s[..|s| - 1];
      var r := Somes(init) + (if s[|s| - 1].Some? then [s[|s| - 1].value] else []);
      assert forall o :: o in s <==> o in init || o == s[|s| - 1] by { assert s == init + [s[|s| - 1]]; }
      r
  }

  lemma SomesSnoc<T(!new)>(s: seq<Option<T>>, i: nat)
    requires i < |s|
    ensures Somes(s[..i + 1]) == Somes(s[..i]) + (if s[i].Some? then [s[i].value] else [])
  {
    assert s[..i + 1][..i] == s[..i];
  }

  /** `attributePaths.map((path, index) => ...)`, before nulls are dropped. */
  function StatOptions(root: JsVal, paths: seq<string>, colors: seq<string>): (r: seq<Option<Stat>>)
    ensures |r| == |paths|
    ensures forall i :: 0 <= i < |paths| ==> r[i] == StatFor(root, paths[i], i, colors)
  {
    seq(|paths|, i requires 0 <= i < |paths| => StatFor(root, paths[i], i, colors))
  }

  /** The stats of one actor: one per attribute path that resolves to a number, in path order. */
  function Stats(root: JsVal, paths: seq<string>, colors: seq<string>): (r: seq<Stat>)
    ensures |r| <= |paths|
    ensures forall x :: x in r <==> exists i :: 0 <= i < |paths| && StatFor(root, paths[i], i, colors) == Some(x)
  {
    var opts := StatOptions(root, paths, colors);
    assert forall x :: Some(x) in opts <==> exists i :: 0 <= i < |paths| && opts[i] == Some(x);
    Somes(opts)
  }

  /** The row of one character token. */
  function RowFor(t: Token, paths: seq<string>, colors: seq<string>): (r: TokenRow)
    requires t.actor.Some?
    ensures r.id == t.id && r.name == t.name && r.img == t.img
    ensures |r.stats| <= |paths|
    ensures r.stats == Stats(ActorData(t.actor.value), paths, colors)
  {
    TokenRow(t.id, t.name, t.img, Stats(ActorData(t.actor.value), paths, colors))
  }

  /**
   * The panel's data: one row per visible character token, in canvas order,
   * with the attribute and colour settings split on commas.
   */
  function Rows(tokens: seq<Token>, attributes: string, colors: string): (rows: seq<TokenRow>)
    ensures |rows| == |VisibleCharacters(tokens)|
    ensures forall k :: 0 <= k < |rows| ==>
      VisibleCharacters(tokens)[k].actor.Some? && rows[k] == RowFor(VisibleCharacters(tokens)[k], Split(attributes, ','), Split(colors, ','))
  {
    var pcs := VisibleCharacters(tokens);
    assert forall k :: 0 <= k < |pcs| ==> pcs[k] in pcs;
    var paths, barColors := Split(attributes, ','), Split(colors, ',');
    var rows := RowsOf(pcs, paths, barColors);
    assert forall k :: 0 <= k < |rows| ==> rows[k] == RowFor(pcs[k], paths, barColors) by {
      forall k | 0 <= k < |rows| ensures rows[k] == RowFor(pcs[k], paths, barColors) {
        RowsOfAt(pcs, paths, barColors, k);
      }
    }
    rows
  }

  /** `pcTokens.map(token => ...)`. */
  function RowsOf(pcs: seq<Token>, paths: seq<string>, colors: seq<string>): (rows: seq<TokenRow>)
    requires forall k :: 0 <= k < |pcs| ==> pcs[k].actor.Some?
    ensures |rows| == |pcs|
  {
    if pcs == [] then []
    else RowsOf(pcs[..|pcs| - 1], paths, colors) + [RowFor(pcs[|pcs| - 1], paths, colors)]
  }

  lemma {:induction false} RowsOfAt(pcs: seq<Token>, paths: seq<string>, colors: seq<string>, k: nat)
    requires forall j :: 0 <= j < |pcs| ==> pcs[j].actor.Some?
    requires k < |pcs|
    ensures RowsOf(pcs, paths, colors)[k] == RowFor(pcs[k], paths, colors)
  {
    if k < |pcs| - 1 {
      RowsOfAt(pcs[..|pcs| - 1], paths, colors, k);
    }
  }

  lemma RowsOfPrefix(pcs: seq<Token>, paths: seq<string>, colors: seq<string>, k: nat)
    requires forall j :: 0 <= j < |pcs| ==> pcs[j].actor.Some?
    requires k < |pcs|
    ensures RowsOf(pcs[..k + 1], paths, colors) == RowsOf(pcs[..k], paths, colors) + [RowFor(pcs[k], paths, colors)]
  {
    assert pcs[..k + 1][..k] == pcs[..k];
  }

  /**
   * The rows are exactly the visible character tokens, in canvas order: row `k`
   * belongs to the `k`-th such token, and every such token has its row.
   */
  lemma RowsAreVisibleCharacters(tokens: seq<Token>, attributes: string, colors: string)
    ensures var rows, pcs := Rows(tokens, attributes, colors), VisibleCharacters(tokens);
      |rows| == |pcs| &&
      (forall k :: 0 <= k < |rows| ==>
        pcs[k] in tokens && IsCharacter(pcs[k]) && pcs[k].visible &&
        rows[k].id == pcs[k].id && rows[k].name == pcs[k].name && rows[k].img == pcs[k].img &&
        pcs[k].actor.Some? &&
        rows[k].stats == Stats(ActorData(pcs[k].actor.value), Split(attributes, ','), Split(colors, ',')))
  {
    var pcs := VisibleCharacters(tokens);
    assert forall k :: 0 <= k < |pcs| ==> pcs[k] in pcs;
    var rows := Rows(tokens, attributes, colors);
    forall k | 0 <= k < |rows|
      ensures rows[k].id == pcs[k].id && rows[k].name == pcs[k].name && rows[k].img == pcs[k].img
      ensures rows[k].stats == Stats(ActorData(pcs[k].actor.value), Split(attributes, ','), Split(colors, ','))
    {
      RowsOfAt(pcs, Split(attributes, ','), Split(colors, ','), k);
    }
  }

  /** The stats of one actor, built by the path walks of `getData`. */
  method ActorStats(root: JsVal, paths: seq<string>, colors: seq<string>) returns (stats: seq<Stat>)
    ensures stats == Stats(root, paths, colors)
  {
    stats := [];
    ghost var opts := StatOptions(root, paths, colors);
    var i := 0;
    while i < |paths|
      invariant 0 <= i <= |paths|
      invariant stats == Somes(opts[..i])
    {
      var path := paths[i];
      var obj := WalkPath(root, ValueParts(path));
      var maxObj := WalkPath(root, MaxParts(path));
      var stat := MakeStat(obj, maxObj, ColorAt(colors, i));
      assert stat == opts[i];
      SomesSnoc(opts, i);
      ghost var before := stats;
      if stat.Some? {
        stats := stats + [stat.value];
      }
      assert stats == before + (if opts[i].Some? then [opts[i].value] else []);
      i := i + 1;
    }
    assert opts[..i] == opts;
  }

  /** The row of one character token, its stats built by the path walks. */
  method RowOf(token: Token, paths: seq<string>, colors: seq<string>) returns (row: TokenRow)
    requires token.actor.Some?
    ensures row == RowFor(token, paths, colors)
  {
    var stats := ActorStats(ActorData(token.actor.value), paths, colors);
    row := TokenRow(token.id, token.name, token.img, stats);
  }

  /** `getData`: the rows of the visible character tokens. */
  method GetData(tokens: seq<Token>, attributes: string, colors: string) returns (rows: seq<TokenRow>)
    ensures rows == Rows(tokens, attributes, colors)
  {
    var pcTokens := VisibleCharacters(tokens);
    var attributePaths := Split(attributes, ',');
    var barColors := Split(colors, ',');
    assert forall j :: 0 <= j < |pcTokens| ==> pcTokens[j] in pcTokens;
    rows := [];
    var k := 0;
    while k < |pcTokens|
      invariant 0 <= k <= |pcTokens|
      invariant |rows| == k
      invariant forall j :: 0 <= j < |pcTokens| ==> pcTokens[j].actor.Some?
      invariant rows == RowsOf(pcTokens[..k], attributePaths, barColors)
    {
      var row := RowOf(pcTokens[k], attributePaths, barColors);
      RowsOfPrefix(pcTokens, attributePaths, barColors, k);
      rows := rows + [row];
      k := k + 1;
    }
    assert pcTokens[..k] == pcTokens;
  }

  lemma DivSelf(x: real)
    requires x != 0.0
    ensures x / x * 100.0 == 100.0
  {
  }

  /**
   * A path that is already trimmed and does not end in `.value` is walked
   * unchanged for its max, so its max is its value and its percentage is 100
   * (NaN when the value is 0, as 0/0 is in JavaScript).
   */
  lemma SelfMaxWithoutValueSuffix(root: JsVal, path: string, index: nat, colors: seq<string>)
    requires Trim(path) == path && !EndsWith(path, ".value")
    requires StatFor(root, path, index, colors).Some?
    ensures var s := StatFor(root, path, index, colors).value;
      s.max == s.value && s.pct == (if s.value != 0.0 then Finite(100.0) else NonFinite)
  {
    assert MaxPath(path) == path;
    assert MaxParts(path) == ValueParts(path);
    var v := Resolve(root, ValueParts(path));
    assert StatFor(root, path, index, colors) == MakeStat(v, v, ColorAt(colors, index));
    var x := v.n;
    if x != 0.0 {
      DivSelf(x);
    }
  }

  /**
   * The stats keep the order of the attribute paths, and a stat's colour is
   * chosen by its path's index: adding one more path adds at most one stat, at
   * the end, coloured by that path's position.
   */
  lemma {:induction false} StatsSnoc(root: JsVal, paths: seq<string>, p: string, colors: seq<string>)
    ensures Stats(root, paths + [p], colors) ==
      Stats(root, paths, colors) +
      (match StatFor(root, p, |paths|, colors) case Some(s) => [s] case None => [])
    ensures StatFor(root, p, |paths|, colors).Some? ==>
      StatFor(root, p, |paths|, colors).value.color == ColorAt(colors, |paths|)
  {
    var all := StatOptions(root, paths + [p], colors);
    assert all[..|all| - 1] == StatOptions(root, paths, colors);
  }

  /** The four paddings of the panel, in pixels. */
  datatype Paddings = Paddings(top: real, right: real, bottom: real, left: real)

  /** Where the panel's top-left corner is placed, in pixels from the window's top-left. */
  datatype Placement = Placement(left: real, top: real)

  /**
   * The corner arithmetic of `setPosition`: the position setting is split on
   * `-` into a vertical and a horizontal word; the panel sits `left` padding
   * from the left edge when the horizontal word is "left" (a missing word is
   * not), and otherwise `right` padding from the right edge; likewise `top`
   * padding from the top when the vertical word is "top", else `bottom`
   * padding from the bottom.
   */
  function CornerPosition(position: string, pads: Paddings, windowWidth: real, windowHeight: real,
                          width: real, height: real): (p: Placement)
    ensures p.left == pads.left || p.left + width + pads.right == windowWidth
    ensures p.top == pads.top || p.top + height + pads.bottom == windowHeight
  {
    var words := Split(position, '-');
    var vPos := words[0];
    var hPos: Option<string> := if |words| >= 2 then Some(words[1]) else None;
    var left := if hPos == Some("left") then pads.left else windowWidth - width - pads.right;
    var top := if vPos == "top" then pads.top else windowHeight - height - pads.bottom;
    Placement(left, top)
  }

  /**
   * For every `vertical-horizontal` choice made of dash-free words, the panel
   * keeps exactly the padding of the chosen edges: the left padding from the
   * left edge iff the horizontal word is "left", else the right padding from
   * the right edge, and the top padding from the top iff the vertical word is
   * "top", else the bottom padding from the bottom.
   */
  lemma CornerChoice(vertical: string, horizontal: string, pads: Paddings,
                     windowWidth: real, windowHeight: real, width: real, height: real)
    requires '-' !in vertical && '-' !in horizontal
    ensures CornerPosition(vertical + "-" + horizontal, pads, windowWidth, windowHeight, width, height) ==
      Placement(if horizontal == "left" then pads.left else windowWidth - width - pads.right,
                if vertical == "top" then pads.top else windowHeight - height - pads.bottom)
  {
    assert Join([vertical, horizontal], '-') == vertical + "-" + horizontal by {
      JoinAppend([vertical], horizontal, '-');
    }
    SplitJoin([vertical, horizontal], '-');
  }

  /** Each of the four setting choices puts the panel in the corner it names. */
  lemma TopLeftCorner(pads: Paddings, windowWidth: real, windowHeight: real, width: real, height: real)
    ensures CornerPosition("top-left", pads, windowWidth, windowHeight, width, height) ==
      Placement(pads.left, pads.top)
  {
    assert "top-left" == "top" + "-" + "left";
    CornerChoice("top", "left", pads, windowWidth, windowHeight, width, height);
  }

  lemma TopRightCorner(pads: Paddings, windowWidth: real, windowHeight: real, width: real, height: real)
    ensures CornerPosition("top-right", pads, windowWidth, windowHeight, width, height) ==
      Placement(windowWidth - width - pads.right, pads.top)
  {
    assert "top-right" == "top" + "-" + "right";
    CornerChoice("top", "right", pads, windowWidth, windowHeight, width, height);
  }

  lemma BottomLeftCorner(pads: Paddings, windowWidth: real, windowHeight: real, width: real, height: real)
    ensures CornerPosition("bottom-left", pads, windowWidth, windowHeight, width, height) ==
      Placement(pads.left, windowHeight - height - pads.bottom)
  {
    assert "bottom-left" == "bottom" + "-" + "left";
    CornerChoice("bottom", "left", pads, windowWidth, windowHeight, width, height);
  }

  lemma BottomRightCorner(pads: Paddings, windowWidth: real, windowHeight: real, width: real, height: real)
    ensures CornerPosition("bottom-right", pads, windowWidth, windowHeight, width, height) ==
      Placement(windowWidth - width - pads.right, windowHeight - height - pads.bottom)
  {
    assert "bottom-right" == "bottom" + "-" + "right";
    CornerChoice("bottom", "right", pads, windowWidth, windowHeight, width, height);
  }

  /**
   * A position without a dash has no horizontal word, so the panel goes to the
   * right edge; it goes to the top only if the whole setting is "top".
   */
  lemma UndashedPositionGoesRight(position: string, pads: Paddings,
                                  windowWidth: real, windowHeight: real, width: real, height: real)
    requires '-' !in position
    ensures var p := CornerPosition(position, pads, windowWidth, windowHeight, width, height);
      p.left + width + pads.right == windowWidth &&
      (p.top == pads.top <== position == "top") &&
      (position != "top" ==> p.top + height + pads.bottom == windowHeight)
  {
    SplitJoin([position], '-');
  }

  /**
   * The panel application `PCStatusTracker`. The host's `Application` keeps a
   * `rendered` flag that `render` sets and `close` clears; the model keeps the
   * rows the template was last given and the placement `setPosition` last wrote.
   */
  class StatusTracker {
    var rendered: bool
    var rows: seq<TokenRow>
    var placement: Option<Placement>

    /** `new PCStatusTracker()`: not yet rendered. */
    constructor()
      ensures !rendered && rows == [] && placement == None
    {
      rendered := false;
      rows := [];
      placement := None;
    }

    /** `render(true)`: the template is drawn from `getData`, and the panel is shown. */
    method Render(tokens: seq<Token>, attributes: string, colors: string)
      modifies this
      ensures rendered && rows == Rows(tokens, attributes, colors) && placement == old(placement)
    {
      rows := GetData(tokens, attributes, colors);
      rendered := true;
    }

    /** `refresh()`: renders again from the current data. */
    method Refresh(tokens: seq<Token>, attributes: string, colors: string)
      modifies this
      ensures rendered && rows == Rows(tokens, attributes, colors) && placement == old(placement)
    {
      Render(tokens, attributes, colors);
    }

    /** `close()`: the panel is no longer rendered. */
    method Close()
      modifies this
      ensures !rendered && rows == old(rows) && placement == old(placement)
    {
      rendered := false;
    }

    /**
     * `setPosition()`: nothing while not rendered; otherwise the panel is
     * placed by the corner arithmetic and that placement is returned.
     */
    method SetPosition(position: string, pads: Paddings, windowWidth: real, windowHeight: real,
                       width: real, height: real) returns (applied: Option<Placement>)
      modifies this
      ensures !old(rendered) ==> applied == None && placement == old(placement)
      ensures old(rendered) ==> applied == Some(CornerPosition(position, pads, windowWidth, windowHeight, width, height))
      ensures old(rendered) ==> placement == applied
      ensures rendered == old(rendered) && rows == old(rows)
    {
      if !rendered {
        return None;
      }
      var words := Split(position, '-');
      var vPos := words[0];
      var left: real;
      var top: real;
      if |words| >= 2 && words[1] == "left" {
        left := pads.left;
      } else {
        left := windowWidth - width - pads.right;
      }
      if vPos == "top" {
        top := pads.top;
      } else {
        top := windowHeight - height - pads.bottom;
      }
      applied := Some(Placement(left, top));
      placement := applied;
    }
  }
}
