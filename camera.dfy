/**
 * The camera director: where the viewer's camera goes when a scene is entered,
 * when a combat turn advances, and when a combat ends. Host calls
 * (`canvas.animatePan`, `ui.combat.renderPopout`, `_popout.close`) are returned
 * as commands, in the order the handler issues them.
 */
module Camera {
  import opened Wrappers
  import opened Canvas

  const PaddingFraction: real := 0.1
  const FitMargin: real := 0.8
  const FallbackMaxZoomOut: real := 0.3
  const FallbackZoomIn: real := 1.5
  const FramingDurationMs: real := 1000.0

  /** The argument of `canvas.animatePan`; `duration` is absent when the host's default is used. */
  datatype Pan = Pan(x: real, y: real, scale: real, duration: Option<real>)

  datatype Command =
    | AnimatePan(pan: Pan)
    | RenderCombatPopout
    | CloseCombatPopout

  /** The scene's declared initial view, `canvas.scene.initial`. */
  datatype SceneView = SceneView(x: real, y: real, scale: real)

  /** The active combatant, `combat.combatant`. */
  datatype Combatant = Combatant(tokenId: string)

  function Min(a: real, b: real): real { if a <= b then a else b }
  function Max(a: real, b: real): real { if a >= b then a else b }

  /** `Math.min(...xs)` of a non-empty list: a lower bound that is one of the values. */
  function MinOf(xs: seq<real>): (m: real)
    requires |xs| > 0
    ensures forall k :: 0 <= k < |xs| ==> m <= xs[k]
    ensures exists k :: 0 <= k < |xs| && m == xs[k]
  {
    if |xs| == 1 then xs[0]
    else
      var rest := MinOf(xs[1..]);
      assert forall k :: 1 <= k < |xs| ==> xs[k] == xs[1..][k - 1];
      Min(xs[0], rest)
  }

  /** `Math.max(...xs)` of a non-empty list: an upper bound that is one of the values. */
  function MaxOf(xs: seq<real>): (m: real)
    requires |xs| > 0
    ensures forall k :: 0 <= k < |xs| ==> xs[k] <= m
    ensures exists k :: 0 <= k < |xs| && m == xs[k]
  {
    if |xs| == 1 then xs[0]
    else
      var rest := MaxOf(xs[1..]);
      assert forall k :: 1 <= k < |xs| ==> xs[k] == xs[1..][k - 1];
      Max(xs[0], rest)
  }

  function Lefts(ts: seq<Token>): seq<real> { seq(|ts|, k requires 0 <= k < |ts| => ts[k].x) }
  function Rights(ts: seq<Token>): seq<real> { seq(|ts|, k requires 0 <= k < |ts| => ts[k].x + ts[k].w) }
  function Tops(ts: seq<Token>): seq<real> { seq(|ts|, k requires 0 <= k < |ts| => ts[k].y) }
  function Bottoms(ts: seq<Token>): seq<real> { seq(|ts|, k requires 0 <= k < |ts| => ts[k].y + ts[k].h) }

  datatype Box = Box(left: real, right: real, top: real, bottom: real)
  {
    function Width(): real { right - left }
    function Height(): real { bottom - top }
    function CenterX(): real { (left + right) / 2.0 }
    function CenterY(): real { (top + bottom) / 2.0 }
  }

  /** The bounding box `{left, right, top, bottom}` of the tokens' rectangles, by `Math.min`/`Math.max`. */
  function Bounds(ts: seq<Token>): (b: Box)
    requires |ts| > 0
    ensures forall k :: 0 <= k < |ts| ==>
      b.left <= ts[k].x && ts[k].x + ts[k].w <= b.right && b.top <= ts[k].y && ts[k].y + ts[k].h <= b.bottom
  {
    assert forall k :: 0 <= k < |ts| ==>
      Lefts(ts)[k] == ts[k].x && Rights(ts)[k] == ts[k].x + ts[k].w &&
      Tops(ts)[k] == ts[k].y && Bottoms(ts)[k] == ts[k].y + ts[k].h;
    Box(MinOf(Lefts(ts)), MaxOf(Rights(ts)), MinOf(Tops(ts)), MaxOf(Bottoms(ts)))
  }

  /** Each edge of the bounding box is the matching edge of some token. */
  lemma BoundsAttained(ts: seq<Token>)
    requires |ts| > 0
    ensures exists k :: 0 <= k < |ts| && Bounds(ts).left == ts[k].x
    ensures exists k :: 0 <= k < |ts| && Bounds(ts).right == ts[k].x + ts[k].w
    ensures exists k :: 0 <= k < |ts| && Bounds(ts).top == ts[k].y
    ensures exists k :: 0 <= k < |ts| && Bounds(ts).bottom == ts[k].y + ts[k].h
  {
    var b := Bounds(ts);
    var i :| 0 <= i < |ts| && b.left == Lefts(ts)[i];
    var j :| 0 <= j < |ts| && b.right == Rights(ts)[j];
    var k :| 0 <= k < |ts| && b.top == Tops(ts)[k];
    var l :| 0 <= l < |ts| && b.bottom == Bottoms(ts)[l];
  }

  /** The 10% padding on each side: the padded box is 1.2 times as wide and as high, with the same centre. */
  function Pad(b: Box): (p: Box)
    ensures p.Width() == 1.2 * b.Width() && p.Height() == 1.2 * b.Height()
    ensures p.CenterX() == b.CenterX() && p.CenterY() == b.CenterY()
    ensures b.Width() >= 0.0 && b.Height() >= 0.0 ==>
      p.left <= b.left && b.right <= p.right && p.top <= b.top && b.bottom <= p.bottom
  {
    var px := b.Width() * PaddingFraction;
    var py := b.Height() * PaddingFraction;
    Box(b.left - px, b.right + px, b.top - py, b.bottom + py)
  }

  /** `maxZoomOut || 0.3`: a zero setting falls back to 0.3. */
  function ZoomOutFloor(setting: real): (f: real)
    ensures setting != 0.0 ==> f == setting
    ensures setting == 0.0 ==> f == FallbackMaxZoomOut
  {
    if setting == 0.0 then FallbackMaxZoomOut else setting
  }

  /** `zoomInLevel || 1.5`. */
  function ZoomIn(setting: real): (z: real)
    ensures setting != 0.0 ==> z == setting
    ensures setting == 0.0 ==> z == FallbackZoomIn
  {
    if setting == 0.0 then FallbackZoomIn else setting
  }

  /**
   * The end-of-combat shot for a bounding box, stated on the unpadded box: the
   * camera centre is the box's centre, and the scale is 80% of the largest
   * scale at which the box, grown by a fifth, fits the viewport, raised to the
   * zoom-out floor if it falls below it.
   */
  function FrameBox(b: Box, viewportW: real, viewportH: real, maxZoomOut: real): (p: Pan)
    requires b.Width() > 0.0 && b.Height() > 0.0 && viewportW > 0.0 && viewportH > 0.0
    ensures p.duration == Some(FramingDurationMs)
    ensures p.x == b.CenterX() && p.y == b.CenterY()
    ensures p.scale >= ZoomOutFloor(maxZoomOut)
    ensures p.scale > ZoomOutFloor(maxZoomOut) <==>
      Pad(b).Width() * ZoomOutFloor(maxZoomOut) < FitMargin * viewportW &&
      Pad(b).Height() * ZoomOutFloor(maxZoomOut) < FitMargin * viewportH
  {
    var fit := Min(viewportW / (1.2 * b.Width()), viewportH / (1.2 * b.Height())) * FitMargin;
    var floor := ZoomOutFloor(maxZoomOut);
    FitsAtScale(viewportW, 1.2 * b.Width(), floor);
    FitsAtScale(viewportH, 1.2 * b.Height(), floor);
    Pan(b.CenterX(), b.CenterY(), Max(fit, ZoomOutFloor(maxZoomOut)), Some(FramingDurationMs))
  }

  /**
   * Along one axis: the fit scale `viewport / extent x 0.8` exceeds a scale
   * exactly when the extent at that scale stays under 80% of the viewport.
   */
  lemma FitsAtScale(viewport: real, extent: real, scale: real)
    requires viewport > 0.0 && extent > 0.0
    ensures viewport / extent * FitMargin > scale <==> extent * scale < FitMargin * viewport
  {
    var q := viewport / extent;
    assert extent * q == viewport;
    if q * FitMargin > scale {
      MulMonotoneStrict(extent, scale, q * FitMargin);
    } else {
      MulMonotone(extent, q * FitMargin, scale);
    }
  }

  lemma MulMonotoneStrict(c: real, x: real, y: real)
    requires c > 0.0 && x < y
    ensures c * x < c * y
  {
  }

  /** The bounding box has the positive width and height of any one of its tokens or more. */
  lemma BoundsPositive(pcs: seq<Token>)
    requires |pcs| > 0 && PositiveExtents(pcs)
    ensures Bounds(pcs).Width() > 0.0 && Bounds(pcs).Height() > 0.0
  {
    assert pcs[0].x <= Bounds(pcs).right;
  }

  /** The end-of-combat shot over the visible character tokens. */
  function FramingTarget(pcs: seq<Token>, viewportW: real, viewportH: real, maxZoomOut: real): (p: Pan)
    requires |pcs| > 0 && viewportW > 0.0 && viewportH > 0.0 && PositiveExtents(pcs)
    ensures p.duration == Some(FramingDurationMs)
    ensures p.x == Bounds(pcs).CenterX() && p.y == Bounds(pcs).CenterY()
    ensures p.scale >= ZoomOutFloor(maxZoomOut)
    ensures p.scale > ZoomOutFloor(maxZoomOut) <==>
      Pad(Bounds(pcs)).Width() * ZoomOutFloor(maxZoomOut) < FitMargin * viewportW &&
      Pad(Bounds(pcs)).Height() * ZoomOutFloor(maxZoomOut) < FitMargin * viewportH
  {
    BoundsPositive(pcs);
    FrameBox(Bounds(pcs), viewportW, viewportH, maxZoomOut)
  }

  lemma MulDiv(a: real, d: real)
    requires d > 0.0
    ensures d * (a / d) == a
  {
  }

  lemma MulMonotone(c: real, x: real, y: real)
    requires c > 0.0 && x <= y
    ensures c * x <= c * y
  {
  }

  /**
   * When the floor does not clamp it, the scale fits the padded box into 80% of
   * the viewport in both directions, and exactly fills 80% in one of them.
   */
  lemma {:induction false} FrameBoxFits(b: Box, viewportW: real, viewportH: real, maxZoomOut: real)
    requires b.Width() > 0.0 && b.Height() > 0.0 && viewportW > 0.0 && viewportH > 0.0
    requires FrameBox(b, viewportW, viewportH, maxZoomOut).scale > ZoomOutFloor(maxZoomOut)
    ensures var s := FrameBox(b, viewportW, viewportH, maxZoomOut).scale;
      Pad(b).Width() * s <= FitMargin * viewportW && Pad(b).Height() * s <= FitMargin * viewportH &&
      (Pad(b).Width() * s == FitMargin * viewportW || Pad(b).Height() * s == FitMargin * viewportH)
  {
    var pw, ph := Pad(b).Width(), Pad(b).Height();
    assert pw == 1.2 * b.Width() && ph == 1.2 * b.Height();
    var sx, sy := viewportW / pw, viewportH / ph;
    var s := FrameBox(b, viewportW, viewportH, maxZoomOut).scale;
    assert s == Min(sx, sy) * FitMargin;
    MulDiv(viewportW, pw);
    MulDiv(viewportH, ph);
    if sx <= sy {
      assert s == sx * FitMargin;
      assert pw * s == (pw * sx) * FitMargin;
      MulMonotone(ph, sx, sy);
      assert ph * s == (ph * sx) * FitMargin;
    } else {
      assert s == sy * FitMargin;
      assert ph * s == (ph * sy) * FitMargin;
      MulMonotone(pw, sy, sx);
      assert pw * s == (pw * sy) * FitMargin;
    }
  }

  /**
   * The source's arithmetic, which pads the box in place and measures the
   * padded box, gives the shot stated on the unpadded box.
   */
  lemma PaddedArithmetic(left: real, right: real, top: real, bottom: real,
                         viewportW: real, viewportH: real, maxZoomOut: real)
    requires right - left > 0.0 && bottom - top > 0.0 && viewportW > 0.0 && viewportH > 0.0
    ensures
      var px, py := (right - left) * PaddingFraction, (bottom - top) * PaddingFraction;
      var l, r, t, bt := left - px, right + px, top - py, bottom + py;
      Pan((l + r) / 2.0, (t + bt) / 2.0,
          Max(Min(viewportW / (r - l), viewportH / (bt - t)) * FitMargin, ZoomOutFloor(maxZoomOut)),
          Some(FramingDurationMs))
      == FrameBox(Box(left, right, top, bottom), viewportW, viewportH, maxZoomOut)
  {
    var px, py := (right - left) * PaddingFraction, (bottom - top) * PaddingFraction;
    var l, r, t, bt := left - px, right + px, top - py, bottom + py;
    assert r - l == 1.2 * (right - left);
    assert bt - t == 1.2 * (bottom - top);
  }

  /** The combat-end pan the handler issues, if any. */
  function EndOfCombatShot(tokens: seq<Token>, viewportW: real, viewportH: real, maxZoomOut: real): (r: seq<Command>)
    requires viewportW > 0.0 && viewportH > 0.0 && VisibleCharactersSized(tokens)
    ensures |r| <= 1
    ensures r == [] <==> VisibleCharacters(tokens) == []
    ensures forall c :: c in r ==>
      c.AnimatePan? && c.pan.duration == Some(FramingDurationMs) && c.pan.scale >= ZoomOutFloor(maxZoomOut)
  {
    var pcs := VisibleCharacters(tokens);
    assert PositiveExtents(pcs) by {
      forall k | 0 <= k < |pcs| ensures pcs[k].w > 0.0 && pcs[k].h > 0.0 {
        assert pcs[k] in tokens;
      }
    }
    if pcs == [] then [] else [AnimatePan(FramingTarget(pcs, viewportW, viewportH, maxZoomOut))]
  }

  /**
   * The framing computation of the `deleteCombat` handler, as the source does
   * it: bounds from `Math.min`/`Math.max`, padded in place by 10% of each
   * dimension, centre of the padded box, and a scale that is reassigned by the
   * clamp.
   */
  method FrameTokens(pcs: seq<Token>, viewportW: real, viewportH: real, maxZoomOut: real)
    returns (shot: Pan)
    requires |pcs| > 0 && viewportW > 0.0 && viewportH > 0.0 && PositiveExtents(pcs)
    ensures shot == FramingTarget(pcs, viewportW, viewportH, maxZoomOut)
  {
    BoundsPositive(pcs);
    var left, right := MinOf(Lefts(pcs)), MaxOf(Rights(pcs));
    var top, bottom := MinOf(Tops(pcs)), MaxOf(Bottoms(pcs));
    PaddedArithmetic(left, right, top, bottom, viewportW, viewportH, maxZoomOut);
    var padX := (right - left) * PaddingFraction;
    var padY := (bottom - top) * PaddingFraction;
    left := left - padX;
    right := right + padX;
    top := top - padY;
    bottom := bottom + padY;
    var centerX := (left + right) / 2.0;
    var centerY := (top + bottom) / 2.0;
    var scaleX := viewportW / (right - left);
    var scaleY := viewportH / (bottom - top);
    var scale := Min(scaleX, scaleY) * FitMargin;
    var floor := ZoomOutFloor(maxZoomOut);
    scale := Max(scale, floor);
    shot := Pan(centerX, centerY, scale, Some(FramingDurationMs));
  }

  /**
   * The `deleteCombat` handler: for the viewer only, close the combat popout if
   * one is open, then frame the visible character tokens; no tokens, no pan.
   */
  method OnDeleteCombat(viewer: bool, popoutOpen: bool, tokens: seq<Token>,
                        viewportW: real, viewportH: real, maxZoomOut: real)
    returns (cmds: seq<Command>)
    requires viewportW > 0.0 && viewportH > 0.0 && VisibleCharactersSized(tokens)
    ensures !viewer ==> cmds == []
    ensures viewer ==> cmds == (if popoutOpen then [CloseCombatPopout] else [])
                               + EndOfCombatShot(tokens, viewportW, viewportH, maxZoomOut)
  {
    cmds := [];
    if !viewer {
      return;
    }
    if popoutOpen {
      cmds := cmds + [CloseCombatPopout];
    }
    var pcs := VisibleCharacters(tokens);
    if |pcs| == 0 {
      return;
    }
    assert PositiveExtents(pcs) by {
      forall k | 0 <= k < |pcs| ensures pcs[k].w > 0.0 && pcs[k].h > 0.0 {
        assert pcs[k] in tokens;
      }
    }
    var shot := FrameTokens(pcs, viewportW, viewportH, maxZoomOut);
    cmds := cmds + [AnimatePan(shot)];
  }

  /** With no visible character token the combat-end handler issues no pan, and with one it issues exactly one. */
  lemma EndOfCombatPansIffVisibleCharacters(tokens: seq<Token>, viewportW: real, viewportH: real, maxZoomOut: real)
    requires viewportW > 0.0 && viewportH > 0.0 && VisibleCharactersSized(tokens)
    ensures var r := EndOfCombatShot(tokens, viewportW, viewportH, maxZoomOut);
      (r == []) <==> (forall k :: 0 <= k < |tokens| ==> !(IsCharacter(tokens[k]) && tokens[k].visible))
  {
    var pcs := VisibleCharacters(tokens);
    if pcs != [] {
      assert pcs[0] in tokens;
    } else {
      forall k | 0 <= k < |tokens| ensures !(IsCharacter(tokens[k]) && tokens[k].visible) {
        assert tokens[k] in tokens;
      }
    }
  }

  /** `Math.min` of two values. */
  lemma MinOfPair(x: real, y: real)
    ensures MinOf([x, y]) == Min(x, y)
  {
    assert [x, y][1..] == [y];
  }

  /** `Math.max` of two values. */
  lemma MaxOfPair(x: real, y: real)
    ensures MaxOf([x, y]) == Max(x, y)
  {
    assert [x, y][1..] == [y];
  }

  /** The bounding box of two tokens is read off their four edge pairs. */
  lemma BoundsOfPair(a: Token, b: Token)
    ensures Bounds([a, b]) ==
      Box(Min(a.x, b.x), Max(a.x + a.w, b.x + b.w), Min(a.y, b.y), Max(a.y + a.h, b.y + b.h))
  {
    assert Lefts([a, b]) == [a.x, b.x];
    assert Rights([a, b]) == [a.x + a.w, b.x + b.w];
    assert Tops([a, b]) == [a.y, b.y];
    assert Bottoms([a, b]) == [a.y + a.h, b.y + b.h];
    MinOfPair(a.x, b.x);
    MaxOfPair(a.x + a.w, b.x + b.w);
    MinOfPair(a.y, b.y);
    MaxOfPair(a.y + a.h, b.y + b.h);
  }

  /** Tokens with exactly those edges have that bounding box. */
  lemma TwoTokenBounds(a: Token, b: Token)
    requires a.x == 0.0 && a.y == 0.0 && a.w == 10.0 && a.h == 10.0
    requires b.x == 90.0 && b.y == 90.0 && b.w == 10.0 && b.h == 10.0
    ensures Bounds([a, b]) == Box(0.0, 100.0, 0.0, 100.0)
  {
    BoundsOfPair(a, b);
    assert Min(a.x, b.x) == 0.0 && Min(a.y, b.y) == 0.0;
    assert Max(a.x + a.w, b.x + b.w) == 100.0 && Max(a.y + a.h, b.y + b.h) == 100.0;
  }

  /** Padding the box (0,0)-(100,100) by 10% gives (-10,-10)-(110,110). */
  lemma PadHundredSquare()
    ensures Pad(Box(0.0, 100.0, 0.0, 100.0)) == Box(-10.0, 110.0, -10.0, 110.0)
  {
    var box := Box(0.0, 100.0, 0.0, 100.0);
    assert box.Width() == 100.0 && box.Height() == 100.0;
    assert 100.0 * PaddingFraction == 10.0;
    assert Pad(box) == Box(0.0 - 10.0, 100.0 + 10.0, 0.0 - 10.0, 100.0 + 10.0);
  }

  /**
   * Two 10x10 tokens at (0,0) and (90,90): their bounding box padded by 10% is
   * (-10,-10)-(110,110), and the end-of-combat shot over them is centred on
   * (50,50), whatever the viewport and the floor.
   */
  lemma TwoTokenExample(a: Token, b: Token, viewportW: real, viewportH: real, maxZoomOut: real)
    requires a.x == 0.0 && a.y == 0.0 && a.w == 10.0 && a.h == 10.0
    requires b.x == 90.0 && b.y == 90.0 && b.w == 10.0 && b.h == 10.0
    requires viewportW > 0.0 && viewportH > 0.0
    ensures Pad(Bounds([a, b])) == Box(-10.0, 110.0, -10.0, 110.0)
    ensures PositiveExtents([a, b])
    ensures var p := FramingTarget([a, b], viewportW, viewportH, maxZoomOut); p.x == 50.0 && p.y == 50.0
  {
    TwoTokenBounds(a, b);
    PadHundredSquare();
    assert PositiveExtents([a, b]);
  }

  /** A fit scale below the floor is raised to exactly the floor: a huge box at floor 0.3 gives 0.3. */
  lemma ClampExample(pcs: seq<Token>, viewportW: real, viewportH: real)
    requires |pcs| > 0 && viewportW > 0.0 && viewportH > 0.0 && PositiveExtents(pcs)
    requires Min(viewportW / (1.2 * Bounds(pcs).Width()), viewportH / (1.2 * Bounds(pcs).Height())) * FitMargin == 0.05
    ensures FramingTarget(pcs, viewportW, viewportH, 0.3).scale == 0.3
    ensures FramingTarget(pcs, viewportW, viewportH, 0.0).scale == 0.3
  {
  }

  /**
   * The `canvasReady` handler: for the viewer, when the scene holds no
   * character token at all (visible or not), pan to the scene's initial view
   * at `defaultZoom || initial.scale`.
   */
  method OnCanvasReady(viewer: bool, tokens: seq<Token>, initial: SceneView, defaultZoom: real)
    returns (cmds: seq<Command>)
    ensures |cmds| <= 1
    ensures cmds != [] <==> viewer && forall k :: 0 <= k < |tokens| ==> !IsCharacter(tokens[k])
    ensures cmds != [] ==>
      cmds[0] == AnimatePan(Pan(initial.x, initial.y, if defaultZoom != 0.0 then defaultZoom else initial.scale, None))
  {
    cmds := [];
    if !viewer {
      return;
    }
    var pcTokens := Characters(tokens);
    if |pcTokens| == 0 {
      var zoom := if defaultZoom != 0.0 then defaultZoom else initial.scale;
      cmds := [AnimatePan(Pan(initial.x, initial.y, zoom, None))];
      forall k | 0 <= k < |tokens| ensures !IsCharacter(tokens[k]) {
        assert tokens[k] in tokens;
      }
    } else {
      assert pcTokens[0] in tokens;
    }
  }

  /** The `createCombat` handler: the viewer's combat tracker pops out, when the host offers the popout. */
  method OnCreateCombat(viewer: bool, canRenderPopout: bool) returns (cmds: seq<Command>)
    ensures cmds == [] || cmds == [RenderCombatPopout]
    ensures cmds != [] <==> viewer && canRenderPopout
  {
    cmds := [];
    if !viewer {
      return;
    }
    if canRenderPopout {
      cmds := [RenderCombatPopout];
    }
  }

  /**
   * The `updateCombat` handler: a pan happens only for a turn or round change
   * seen by the viewer, with an active combatant whose token exists and is
   * visible; it goes to the token's centre at `zoomInLevel || 1.5`. A hidden
   * token is never panned to.
   */
  method OnUpdateCombat(changed: set<string>, viewer: bool, active: Option<Combatant>,
                        tokens: seq<Token>, zoomInLevel: real)
    returns (cmds: seq<Command>)
    ensures |cmds| <= 1
    ensures cmds != [] <==>
      ("turn" in changed || "round" in changed) && viewer && active.Some? &&
      FindToken(tokens, active.value.tokenId).Some? && FindToken(tokens, active.value.tokenId).value.visible
    ensures cmds != [] ==>
      var t := FindToken(tokens, active.value.tokenId).value;
      cmds[0] == AnimatePan(Pan(t.centerX, t.centerY, ZoomIn(zoomInLevel), None))
  {
    cmds := [];
    if "turn" !in changed && "round" !in changed {
      return;
    }
    if !viewer {
      return;
    }
    if active.None? {
      return;
    }
    var token := FindToken(tokens, active.value.tokenId);
    if token.None? {
      return;
    }
    if token.value.visible {
      var zoom := ZoomIn(zoomInLevel);
      cmds := [AnimatePan(Pan(token.value.centerX, token.value.centerY, zoom, None))];
    }
  }
}
