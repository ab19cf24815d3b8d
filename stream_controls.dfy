/**
 * The older single-file build (version 0.4.0) where it differs from the
 * modules: the viewer gate written out inline at each use, a tracker gate that
 * reads the viewer setting without checking that it is registered, and panel
 * placement with a fixed padding of 10 on every edge. Its path walk, stat
 * derivation and camera handlers are the same code as the modules' and are
 * modelled once, in `TrackerApp`, `JsValue` and `Camera`.
 */
module StreamControls {
  import opened Wrappers
  import opened JsStrings
  import opened Settings
  import opened Canvas
  import opened TrackerApp
  import opened TrackerUi
  import opened UiController
  import opened AutoClose

  /** How an inline gate ends: the handler goes on, returns early, or throws out of the handler. */
  datatype GateOutcome = Proceed | Skip | Throws

  /**
   * The inline gate of the visibility pass and of `handleAutoClose`: return
   * unless `targetUser` is registered; read it (a read that throws escapes the
   * handler); return unless it is non-empty and names the current user.
   */
  function InlineGate(read: TargetRead, userId: string): (g: GateOutcome)
    ensures g == Throws <==> read == ReadThrows
    ensures g == Proceed <==> read.Registered? && read.value != "" && read.value == userId
  {
    match read
    case Unregistered => Skip
    case ReadThrows => Throws
    case Registered(target) => if target == "" || userId != target then Skip else Proceed
  }

  /**
   * Where the inline gate does not throw it agrees with `isTargetViewer`; where
   * it throws, `isTargetViewer` says no.
   */
  lemma InlineGateAgrees(read: TargetRead, userId: string)
    ensures InlineGate(read, userId) != Throws ==>
      (InlineGate(read, userId) == Proceed <==> IsTargetViewer(read, userId))
    ensures InlineGate(read, userId) == Throws ==> !IsTargetViewer(read, userId)
  {
  }

  /**
   * The single-file `shouldShowTracker`: false while disabled; otherwise the
   * setting is read without checking that it is registered, so an unregistered
   * setting throws as a failing read does.
   */
  function LegacyShouldShowTracker(enable: bool, read: TargetRead, userId: string): (g: GateOutcome)
    ensures !enable ==> g == Skip
    ensures enable ==> (g == Throws <==> !read.Registered?)
    ensures g == Proceed <==> enable && read.Registered? && read.value != "" && read.value == userId
  {
    if !enable then Skip
    else match read
      case Registered(target) => if target != "" && userId == target then Proceed else Skip
      case _ => Throws
  }

  /**
   * Where the single-file tracker gate does not throw it agrees with the
   * modules' `shouldShowTracker`; the two differ only on an enabled tracker
   * whose viewer setting cannot be read, where the modules answer no.
   */
  lemma LegacyShouldShowAgrees(enable: bool, read: TargetRead, userId: string)
    ensures LegacyShouldShowTracker(enable, read, userId) != Throws ==>
      (LegacyShouldShowTracker(enable, read, userId) == Proceed <==> ShouldShowTracker(enable, read, userId))
    ensures LegacyShouldShowTracker(enable, read, userId) == Throws ==>
      enable && !read.Registered? && !ShouldShowTracker(enable, read, userId)
  {
  }

  /**
   * The single-file `setupTracker`: a throwing gate leaves the panel as it was;
   * otherwise it is the modules' state machine driven by the gate's answer.
   */
  method LegacySetupTracker(c: TrackerController, enable: bool, read: TargetRead, userId: string,
                            tokens: seq<Token>, attributes: string, colors: string)
    returns (g: GateOutcome, action: SetupAction)
    requires c.Valid()
    modifies c, c.tracker
    ensures c.Valid()
    ensures g == LegacyShouldShowTracker(enable, read, userId)
    ensures g == Throws ==> action == NoAction && c.tracker == old(c.tracker) && c.created == old(c.created)
    ensures g == Throws && c.tracker != null ==> unchanged(c.tracker)
    ensures g != Throws ==>
      action == SetupBranch(g == Proceed, old(c.tracker) != null, old(c.tracker) != null && old(c.tracker.rendered))
    ensures g == Proceed ==> c.tracker != null && c.tracker.rendered && c.tracker.rows == Rows(tokens, attributes, colors)
    ensures g == Skip && c.tracker != null ==> !c.tracker.rendered && c.tracker == old(c.tracker)
  {
    g := LegacyShouldShowTracker(enable, read, userId);
    if g == Throws {
      return g, NoAction;
    }
    action := c.SetupTracker(g == Proceed, tokens, attributes, colors);
  }

  /** The single-file visibility pass: the inline gate, then the same pass as the modules'. */
  method LegacyApplyVisibilitySettings(doc: Document, read: TargetRead, userId: string, s: VisibilitySettings)
    returns (g: GateOutcome)
    modifies doc
    ensures g == InlineGate(read, userId)
    ensures doc.styles == if g == Proceed then Applied(old(doc.styles), s) else old(doc.styles)
  {
    g := InlineGate(read, userId);
    if g != Proceed {
      return;
    }
    doc.ApplyPass(s);
  }

  /**
   * The single-file `handleAutoClose` on a rendered window: a timer is added
   * only for a hooked sheet, the inline gate proceeding, and a positive dwell time.
   */
  method LegacyOnRender(closer: AutoCloser, app: nat, kind: AppKind, read: TargetRead, userId: string,
                        dwellTime: real)
    returns (g: GateOutcome)
    modifies closer
    ensures Hooked(kind) ==> g == InlineGate(read, userId)
    ensures !Hooked(kind) ==> g == Skip
    ensures closer.rendered == old(closer.rendered)[app := true] && closer.closes == old(closer.closes)
    ensures closer.timers == old(closer.timers) +
      (if Hooked(kind) && InlineGate(read, userId) == Proceed && dwellTime > 0.0 then [app] else [])
  {
    g := if Hooked(kind) then InlineGate(read, userId) else Skip;
    closer.OnRender(app, kind, g == Proceed, dwellTime);
  }

  /** The fixed padding of the single-file `setPosition`. */
  const LegacyPadding: real := 10.0

  /** The single-file corner arithmetic: every edge keeps the same fixed padding. */
  function LegacyCornerPosition(position: string, windowWidth: real, windowHeight: real,
                                width: real, height: real): (p: Placement)
    ensures p.left == LegacyPadding || p.left + width + LegacyPadding == windowWidth
    ensures p.top == LegacyPadding || p.top + height + LegacyPadding == windowHeight
  {
    var words := Split(position, '-');
    var left := if |words| >= 2 && words[1] == "left" then LegacyPadding else windowWidth - width - LegacyPadding;
    var top := if words[0] == "top" then LegacyPadding else windowHeight - height - LegacyPadding;
    Placement(left, top)
  }

  /** The fixed padding is the modules' corner arithmetic with all four paddings 10. */
  lemma LegacyCornerIsUniformPadding(position: string, windowWidth: real, windowHeight: real,
                                     width: real, height: real)
    ensures LegacyCornerPosition(position, windowWidth, windowHeight, width, height) ==
      CornerPosition(position, Paddings(10.0, 10.0, 10.0, 10.0), windowWidth, windowHeight, width, height)
  {
  }

  /**
   * With the modules' padding settings at their defaults, both builds place the
   * panel in the same spot.
   */
  lemma DefaultPaddingsMatchLegacy(position: string, windowWidth: real, windowHeight: real,
                                   width: real, height: real)
    ensures forall k :: k in PaddingKeys ==> DefaultOf(k) == Some(NumberDefault(LegacyPadding))
    ensures LegacyCornerPosition(position, windowWidth, windowHeight, width, height) ==
      CornerPosition(position, Paddings(DefaultOf(PaddingKeys[0]).value.n, DefaultOf(PaddingKeys[1]).value.n,
                                        DefaultOf(PaddingKeys[2]).value.n, DefaultOf(PaddingKeys[3]).value.n),
                     windowWidth, windowHeight, width, height)
  {
    LegacyCornerIsUniformPadding(position, windowWidth, windowHeight, width, height);
  }
}
