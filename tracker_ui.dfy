/**
 * The status panel's lifecycle (`initializeStatusTracker`): one optional panel
 * instance, created at most once, that `setupTracker` closes, creates,
 * renders again or refreshes, and that the update, padding and resize hooks
 * touch only while it is rendered.
 */
module TrackerUi {
  import opened Wrappers
  import opened Settings
  import opened Canvas
  import opened TrackerApp

  /**
   * `shouldShowTracker()`: the `enableStatusTracker` setting is on and the
   * current user is the configured viewer.
   */
  predicate ShouldShowTracker(enable: bool, read: TargetRead, userId: string)
    ensures ShouldShowTracker(enable, read, userId) <==>
      enable && read.Registered? && read.value != "" && read.value == userId
  {
    enable && IsTargetViewer(read, userId)
  }

  /** The tracker is never shown while it is disabled, whoever the viewer is. */
  lemma DisabledNeverShows(read: TargetRead, userId: string)
    ensures !ShouldShowTracker(false, read, userId)
  {
  }

  /** What one `setupTracker()` call did to the panel. */
  datatype SetupAction = NoAction | Closed | Created | Rendered | Refreshed

  /**
   * The branch `setupTracker` takes, from whether the panel should show, whether
   * an instance exists, and whether it is rendered.
   */
  function SetupBranch(show: bool, present: bool, rendered: bool): (a: SetupAction)
    ensures !show ==> (a == Closed <==> present && rendered) && (a == NoAction <==> !(present && rendered))
    ensures show && !present ==> a == Created
    ensures show && present ==> a == (if rendered then Refreshed else Rendered)
  {
    if !show then (if present && rendered then Closed else NoAction)
    else if !present then Created
    else if !rendered then Rendered
    else Refreshed
  }

  /**
   * After `setupTracker`, an existing panel is rendered exactly when it should
   * show, and one exists whenever it should show.
   */
  lemma SetupSettlesRendered(show: bool, present: bool, rendered: bool)
    ensures var a := SetupBranch(show, present, rendered);
      var existsAfter := present || a == Created;
      var renderedAfter := if a == Closed then false else rendered || a in {Created, Rendered, Refreshed};
      (show ==> existsAfter && renderedAfter) && (!show && present ==> !renderedAfter)
  {
  }

  /** The closure state of `initializeStatusTracker`: the `pcTracker` variable. */
  class TrackerController {
    var tracker: StatusTracker?
    /** How many panels this controller has created. */
    ghost var created: nat

    /** At most one panel is ever created, and the variable holds it once it has been. */
    ghost predicate Valid()
      reads this
    {
      created <= 1 && (tracker == null <==> created == 0)
    }

    /** `let pcTracker = null`. */
    constructor()
      ensures Valid() && tracker == null && created == 0
    {
      tracker := null;
      created := 0;
    }

    /**
     * `setupTracker()`: when the panel should not show, a rendered panel is
     * closed and kept; when it should, a missing panel is created and rendered,
     * an unrendered one is rendered, and a rendered one is refreshed.
     */
    method SetupTracker(show: bool, tokens: seq<Token>, attributes: string, colors: string)
      returns (action: SetupAction)
      requires Valid()
      modifies this, tracker
      ensures Valid()
      ensures action == SetupBranch(show, old(tracker) != null, old(tracker) != null && old(tracker.rendered))
      ensures old(tracker) != null ==> tracker == old(tracker) && created == old(created)
      ensures !show ==> tracker == old(tracker)
      ensures !show && tracker != null ==> !tracker.rendered && tracker.rows == old(tracker.rows)
      ensures !show && tracker != null && !old(tracker.rendered) ==> unchanged(tracker)
      ensures show ==> tracker != null && tracker.rendered && tracker.rows == Rows(tokens, attributes, colors)
      ensures show && old(tracker) == null ==> fresh(tracker) && created == 1
    {
      if !show {
        if tracker != null && tracker.rendered {
          tracker.Close();
          action := Closed;
        } else {
          action := NoAction;
        }
        return;
      }
      if tracker == null {
        tracker := new StatusTracker();
        created := created + 1;
        tracker.Render(tokens, attributes, colors);
        action := Created;
      } else if !tracker.rendered {
        tracker.Render(tokens, attributes, colors);
        action := Rendered;
      } else {
        tracker.Refresh(tokens, attributes, colors);
        action := Refreshed;
      }
    }

    /**
     * The token, actor and combat update hooks, and the returned `refresh`
     * handle: the panel is refreshed only while it exists and is rendered.
     */
    method RefreshIfRendered(tokens: seq<Token>, attributes: string, colors: string)
      returns (refreshed: bool)
      requires Valid()
      modifies tracker
      ensures Valid() && tracker == old(tracker)
      ensures refreshed <==> tracker != null && old(tracker.rendered)
      ensures refreshed ==> tracker.rendered && tracker.rows == Rows(tokens, attributes, colors)
      ensures !refreshed && tracker != null ==> unchanged(tracker)
    {
      refreshed := false;
      if tracker != null && tracker.rendered {
        tracker.Refresh(tokens, attributes, colors);
        refreshed := true;
      }
    }

    /**
     * The four padding hooks and the window resize listener: the panel is
     * placed again only while it exists and is rendered.
     */
    method SetPositionIfRendered(position: string, pads: Paddings, windowWidth: real, windowHeight: real,
                                 width: real, height: real)
      returns (applied: Option<Placement>)
      requires Valid()
      modifies tracker
      ensures Valid() && tracker == old(tracker)
      ensures applied.Some? <==> tracker != null && old(tracker.rendered)
      ensures applied.Some? ==>
        applied == Some(CornerPosition(position, pads, windowWidth, windowHeight, width, height)) &&
        tracker.placement == applied && tracker.rendered && tracker.rows == old(tracker.rows)
      ensures applied.None? && tracker != null ==> unchanged(tracker)
    {
      applied := None;
      if tracker != null && tracker.rendered {
        applied := tracker.SetPosition(position, pads, windowWidth, windowHeight, width, height);
      }
    }
  }
}
