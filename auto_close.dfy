/**
 * The auto-close guard (`handleAutoClose`): when a journal or actor sheet is
 * rendered for the configured viewer, a timer is scheduled that closes the
 * sheet after the dwell time if it is still rendered then. Time is replaced by
 * discrete events: a render, the user closing a window, and one pending timer
 * firing.
 */
module AutoClose {

  /** The kinds of application whose render hook the guard listens to, and the rest. */
  datatype AppKind = JournalSheet | ActorSheet | OtherApp(name: string)

  /** The render hooks the guard is registered on: `renderJournalSheet` and `renderActorSheet`. */
  predicate Hooked(kind: AppKind)
    ensures !kind.OtherApp? <==> Hooked(kind)
  {
    kind.JournalSheet? || kind.ActorSheet?
  }

  /**
   * Whether a render schedules a close: only for a hooked sheet, only for the
   * viewer, and only when the dwell time is positive.
   */
  predicate Schedules(kind: AppKind, viewer: bool, dwellTime: real)
    ensures Schedules(kind, viewer, dwellTime) <==>
      (kind == JournalSheet || kind == ActorSheet) && viewer && dwellTime > 0.0
  {
    Hooked(kind) && viewer && dwellTime > 0.0
  }

  /** A zero or negative dwell time never schedules a close, for any window or user. */
  lemma NonPositiveDwellNeverCloses(kind: AppKind, viewer: bool, dwellTime: real)
    requires dwellTime <= 0.0
    ensures !Schedules(kind, viewer, dwellTime)
  {
  }

  /** The windows, the pending timers, and the closes the timers have made. */
  class AutoCloser {
    /** Each known window's `rendered` flag. */
    var rendered: map<nat, bool>
    /** The pending timers, in scheduling order; each names the window it will check. */
    var timers: seq<nat>
    /** The windows the timers have closed, in order. */
    var closes: seq<nat>

    constructor()
      ensures rendered == map[] && timers == [] && closes == []
    {
      rendered := map[];
      timers := [];
      closes := [];
    }

    /**
     * A window of kind `kind` has been rendered: its flag is set, and a timer of
     * its own is added when the guard schedules one. Earlier timers are kept.
     */
    method OnRender(app: nat, kind: AppKind, viewer: bool, dwellTime: real)
      modifies this
      ensures rendered == old(rendered)[app := true]
      ensures timers == old(timers) + (if Schedules(kind, viewer, dwellTime) then [app] else [])
      ensures closes == old(closes)
    {
      rendered := rendered[app := true];
      if Hooked(kind) {
        HandleAutoClose(app, viewer, dwellTime);
      }
    }

    /** `handleAutoClose`: nothing unless the user is the viewer and the dwell time is positive. */
    method HandleAutoClose(app: nat, viewer: bool, dwellTime: real)
      modifies this
      ensures rendered == old(rendered) && closes == old(closes)
      ensures timers == old(timers) + (if viewer && dwellTime > 0.0 then [app] else [])
    {
      if !viewer {
        return;
      }
      if dwellTime > 0.0 {
        timers := timers + [app];
      }
    }

    /** The user closes a window by hand; its pending timers stay pending. */
    method UserClose(app: nat)
      modifies this
      ensures rendered == old(rendered)[app := false]
      ensures timers == old(timers) && closes == old(closes)
    {
      rendered := rendered[app := false];
    }

    /**
     * Pending timer `k` fires and is gone: it closes its window only if that
     * window is still rendered, and reports whether it did.
     */
    method Fire(k: nat) returns (closed: bool)
      requires k < |timers|
      modifies this
      ensures timers == old(timers[..k] + timers[k + 1..])
      ensures var app := old(timers[k]);
        closed <==> app in old(rendered) && old(rendered[app])
      ensures var app := old(timers[k]);
        if closed then rendered == old(rendered)[app := false] && closes == old(closes) + [app]
        else rendered == old(rendered) && closes == old(closes)
    {
      var app := timers[k];
      timers := timers[..k] + timers[k + 1..];
      closed := app in rendered && rendered[app];
      if closed {
        rendered := rendered[app := false];
        closes := closes + [app];
      }
    }
  }
}
