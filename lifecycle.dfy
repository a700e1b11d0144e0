/**
 * The callout lifecycle as values: the registry of callouts, the display
 * state (pending id, current callout, delay, display frame, safe area), the
 * persisted counters and the single dismiss-handler slot, with one function
 * per transition. The class in module Display performs these transitions
 * in place and is proved to agree with them.
 *
 * The onDismiss closure is a token; every invocation of the stored handler
 * is appended to dismissLog.
 */
module Lifecycle {
  import opened Wrappers
  import opened Geometry
  import opened Counters
  import CalloutPlacement
  import CalloutShape

  /** Stands in for an onDismiss closure. */
  type Handler = nat

  /** The empty closure stored before any show. */
  const NoHandler: Handler := 0

  /** The delay before the first callout appears. */
  const InitialDelay: real := 0.75

  datatype Guides = Guides(
    list: map<string, Info>,
    pendingCalloutID: Option<string>,
    currentCallout: Option<Info>,
    calloutDelay: real,
    displayFrame: Rect,
    safeArea: Insets,
    settings: Settings,
    onDismiss: Handler,
    dismissLog: seq<Handler>)

  /** The callout with this id is the one on screen. */
  predicate Visible(s: Guides, id: string)
  {
    s.currentCallout.Some? && s.currentCallout.value.id == id
  }

  /** The callout with this id is neither on screen nor waiting to be. */
  predicate Hidden(s: Guides, id: string)
  {
    s.pendingCalloutID != Some(id) && !Visible(s, id)
  }

  /**
   * What every reachable state satisfies: a callout is never pending and
   * current at once, every registry entry carries its own key as id, and
   * the current callout is one the registry knows.
   */
  predicate Valid(s: Guides)
  {
    && !(s.pendingCalloutID.Some? && s.currentCallout.Some?)
    && (forall k :: k in s.list ==> s.list[k].id == k)
    && (s.currentCallout.Some? ==> s.currentCallout.value.id in s.list)
  }

  /** The state at start-up; the counters are whatever was persisted. */
  function Init(persisted: Settings): (s: Guides)
    ensures Valid(s)
    ensures forall id :: Hidden(s, id)
    ensures s.list == map[] && s.pendingCalloutID == None && s.currentCallout == None
    ensures s.calloutDelay == 0.75
    ensures s.displayFrame == Rect(Point(0.0, 0.0), Size(0.0, 0.0))
    ensures s.safeArea == Insets(0.0, 0.0, 0.0, 0.0)
    ensures s.settings == persisted
    ensures s.onDismiss == NoHandler && s.dismissLog == []
  {
    Guides(map[], None, None, InitialDelay, ZeroRect, ZeroInsets, persisted, NoHandler, [])
  }

  /** show: replaces whatever is current or pending by this id, after the
      given delay, and replaces the one global dismiss handler. */
  function Show(s: Guides, id: string, delay: real, handler: Handler): (r: Guides)
    ensures Valid(s) ==> Valid(r)
  {
    s.(calloutDelay := delay, currentCallout := None, pendingCalloutID := Some(id), onDismiss := handler)
  }

  /** closeCurrent: nothing current, nothing pending. */
  function CloseCurrent(s: Guides): (r: Guides)
    ensures Valid(s) ==> Valid(r)
    ensures forall id :: Hidden(r, id)
  {
    s.(currentCallout := None, pendingCalloutID := None)
  }

  /** close: acts only when this id is current; with dismissal it also counts
      the dismissal and invokes the stored handler. */
  function Close(s: Guides, id: string, withDismissal: bool): (r: Guides)
    ensures Valid(s) ==> Valid(r)
  {
    if Visible(s, id) then
      var closed := CloseCurrent(s);
      if withDismissal then
        closed.(settings := IncrementCount(closed.settings, DismissedKey(id)),
                dismissLog := closed.dismissLog + [closed.onDismiss])
      else closed
    else s
  }

  /** close of the package variant, which keeps no counters. */
  function PackageClose(s: Guides, id: string, withDismissal: bool): (r: Guides)
    ensures Valid(s) ==> Valid(r)
  {
    if Visible(s, id) then
      var closed := CloseCurrent(s);
      if withDismissal then closed.(dismissLog := closed.dismissLog + [closed.onDismiss])
      else closed
    else s
  }

  /** showUntilDismissed: once dismissed, closes with dismissal instead of showing. */
  function ShowUntilDismissed(s: Guides, id: string, delay: real, handler: Handler): (r: Guides)
    ensures Valid(s) ==> Valid(r)
  {
    if Count(s.settings, DismissedKey(id)) > 0 then Close(s, id, true)
    else Show(s, id, delay, handler)
  }

  /** showUntilActedUpon: once acted upon, does nothing. */
  function ShowUntilActedUpon(s: Guides, id: string, delay: real, handler: Handler): (r: Guides)
    ensures Valid(s) ==> Valid(r)
  {
    if Count(s.settings, ActedUponKey(id)) > 0 then s
    else Show(s, id, delay, handler)
  }

  /** actUpon: counts the action, then closes without dismissal. */
  function ActUpon(s: Guides, id: string): (r: Guides)
    ensures Valid(s) ==> Valid(r)
  {
    Close(s.(settings := IncrementCount(s.settings, ActedUponKey(id))), id, false)
  }

  /** hasBeenActedUpon: a positive count is stored under the acted-upon key. */
  function HasBeenActedUpon(s: Guides, id: string): (acted: bool)
    ensures acted <==> ActedUponKey(id) in s.settings && s.settings[ActedUponKey(id)] > 0
  {
    Count(s.settings, ActedUponKey(id)) > 0
  }

  /** resetAll: an empty counter record. */
  function ResetAll(s: Guides): (r: Guides)
    ensures Valid(s) ==> Valid(r)
    ensures forall k :: Count(r.settings, k) == 0
  {
    s.(settings := Cleared())
  }

  /** remove: close without dismissal, then drop the registry entry. */
  function Remove(s: Guides, id: string): (r: Guides)
    ensures Valid(s) ==> Valid(r)
    ensures id !in r.list
  {
    var closed := Close(s, id, false);
    closed.(list := closed.list - {id})
  }

  /** showPendingCallout: the pending id becomes current, as a snapshot of
      its registry entry (none if it is no longer registered). */
  function ShowPendingCallout(s: Guides): (r: Guides)
    ensures Valid(s) ==> Valid(r)
    ensures r.pendingCalloutID == None
  {
    match s.pendingCalloutID
    case None => s
    case Some(p) =>
      s.(currentCallout := if p in s.list then Some(s.list[p]) else None,
         pendingCalloutID := None,
         calloutDelay := 0.0)
  }

  /** The delay timer fires: the pending callout, if any, is shown. */
  function TimerFired(s: Guides): (r: Guides)
    ensures Valid(s) ==> Valid(r)
  {
    if s.pendingCalloutID.Some? then ShowPendingCallout(s) else s
  }

  /** reshowCurrentCallout: the current callout goes back to pending, so the
      next timer tick lays it out afresh. */
  function ReshowCurrentCallout(s: Guides): (r: Guides)
    ensures Valid(s) ==> Valid(r)
    ensures r.currentCallout == None || r == s
  {
    if s.currentCallout.Some? && s.pendingCalloutID == None then
      s.(currentCallout := None, pendingCalloutID := Some(s.currentCallout.value.id))
    else s
  }

  /** updateGuideDisplay: records the display's frame and safe area, then
      re-shows the current callout. */
  function UpdateGuideDisplay(s: Guides, frame: Rect, safeArea: Insets): (r: Guides)
    ensures Valid(s) ==> Valid(r)
    ensures r.displayFrame == frame && r.safeArea == safeArea
  {
    var updated := s.(displayFrame := frame, safeArea := safeArea);
    if updated.currentCallout.Some? && updated.pendingCalloutID == None then
      updated.(pendingCalloutID := Some(updated.currentCallout.value.id), currentCallout := None)
    else updated
  }

  /** The anchor's global frame moved by the callout's offset. */
  function AnchorFrame(globalFrame: Rect, offset: Point): Rect
  {
    var frame := globalFrame;
    frame.(origin := Point(frame.origin.x + offset.x, frame.origin.y + offset.y))
  }

  /** The anchor's layout pass: creates the entry for this id if there is
      none, then records placement, offset and anchor rectangle. */
  function TrackAnchor(s: Guides, id: string, globalFrame: Rect, placement: Placement,
                       offset: Point, view: ViewToken): (r: Guides)
    ensures Valid(s) ==> Valid(r)
  {
    var guide := if id in s.list then s.list[id] else NewInfo(id, view);
    var guide' := guide.(placement := placement, offset := offset, sourceViewRect := AnchorFrame(globalFrame, offset));
    s.(list := s.list[id := guide'])
  }

  /** The bubble's layout pass: places the registered callout on the side
      its placement names and writes the entry back. */
  function LayoutCallout(s: Guides, id: string, measured: Size, outlineSize: real,
                         platform: CalloutPlacement.Platform): (r: Guides)
    ensures Valid(s) ==> Valid(r)
  {
    if id in s.list then
      var placed := CalloutPlacement.Placed(s.list[id], measured, s.displayFrame.size.width,
                                            s.safeArea.top, outlineSize, platform);
      s.(list := s.list[id := placed])
    else s
  }

  // ---------------------------------------------------------------------
  // Properties of single transitions and of short sequences of them.
  // ---------------------------------------------------------------------

  /** A shown callout appears when the timer fires, as its current registry
      entry, with the delay reset for the next show. */
  lemma ShowThenTimerPresents(s: Guides, id: string, delay: real, handler: Handler)
    ensures var r := TimerFired(Show(s, id, delay, handler));
            && r.currentCallout == (if id in s.list then Some(s.list[id]) else None)
            && r.pendingCalloutID == None
            && r.calloutDelay == 0.0
            && r.onDismiss == handler
            && r.list == s.list && r.settings == s.settings && r.dismissLog == s.dismissLog
  {
  }

  /** A later show supersedes an earlier one completely: the earlier id and
      its handler are forgotten, and when the timer fires only the later
      callout can appear. */
  lemma LaterShowSupersedes(s: Guides, a: string, b: string, d1: real, d2: real, h1: Handler, h2: Handler)
    ensures Show(Show(s, a, d1, h1), b, d2, h2) == Show(s, b, d2, h2)
    ensures Valid(s) && a != b ==> !Visible(TimerFired(Show(Show(s, a, d1, h1), b, d2, h2)), a)
  {
    var r := TimerFired(Show(s, b, d2, h2));
    if Valid(s) && b in s.list {
      assert r.currentCallout == Some(s.list[b]);
      assert s.list[b].id == b;
    }
  }

  /** close leaves the state exactly as it was if and only if the id is not
      the current callout; a pending-only id is not closed. */
  lemma CloseActsOnlyOnCurrent(s: Guides, id: string, withDismissal: bool)
    ensures Close(s, id, withDismissal) == s <==> !Visible(s, id)
    ensures PackageClose(s, id, withDismissal) == s <==> !Visible(s, id)
  {
  }

  /** Closing the current callout clears current and pending; with
      dismissal its dismissal count rises by exactly one and the stored
      handler runs once, without dismissal neither happens. No other count
      and not the registry changes. */
  lemma CloseVisibleCallout(s: Guides, id: string, withDismissal: bool)
    requires Visible(s, id)
    ensures var r := Close(s, id, withDismissal);
            && r.currentCallout == None && r.pendingCalloutID == None
            && r.list == s.list && r.onDismiss == s.onDismiss
            && (withDismissal ==> Count(r.settings, DismissedKey(id)) == Count(s.settings, DismissedKey(id)) + 1
                                  && r.dismissLog == s.dismissLog + [s.onDismiss])
            && (!withDismissal ==> r.settings == s.settings && r.dismissLog == s.dismissLog)
            && (forall k :: k != DismissedKey(id) ==> Count(r.settings, k) == Count(s.settings, k))
  {
  }

  /** The package variant behaves exactly like close except that it never
      touches the counters; without dismissal the two coincide. */
  lemma PackageCloseKeepsCounters(s: Guides, id: string, withDismissal: bool)
    ensures PackageClose(s, id, withDismissal) == Close(s, id, withDismissal).(settings := s.settings)
    ensures PackageClose(s, id, false) == Close(s, id, false)
  {
  }

  /** Once dismissed, showUntilDismissed never queues the callout, leaves
      the handler and delay alone, and leaves the callout off screen. */
  lemma ShowUntilDismissedSuppressed(s: Guides, id: string, delay: real, handler: Handler)
    requires Count(s.settings, DismissedKey(id)) > 0
    ensures var r := ShowUntilDismissed(s, id, delay, handler);
            && (r.pendingCalloutID == Some(id) ==> s.pendingCalloutID == Some(id))
            && !Visible(r, id)
            && r.onDismiss == s.onDismiss && r.calloutDelay == s.calloutDelay
            && r.list == s.list
            && Count(r.settings, DismissedKey(id)) >= Count(s.settings, DismissedKey(id))
  {
  }

  /** Never dismissed, showUntilDismissed is show. */
  lemma ShowUntilDismissedShows(s: Guides, id: string, delay: real, handler: Handler)
    requires Count(s.settings, DismissedKey(id)) <= 0
    ensures ShowUntilDismissed(s, id, delay, handler) == Show(s, id, delay, handler)
  {
  }

  /** Once acted upon, showUntilActedUpon changes nothing; before, it is show. */
  lemma ShowUntilActedUponGate(s: Guides, id: string, delay: real, handler: Handler)
    ensures HasBeenActedUpon(s, id) ==> ShowUntilActedUpon(s, id, delay, handler) == s
    ensures !HasBeenActedUpon(s, id) ==> ShowUntilActedUpon(s, id, delay, handler) == Show(s, id, delay, handler)
  {
  }

  /** actUpon raises the callout's acted-upon count by one, so it has been
      acted upon afterwards; it closes the callout if current, and touches
      no dismissal count, not the handler and not the registry. */
  lemma ActUponEffect(s: Guides, id: string)
    ensures var r := ActUpon(s, id);
            && Count(r.settings, ActedUponKey(id)) == Count(s.settings, ActedUponKey(id)) + 1
            && (Count(s.settings, ActedUponKey(id)) >= 0 ==> HasBeenActedUpon(r, id))
            && (forall x :: Count(r.settings, DismissedKey(x)) == Count(s.settings, DismissedKey(x)))
            && r.dismissLog == s.dismissLog && r.onDismiss == s.onDismiss
            && !Visible(r, id) && r.list == s.list
  {
    var r := ActUpon(s, id);
    forall x ensures Count(r.settings, DismissedKey(x)) == Count(s.settings, DismissedKey(x)) {
      DismissedIsNotActedUpon(x, id);
    }
  }

  /** actUpon of a callout that is pending but not yet on screen counts the
      action but does not close it, since close acts only on the current
      callout: it stays pending, and the next timer tick shows it although
      it has been acted upon. */
  lemma ActUponLeavesPending(s: Guides, id: string)
    requires Valid(s) && s.pendingCalloutID == Some(id) && id in s.list
    requires Count(s.settings, ActedUponKey(id)) >= 0
    ensures ActUpon(s, id).pendingCalloutID == Some(id)
    ensures HasBeenActedUpon(ActUpon(s, id), id)
    ensures Visible(TimerFired(ActUpon(s, id)), id)
  {
    ActUponEffect(s, id);
    assert s.list[id].id == id;
  }

  /** Acting upon a callout twice keeps it acted upon, and after acting upon
      it showUntilActedUpon leaves the state alone. */
  lemma ActUponIsStable(s: Guides, id: string, delay: real, handler: Handler)
    requires Count(s.settings, ActedUponKey(id)) >= 0
    ensures HasBeenActedUpon(ActUpon(s, id), id)
    ensures HasBeenActedUpon(ActUpon(ActUpon(s, id), id), id)
    ensures ShowUntilActedUpon(ActUpon(s, id), id, delay, handler) == ActUpon(s, id)
  {
    ActUponEffect(s, id);
    ActUponEffect(ActUpon(s, id), id);
  }

  /** After resetAll, both guarded shows behave exactly like show. */
  lemma ResetAllReenables(s: Guides, id: string, delay: real, handler: Handler)
    ensures ShowUntilDismissed(ResetAll(s), id, delay, handler) == Show(ResetAll(s), id, delay, handler)
    ensures ShowUntilActedUpon(ResetAll(s), id, delay, handler) == Show(ResetAll(s), id, delay, handler)
  {
  }

  /** remove drops only this registry entry and closes the callout if it is
      current; a callout that is only pending stays pending. */
  lemma RemoveEffect(s: Guides, id: string)
    ensures var r := Remove(s, id);
            && r.list == s.list - {id}
            && (Visible(s, id) ==> r.currentCallout == None && r.pendingCalloutID == None)
            && (!Visible(s, id) ==> r.currentCallout == s.currentCallout && r.pendingCalloutID == s.pendingCalloutID)
            && r.settings == s.settings && r.dismissLog == s.dismissLog
  {
  }

  /** closeCurrent is idempotent. */
  lemma CloseCurrentIdempotent(s: Guides)
    ensures CloseCurrent(CloseCurrent(s)) == CloseCurrent(s)
  {
  }

  /** With nothing pending, neither the timer nor showPendingCallout changes
      anything. */
  lemma TimerIdleWithoutPending(s: Guides)
    requires s.pendingCalloutID == None
    ensures TimerFired(s) == s && ShowPendingCallout(s) == s
  {
  }

  /** Re-showing the current callout and letting the timer fire brings back
      the same callout, as its latest registry entry; re-showing twice is
      re-showing once. */
  lemma ReshowRoundTrip(s: Guides)
    requires Valid(s) && s.currentCallout.Some?
    ensures var id := s.currentCallout.value.id;
            TimerFired(ReshowCurrentCallout(s)).currentCallout == Some(s.list[id])
    ensures ReshowCurrentCallout(ReshowCurrentCallout(s)) == ReshowCurrentCallout(s)
  {
  }

  /** A display update is a re-show with the new frame and safe area. */
  lemma UpdateIsReshow(s: Guides, frame: Rect, safeArea: Insets)
    ensures UpdateGuideDisplay(s, frame, safeArea)
         == ReshowCurrentCallout(s).(displayFrame := frame, safeArea := safeArea)
  {
  }

  /**
   * An anchor's layout pass writes only its own entry: the anchor rectangle
   * is the global frame moved by the offset, placement and offset are the
   * given ones; an existing entry keeps its view, bubble rectangle and arrow
   * offset, a new one gets the given view and zero geometry.
   */
  lemma TrackAnchorUpsert(s: Guides, id: string, globalFrame: Rect, placement: Placement,
                          offset: Point, view: ViewToken)
    requires Valid(s)
    ensures var r := TrackAnchor(s, id, globalFrame, placement, offset, view);
            && r.(list := s.list) == s
            && r.list.Keys == s.list.Keys + {id}
            && (forall k :: k in s.list && k != id ==> r.list[k] == s.list[k])
            && r.list[id].id == id
            && r.list[id].placement == placement && r.list[id].offset == offset
            && r.list[id].sourceViewRect.size == globalFrame.size
            && r.list[id].sourceViewRect.origin == Point(globalFrame.origin.x + offset.x, globalFrame.origin.y + offset.y)
            && (id in s.list ==>
                  r.list[id].view == s.list[id].view
                  && r.list[id].calloutRect == s.list[id].calloutRect
                  && r.list[id].arrowOffset == s.list[id].arrowOffset)
            && (id !in s.list ==>
                  r.list[id].view == view
                  && r.list[id].calloutRect == ZeroRect && r.list[id].arrowOffset == 0.0)
  {
  }

  /** Repeating an anchor's layout pass with the same geometry changes nothing. */
  lemma TrackAnchorIdempotent(s: Guides, id: string, globalFrame: Rect, placement: Placement,
                              offset: Point, view: ViewToken)
    ensures var once := TrackAnchor(s, id, globalFrame, placement, offset, view);
            TrackAnchor(once, id, globalFrame, placement, offset, view) == once
  {
  }

  /**
   * The bubble's layout pass writes only its own entry, and in it only the
   * bubble rectangle and arrow offset: the rectangle takes the measured
   * size and the arrow tip lands on the anchor's centre.
   */
  lemma LayoutWritesOnlyEntry(s: Guides, id: string, measured: Size, outlineSize: real,
                              platform: CalloutPlacement.Platform)
    ensures var r := LayoutCallout(s, id, measured, outlineSize, platform);
            && r.(list := s.list) == s
            && r.list.Keys == s.list.Keys
            && (forall k :: k in s.list && k != id ==> r.list[k] == s.list[k])
            && (id in s.list ==>
                  && r.list[id].(calloutRect := s.list[id].calloutRect, arrowOffset := s.list[id].arrowOffset) == s.list[id]
                  && r.list[id].calloutRect.size == measured
                  && CalloutShape.GlobalTip(r.list[id]).x == s.list[id].sourceViewRect.MidX())
  {
    if id in s.list {
      CalloutShape.ArrowPointsAtAnchor(s.list[id], measured, s.displayFrame.size.width,
                                       s.safeArea.top, outlineSize, platform);
    }
  }

  /** A later anchor layout pass keeps the bubble geometry the bubble's
      layout pass computed, so a re-render does not fall back to a default
      size. */
  lemma TrackAnchorKeepsLayout(s: Guides, id: string, measured: Size, outlineSize: real,
                               platform: CalloutPlacement.Platform, globalFrame: Rect,
                               placement: Placement, offset: Point, view: ViewToken)
    requires id in s.list
    ensures var laid := LayoutCallout(s, id, measured, outlineSize, platform);
            var r := TrackAnchor(laid, id, globalFrame, placement, offset, view);
            && r.list[id].calloutRect == laid.list[id].calloutRect
            && r.list[id].arrowOffset == laid.list[id].arrowOffset
            && r.list[id].calloutRect.size == measured
  {
    LayoutWritesOnlyEntry(s, id, measured, outlineSize, platform);
  }
}
