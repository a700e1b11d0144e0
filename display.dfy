/**
 * The process-wide callout state as one object: the registry (the static
 * GuideCallout.list), the display state (GuideDisplayState), the counters
 * record (the "callout.settings" defaults entry) and the dismiss-handler
 * slot. Every method changes the fields in place, as the source does, and
 * promises that the new state is the corresponding Lifecycle transition of
 * the old one, which keeps the invariant Lifecycle.Valid.
 */
module Display {
  import opened Wrappers
  import opened Geometry
  import opened Counters
  import L = Lifecycle
  import CalloutPlacement

  class GuideDisplayState {
    var list: map<string, Info>
    var pendingCalloutID: Option<string>
    var currentCallout: Option<Info>
    var calloutDelay: real
    var displayFrame: Rect
    var safeArea: Insets
    var settings: Settings
    var onDismiss: L.Handler
    /** Every invocation of the stored dismiss handler, in order. */
    ghost var dismissLog: seq<L.Handler>

    /** The state as a value. */
    ghost function Model(): L.Guides
      reads this
    {
      L.Guides(list, pendingCalloutID, currentCallout, calloutDelay, displayFrame, safeArea,
               settings, onDismiss, dismissLog)
    }

    ghost predicate Valid()
      reads this
    {
      L.Valid(Model())
    }

    /** Start-up: nothing registered, shown or pending; the counters are
        whatever was persisted. */
    constructor (persisted: Settings)
      ensures Model() == L.Init(persisted)
      ensures Valid()
    {
      list := map[];
      pendingCalloutID := None;
      currentCallout := None;
      calloutDelay := L.InitialDelay;
      displayFrame := ZeroRect;
      safeArea := ZeroInsets;
      settings := persisted;
      onDismiss := L.NoHandler;
      dismissLog := [];
    }

    /** Raises one count by one. */
    method IncrementCount(key: string)
      requires Valid()
      modifies this
      ensures Valid()
      ensures Model() == old(Model()).(settings := Counters.IncrementCount(old(settings), key))
    {
      SetCount(Counters.Count(settings, key) + 1, key);
    }

    /** Stores one count. */
    method SetCount(count: int, key: string)
      requires Valid()
      modifies this
      ensures Valid()
      ensures Model() == old(Model()).(settings := Counters.SetCount(old(settings), count, key))
    {
      var newState := settings;
      newState := newState[key := count];
      settings := newState;
    }

    method Show(id: string, delay: real, handler: L.Handler)
      requires Valid()
      modifies this
      ensures Valid()
      ensures Model() == L.Show(old(Model()), id, delay, handler)
    {
      calloutDelay := delay;
      currentCallout := None;
      pendingCalloutID := Some(id);
      onDismiss := handler;
    }

    method ShowUntilDismissed(id: string, delay: real, handler: L.Handler)
      requires Valid()
      modifies this
      ensures Valid()
      ensures Model() == L.ShowUntilDismissed(old(Model()), id, delay, handler)
    {
      if Counters.Count(settings, DismissedKey(id)) > 0 {
        Close(id, true);
        return;
      }
      Show(id, delay, handler);
    }

    method ShowUntilActedUpon(id: string, delay: real, handler: L.Handler)
      requires Valid()
      modifies this
      ensures Valid()
      ensures Model() == L.ShowUntilActedUpon(old(Model()), id, delay, handler)
    {
      if Counters.Count(settings, ActedUponKey(id)) > 0 {
        return;
      }
      Show(id, delay, handler);
    }

    method ActUpon(id: string)
      requires Valid()
      modifies this
      ensures Valid()
      ensures Model() == L.ActUpon(old(Model()), id)
    {
      IncrementCount(ActedUponKey(id));
      Close(id, false);
    }

    function HasBeenActedUpon(id: string): (acted: bool)
      reads this
      ensures acted == L.HasBeenActedUpon(Model(), id)
    {
      Counters.Count(settings, ActedUponKey(id)) > 0
    }

    method Dismiss(id: string)
      requires Valid()
      modifies this
      ensures Valid()
      ensures Model() == L.Close(old(Model()), id, true)
    {
      Close(id, true);
    }

    method Close(id: string, withDismissal: bool)
      requires Valid()
      modifies this
      ensures Valid()
      ensures Model() == L.Close(old(Model()), id, withDismissal)
    {
      if currentCallout.Some? && currentCallout.value.id == id {
        CloseCurrent();
        if withDismissal {
          IncrementCount(DismissedKey(id));
          dismissLog := dismissLog + [onDismiss];
        }
      }
    }

    method CloseCurrent()
      requires Valid()
      modifies this
      ensures Valid()
      ensures Model() == L.CloseCurrent(old(Model()))
    {
      currentCallout := None;
      pendingCalloutID := None;
    }

    method ResetAll()
      requires Valid()
      modifies this
      ensures Valid()
      ensures Model() == L.ResetAll(old(Model()))
    {
      settings := map[];
    }

    method Remove(id: string)
      requires Valid()
      modifies this
      ensures Valid()
      ensures Model() == L.Remove(old(Model()), id)
    {
      Close(id, false);
      list := list - {id};
    }

    /** close of the package variant, which keeps no counters. */
    method PackageClose(id: string, withDismissal: bool)
      requires Valid()
      modifies this
      ensures Valid()
      ensures Model() == L.PackageClose(old(Model()), id, withDismissal)
    {
      if currentCallout.Some? && currentCallout.value.id == id {
        CloseCurrent();
        if withDismissal {
          dismissLog := dismissLog + [onDismiss];
        }
      }
    }

    /** remove of the package variant: the same transition as remove. */
    method PackageRemove(id: string)
      requires Valid()
      modifies this
      ensures Valid()
      ensures Model() == L.Remove(old(Model()), id)
    {
      L.PackageCloseKeepsCounters(Model(), id, false);
      PackageClose(id, false);
      list := list - {id};
    }

    method ShowPendingCallout()
      requires Valid()
      modifies this
      ensures Valid()
      ensures Model() == L.ShowPendingCallout(old(Model()))
    {
      if pendingCalloutID.Some? {
        var pending := pendingCalloutID.value;
        currentCallout := if pending in list then Some(list[pending]) else None;
        pendingCalloutID := None;
        calloutDelay := 0.0;
      }
    }

    /** The delay timer fires. */
    method TimerFired()
      requires Valid()
      modifies this
      ensures Valid()
      ensures Model() == L.TimerFired(old(Model()))
    {
      if pendingCalloutID.Some? {
        ShowPendingCallout();
      }
    }

    method ReshowCurrentCallout()
      requires Valid()
      modifies this
      ensures Valid()
      ensures Model() == L.ReshowCurrentCallout(old(Model()))
    {
      if currentCallout.Some? && pendingCalloutID == None {
        var current := currentCallout.value;
        currentCallout := None;
        pendingCalloutID := Some(current.id);
      }
    }

    /** The display's geometry changed. */
    method UpdateGuideDisplay(frame: Rect, insets: Insets)
      requires Valid()
      modifies this
      ensures Valid()
      ensures Model() == L.UpdateGuideDisplay(old(Model()), frame, insets)
    {
      displayFrame := frame;
      safeArea := insets;
      if currentCallout.Some? && pendingCalloutID == None {
        pendingCalloutID := Some(currentCallout.value.id);
        currentCallout := None;
      }
    }

    /** The anchor's layout pass: records the anchor's rectangle for this id. */
    method TrackAnchor(id: string, globalFrame: Rect, placement: Placement, offset: Point, view: ViewToken)
      requires Valid()
      modifies this
      ensures Valid()
      ensures Model() == L.TrackAnchor(old(Model()), id, globalFrame, placement, offset, view)
    {
      var frame := globalFrame;
      frame := frame.(origin := frame.origin.(x := frame.origin.x + offset.x));
      frame := frame.(origin := frame.origin.(y := frame.origin.y + offset.y));
      var guide := if id in list then list[id] else NewInfo(id, view);
      guide := guide.(placement := placement);
      guide := guide.(offset := offset);
      guide := guide.(sourceViewRect := frame);
      list := list[id := guide];
    }

    /** The anchor view goes away. */
    method AnchorDisappeared(id: string)
      requires Valid()
      modifies this
      ensures Valid()
      ensures Model() == L.Remove(old(Model()), id)
    {
      Remove(id);
    }

    /** The bubble's layout pass: places the registered callout and writes
        the entry back into the registry. */
    method LayoutCallout(id: string, measured: Size, outlineSize: real, platform: CalloutPlacement.Platform)
      requires Valid()
      modifies this
      ensures Valid()
      ensures Model() == L.LayoutCallout(old(Model()), id, measured, outlineSize, platform)
    {
      if id in list {
        var calloutInfo := list[id];
        var placed: Info;
        if calloutInfo.placement == Below {
          placed := CalloutPlacement.CalculateForBelow(calloutInfo, measured, displayFrame.size.width,
                                                       safeArea.top, outlineSize, platform);
        } else {
          placed := CalloutPlacement.CalculateForAbove(calloutInfo, measured, displayFrame.size.width,
                                                       safeArea.top, platform);
        }
        list := list[id := placed];
      }
    }
  }
}
