/**
 * Sequences of lifecycle events: every public call, timer tick and layout
 * pass as one event, and what any sequence of them keeps true.
 */
module Traces {
  import opened Wrappers
  import opened Geometry
  import opened Counters
  import opened Lifecycle
  import CalloutPlacement

  datatype Event =
    | ShowCallout(id: string, delay: real, handler: Handler)
    | ShowCalloutUntilDismissed(id: string, delay: real, handler: Handler)
    | ShowCalloutUntilActedUpon(id: string, delay: real, handler: Handler)
    | ActUponCallout(id: string)
    | CloseCallout(id: string, withDismissal: bool)
    | PackageCloseCallout(id: string, withDismissal: bool)
    | CloseCurrentCallout
    | ResetAllCounters
    | RemoveCallout(id: string)
    | TimerTick
    | ReshowCurrent
    | DisplayChanged(frame: Rect, safeArea: Insets)
    | AnchorLaidOut(id: string, globalFrame: Rect, placement: Placement, offset: Point, view: ViewToken)
    | CalloutLaidOut(id: string, measured: Size, outlineSize: real, platform: CalloutPlacement.Platform)

  function Step(s: Guides, e: Event): Guides
  {
    match e
    case ShowCallout(id, d, h) => Show(s, id, d, h)
    case ShowCalloutUntilDismissed(id, d, h) => ShowUntilDismissed(s, id, d, h)
    case ShowCalloutUntilActedUpon(id, d, h) => ShowUntilActedUpon(s, id, d, h)
    case ActUponCallout(id) => ActUpon(s, id)
    case CloseCallout(id, w) => Close(s, id, w)
    case PackageCloseCallout(id, w) => PackageClose(s, id, w)
    case CloseCurrentCallout => CloseCurrent(s)
    case ResetAllCounters => ResetAll(s)
    case RemoveCallout(id) => Remove(s, id)
    case TimerTick => TimerFired(s)
    case ReshowCurrent => ReshowCurrentCallout(s)
    case DisplayChanged(f, i) => UpdateGuideDisplay(s, f, i)
    case AnchorLaidOut(id, g, p, o, v) => TrackAnchor(s, id, g, p, o, v)
    case CalloutLaidOut(id, m, o, p) => LayoutCallout(s, id, m, o, p)
  }

  function Run(s: Guides, trace: seq<Event>): Guides
    decreases |trace|
  {
    if trace == [] then s else Run(Step(s, trace[0]), trace[1..])
  }

  /** Every event keeps the state invariant. */
  lemma StepKeepsValid(s: Guides, e: Event)
    requires Valid(s)
    ensures Valid(Step(s, e))
  {
  }

  /** Every sequence of events keeps the state invariant. */
  lemma {:induction false} RunKeepsValid(s: Guides, trace: seq<Event>)
    requires Valid(s)
    ensures Valid(Run(s, trace))
    decreases |trace|
  {
    if trace != [] {
      StepKeepsValid(s, trace[0]);
      RunKeepsValid(Step(s, trace[0]), trace[1..]);
    }
  }

  /** From start-up, whatever happens, no callout is pending while another
      is current, and the current one is registered. */
  lemma ReachableStatesValid(persisted: Settings, trace: seq<Event>)
    ensures var s := Run(Init(persisted), trace);
            && !(s.pendingCalloutID.Some? && s.currentCallout.Some?)
            && (s.currentCallout.Some? ==> s.currentCallout.value.id in s.list)
  {
    RunKeepsValid(Init(persisted), trace);
  }

  predicate NoReset(trace: seq<Event>)
  {
    forall i :: 0 <= i < |trace| ==> !trace[i].ResetAllCounters?
  }

  /** Apart from resetAll, no event lowers a count. */
  lemma StepKeepsCounts(s: Guides, e: Event, key: string)
    requires !e.ResetAllCounters?
    ensures Count(Step(s, e).settings, key) >= Count(s.settings, key)
  {
  }

  /** Without resetAll, no sequence of events lowers a count; in particular a
      callout once acted upon stays acted upon. */
  lemma {:induction false} RunKeepsCounts(s: Guides, trace: seq<Event>, key: string)
    requires NoReset(trace)
    ensures Count(Run(s, trace).settings, key) >= Count(s.settings, key)
    decreases |trace|
  {
    if trace != [] {
      StepKeepsCounts(s, trace[0], key);
      assert NoReset(trace[1..]) by {
        forall i | 0 <= i < |trace[1..]| ensures !trace[1..][i].ResetAllCounters? {
          assert trace[1..][i] == trace[i + 1];
        }
      }
      RunKeepsCounts(Step(s, trace[0]), trace[1..], key);
    }
  }

  /** Once acted upon, a callout keeps reporting so until a reset. */
  lemma ActedUponPersists(s: Guides, id: string, trace: seq<Event>)
    requires NoReset(trace) && Count(s.settings, ActedUponKey(id)) >= 0
    ensures HasBeenActedUpon(Run(ActUpon(s, id), trace), id)
  {
    ActUponEffect(s, id);
    RunKeepsCounts(ActUpon(s, id), trace, ActedUponKey(id));
  }

  /** The only ways a dismissed callout could come back: an unguarded show
      of it, a show that ignores dismissal, or a reset of the counters. */
  predicate RespectsDismissal(e: Event, id: string)
  {
    !e.ResetAllCounters?
    && !(e.ShowCallout? && e.id == id)
    && !(e.ShowCalloutUntilActedUpon? && e.id == id)
  }

  /** The only ways a callout acted upon could come back. */
  predicate RespectsActedUpon(e: Event, id: string)
  {
    !e.ResetAllCounters?
    && !(e.ShowCallout? && e.id == id)
    && !(e.ShowCalloutUntilDismissed? && e.id == id)
  }

  /** One event that respects a dismissal keeps a hidden, dismissed callout
      hidden and dismissed. */
  lemma StepKeepsDismissedHidden(s: Guides, e: Event, id: string)
    requires Valid(s) && Hidden(s, id) && Count(s.settings, DismissedKey(id)) > 0
    requires RespectsDismissal(e, id)
    ensures Hidden(Step(s, e), id) && Count(Step(s, e).settings, DismissedKey(id)) > 0
  {
    StepKeepsCounts(s, e, DismissedKey(id));
    match e
    case TimerTick =>
      if s.pendingCalloutID.Some? && s.pendingCalloutID.value in s.list {
        assert s.list[s.pendingCalloutID.value].id == s.pendingCalloutID.value;
      }
    case _ =>
  }

  /** One event that respects an action keeps a hidden callout that was acted
      upon hidden and acted upon. */
  lemma StepKeepsActedUponHidden(s: Guides, e: Event, id: string)
    requires Valid(s) && Hidden(s, id) && Count(s.settings, ActedUponKey(id)) > 0
    requires RespectsActedUpon(e, id)
    ensures Hidden(Step(s, e), id) && Count(Step(s, e).settings, ActedUponKey(id)) > 0
  {
    StepKeepsCounts(s, e, ActedUponKey(id));
    match e
    case TimerTick =>
      if s.pendingCalloutID.Some? && s.pendingCalloutID.value in s.list {
        assert s.list[s.pendingCalloutID.value].id == s.pendingCalloutID.value;
      }
    case _ =>
  }

  /**
   * A dismissed callout that is off screen and not pending never comes back
   * while it is shown only through showUntilDismissed and the counters are
   * not reset, whatever else is shown, closed, laid out or removed. Applied
   * to every prefix of a trace, it is off screen at every instant.
   */
  lemma {:induction false} DismissedStaysHidden(s: Guides, trace: seq<Event>, id: string)
    requires Valid(s) && Hidden(s, id) && Count(s.settings, DismissedKey(id)) > 0
    requires forall i :: 0 <= i < |trace| ==> RespectsDismissal(trace[i], id)
    ensures Hidden(Run(s, trace), id)
    decreases |trace|
  {
    if trace != [] {
      StepKeepsDismissedHidden(s, trace[0], id);
      StepKeepsValid(s, trace[0]);
      assert forall i :: 0 <= i < |trace[1..]| ==> trace[1..][i] == trace[i + 1];
      DismissedStaysHidden(Step(s, trace[0]), trace[1..], id);
    }
  }

  /** The same for a callout that was acted upon and is shown only through
      showUntilActedUpon. */
  lemma {:induction false} ActedUponStaysHidden(s: Guides, trace: seq<Event>, id: string)
    requires Valid(s) && Hidden(s, id) && Count(s.settings, ActedUponKey(id)) > 0
    requires forall i :: 0 <= i < |trace| ==> RespectsActedUpon(trace[i], id)
    ensures Hidden(Run(s, trace), id)
    decreases |trace|
  {
    if trace != [] {
      StepKeepsActedUponHidden(s, trace[0], id);
      StepKeepsValid(s, trace[0]);
      assert forall i :: 0 <= i < |trace[1..]| ==> trace[1..][i] == trace[i + 1];
      ActedUponStaysHidden(Step(s, trace[0]), trace[1..], id);
    }
  }

  /** Dismissing the current callout hides it for good under the same
      conditions. */
  lemma DismissThenHidden(s: Guides, id: string, trace: seq<Event>)
    requires Valid(s) && Visible(s, id) && Count(s.settings, DismissedKey(id)) >= 0
    requires forall i :: 0 <= i < |trace| ==> RespectsDismissal(trace[i], id)
    ensures Hidden(Run(Close(s, id, true), trace), id)
  {
    CloseVisibleCallout(s, id, true);
    DismissedStaysHidden(Close(s, id, true), trace, id);
  }

  /** Acting upon a callout that is not pending (on screen or not shown at
      all) hides it for good under the same conditions. A pending callout
      is the exception: see Lifecycle.ActUponLeavesPending. */
  lemma ActUponThenHidden(s: Guides, id: string, trace: seq<Event>)
    requires Valid(s) && s.pendingCalloutID != Some(id) && Count(s.settings, ActedUponKey(id)) >= 0
    requires forall i :: 0 <= i < |trace| ==> RespectsActedUpon(trace[i], id)
    ensures Hidden(Run(ActUpon(s, id), trace), id)
  {
    ActUponEffect(s, id);
    ActedUponStaysHidden(ActUpon(s, id), trace, id);
  }
}
