# DurableGuide callout engine, in Dafny

DurableGuide attaches onboarding callouts (a title and message in a bubble
with an arrow) to views of a SwiftUI app. This project models its core:

- **The placement engine** of `GuideCalloutView`. It places the bubble of
  the current callout below or above its anchor. The bubble is centred on
  the anchor and clamped to 8 points from each display edge. The arrow offset
  moves the arrow so that it still points at the anchor's centre. The top edge
  is kept clear of the safe area. The project also models the width limits
  of the bubble and the vertices of the arrow notch.
- **The lifecycle state machine.** It holds the registry of callouts
  (`GuideCallout.list`), the display state (pending id, current callout,
  delay, display frame and safe area), the persisted dismissal and
  acted-upon counters (`"callout.settings"`), and the single dismiss-handler
  slot. It covers both trees of the repository: the one with counters
  (`Sources/`) and the package variant without them
  (`DurableGuidePackage/`).

Layout of the project:

- `geometry.dfy`: points, sizes, rectangles, insets, the placement enum and
  the registry entry `Info`. Entries compare equal by id only.
- `placement.dfy`: the placement engine. Closed-form specification
  functions sit beside methods that update their local variables step by
  step, as the view does. Each method is proved equal to its function.
- `shape.dfy`: the arrow vertices. The lemma `ArrowPointsAtAnchor` shows
  that the placed arrow tip lands on the anchor's centre.
- `callout.dfy`: the value type `GuideCallout` and its copy-returning setters.
- `counters.dfy`: the counter record and its keys.
- `lifecycle.dfy`: the whole state as a value, with one function per
  transition and lemmas about single transitions and short sequences.
- `traces.dfy`: arbitrary sequences of events. It proves the invariant
  over them, that counts never drop without a reset, and that a dismissed
  or acted-upon callout stays hidden.
- `display.dfy`: the class `GuideDisplayState`. Its methods change the
  fields in place, as the source does. Each method promises that the new
  state is the matching `Lifecycle` transition of the old state.

Numbers are exact reals. The macOS / other-platform split of the minimum top
insets (4 or 8 below, 3 or 8 above) is the parameter `Platform`. The
outline size comes from the appearance settings and is a parameter. The
onDismiss closure is a token. Each call of the stored closure is appended
to `dismissLog`. The delay timer is the event `TimerFired`. The content
view is the token `ViewToken`.

What the code does in some less obvious cases:

- `close` and `remove` act only on the *current* callout. If a callout is
  only pending, `remove` deletes its registry entry but leaves it pending.
  When the timer fires, the entry is gone, so nothing is shown.
- `actUpon` of a callout that is pending but not yet on screen counts the
  action but does not close it. The callout stays pending, and the next
  timer tick shows it although it has been acted upon
  (`Lifecycle.ActUponLeavesPending`). A callout acted upon while on screen,
  or while not shown at all, stays hidden (`Traces.ActUponThenHidden`).
- When `showUntilDismissed` is suppressed, it calls `close(withDismissal:
  true)`. If that callout is on screen, it is closed, its dismissal count
  rises again, and the handler stored by an earlier show runs.
- In `minAndMaxWidths` the percentage test compares the display width with
  itself, so it is always false. The maximum width is therefore
  max(330, 35% of the usable width).
- If the bubble is wider than the display less 16, the right clamp wins:
  the bubble's right edge is 8 from the display's right edge and its left
  edge ends up left of the margin.

## Model

| member | source | states |
|---|---|---|
| Geometry.SameCallout | DurableGuidePackage/Sources/internal/GuideCalloutView.swift:228 | two registry entries are equal exactly when they agree after every field but the id is overwritten: only the id counts |
| Geometry.NewInfo | DurableGuidePackage/Sources/internal/GuideCalloutView.swift:218-226 | a fresh registry entry has the given id and view, is placed below, and has zero anchor rectangle, zero bubble rectangle, zero arrow offset and zero offset |
| CalloutPlacement.BubbleX | DurableGuidePackage/Sources/internal/GuideCalloutView.swift:137-149 | the bubble's right edge is always at least 8 from the display's right edge; when the bubble fits the usable width its left edge is at least 8; when it fits centred it is centred on the anchor; when only the left edge sticks out and the bubble fits, its left edge is exactly 8; when the right edge sticks out, its right edge is exactly 8 from the display's right edge; when it is wider than the usable width the right clamp wins and the left edge falls below 8 |
| CalloutPlacement.BelowY | DurableGuidePackage/Sources/internal/GuideCalloutView.swift:139-161 | a bubble placed below starts at least 3 under the anchor's bottom and at least the minimum top inset plus half the outline below the safe-area top, and at one of the two |
| CalloutPlacement.AboveY | DurableGuidePackage/Sources/internal/GuideCalloutView.swift:179-201 | a bubble placed above starts no higher than 8 plus its height over the anchor's top, and no higher than the safe-area top plus the minimum top inset, and at one of the two |
| CalloutPlacement.PlacedBelow | DurableGuidePackage/Sources/internal/GuideCalloutView.swift:127-167 | below placement changes only the bubble rectangle and the arrow offset; the rectangle takes the measured size; its origin is the clamped left edge (BubbleX) and the below top edge (BelowY); the arrow's centre is on the anchor's centre; the right edge is bounded; the bubble is at least 3 under the anchor and at least the minimum top inset plus half the outline under the safe-area top |
| CalloutPlacement.PlacedAbove | DurableGuidePackage/Sources/internal/GuideCalloutView.swift:169-207 | above placement changes only the bubble rectangle and the arrow offset; the rectangle takes the measured size; its origin is the clamped left edge (BubbleX) and the above top edge (AboveY); the arrow's centre is on the anchor's centre; the right edge is bounded; the top is no higher than 8 plus the height over the anchor's top and no higher than the safe-area top plus the minimum top inset |
| CalloutPlacement.Placed | DurableGuidePackage/Sources/internal/GuideCalloutView.swift:116-123 | the entry is placed on the side its own placement names, keeps that placement, takes the measured size and has its arrow centre on the anchor's centre |
| CalloutPlacement.ClampExamples | DurableGuidePackage/Sources/internal/GuideCalloutView.swift:137-151 | on a 320-wide display a 200-wide bubble under an anchor from 100 to 150 sits at 25 with offset 0; under an anchor from 0 to 20 it sits at 8 with the arrow 98 to the left |
| CalloutPlacement.ClampHorizontally | DurableGuidePackage/Sources/internal/GuideCalloutView.swift:141-151 | the step-by-step clamp gives the closed-form left edge; in every branch (none, left, right, both) left edge plus half width plus arrow offset is the anchor's centre; unclamped the offset is 0 |
| CalloutPlacement.CalculateForBelow | DurableGuidePackage/Sources/internal/GuideCalloutView.swift:127-166 | the step-by-step below placement equals PlacedBelow |
| CalloutPlacement.CalculateForAbove | DurableGuidePackage/Sources/internal/GuideCalloutView.swift:169-206 | the step-by-step above placement equals PlacedAbove |
| CalloutPlacement.MinAndMaxWidths | DurableGuidePackage/Sources/internal/GuideCalloutView.swift:63-69 | the minimum width is 330, the maximum is max(330, 35% of the width less 16), and the maximum is never below the minimum |
| CalloutShape.ArrowVertices | DurableGuidePackage/Sources/internal/GuideCalloutView.swift:239-284 | the notch's tip is at half the bubble width plus the arrow offset; the notch is 12 wide and 8 tall with its tip in the middle; below the anchor it points up from the top edge (tip at y 0, base at y 8); above it points down from the bottom edge (tip at the height, base 8 higher) |
| CalloutShape.ArrowPointsAtAnchor | DurableGuidePackage/Sources/internal/GuideCalloutView.swift:240-256 | after placement, the arrow tip in display coordinates is horizontally at the anchor's centre, under the anchor's bottom edge for below, and 8 over the anchor's top unless the safe area pushed the bubble down for above |
| Callout.New | Sources/GuideCallout.swift:15-34 | a new callout carries the given id, is placed below, has no title and no message, and has a zero offset |
| Callout.WithPlacement | Sources/GuideCallout.swift:39-43 | the copy has the new placement and is the receiver in every other field |
| Callout.WithTitle | Sources/GuideCallout.swift:48-52 | the copy has the new title and is the receiver in every other field |
| Callout.WithMessage | Sources/GuideCallout.swift:57-61 | the copy has the new message and is the receiver in every other field |
| Callout.WithOffset | Sources/GuideCallout.swift:66-70 | the copy has the new offset and is the receiver in every other field |
| Callout.SettersCommute | Sources/GuideCallout.swift:36-70 | every pair of setters of different fields commutes, and a chain of all four gives the callout with exactly those four values |
| Counters.Count | Sources/GuideCallout.swift:154-159 | an absent key counts 0 |
| Counters.DismissedKey | Sources/GuideCallout.swift:88 | the dismissal key is the id followed by ".dismissed" |
| Counters.ActedUponKey | Sources/GuideCallout.swift:102 | the acted-upon key is the id followed by ".actedUpon" |
| Counters.SetCount | Sources/GuideCallout.swift:169-173 | the key reads the stored count; every other key reads as before |
| Counters.IncrementCount | Sources/GuideCallout.swift:163-165 | the key's count rises by exactly one; every other key reads as before |
| Counters.Cleared | Sources/GuideCallout.swift:148-150 | after a reset every count reads 0 |
| Counters.DismissedIsNotActedUpon | Sources/GuideCallout.swift:110-113 | no dismissal key equals any acted-upon key, so acting upon a callout never touches a dismissal count |
| Counters.DismissedKeyInjective | Sources/GuideCallout.swift:133 | different callouts have different dismissal keys |
| Counters.ActedUponKeyInjective | Sources/GuideCallout.swift:111 | different callouts have different acted-upon keys |
| Lifecycle.Init | DurableGuidePackage/Sources/internal/GuideDisplay.swift:66-75 | the start-up state satisfies the invariant; nothing is registered, pending or current; the delay is 0.75; frame and safe area are zero; the counters are the persisted ones; the handler is the empty one and no handler has run |
| Lifecycle.Show | Sources/GuideCallout.swift:76-81 | show keeps the invariant (never pending and current at once, entries keyed by id, current registered) |
| Lifecycle.CloseCurrent | DurableGuidePackage/Sources/GuideCallout.swift:89-92 | closeCurrent keeps the invariant and leaves no callout pending or current |
| Lifecycle.Close | Sources/GuideCallout.swift:129-137 | close keeps the invariant |
| Lifecycle.PackageClose | DurableGuidePackage/Sources/GuideCallout.swift:73-80 | the package close keeps the invariant |
| Lifecycle.ShowUntilDismissed | Sources/GuideCallout.swift:87-93 | showUntilDismissed keeps the invariant |
| Lifecycle.ShowUntilActedUpon | Sources/GuideCallout.swift:101-106 | showUntilActedUpon keeps the invariant |
| Lifecycle.ActUpon | Sources/GuideCallout.swift:110-113 | actUpon keeps the invariant |
| Lifecycle.ResetAll | Sources/GuideCallout.swift:148-150 | resetAll keeps the invariant and every count reads 0 afterwards |
| Lifecycle.Remove | Sources/GuideCallout.swift:193-196 | remove keeps the invariant and the id is no longer registered |
| Lifecycle.ShowPendingCallout | DurableGuidePackage/Sources/internal/GuideDisplay.swift:77-83 | showPendingCallout keeps the invariant and leaves nothing pending |
| Lifecycle.TimerFired | DurableGuidePackage/Sources/internal/GuideDisplay.swift:44-48 | the timer keeps the invariant |
| Lifecycle.ReshowCurrentCallout | DurableGuidePackage/Sources/internal/GuideDisplay.swift:85-90 | reshow keeps the invariant and either leaves nothing current or changes nothing |
| Lifecycle.UpdateGuideDisplay | DurableGuidePackage/Sources/internal/GuideDisplay.swift:53-60 | a display update keeps the invariant and records the new frame and safe area |
| Lifecycle.TrackAnchor | Sources/internal/ViewWithCallout.swift:39-47 | the anchor's layout pass keeps the invariant |
| Lifecycle.LayoutCallout | DurableGuidePackage/Sources/internal/GuideCalloutView.swift:114-123 | the bubble's layout pass keeps the invariant |
| Lifecycle.ShowThenTimerPresents | Sources/GuideCallout.swift:76-81 | show followed by the timer makes the callout's current registry entry current (none if unregistered), with nothing pending, the delay reset to 0 and the new handler stored; registry, counters and handler calls unchanged |
| Lifecycle.LaterShowSupersedes | Sources/GuideCallout.swift:76-81 | a second show erases the first one completely, in any state; from a valid state and for a different id, after the timer the first callout is not on screen |
| Lifecycle.CloseActsOnlyOnCurrent | Sources/GuideCallout.swift:129-137 | close, in both variants, changes nothing if and only if the id is not the current callout |
| Lifecycle.CloseVisibleCallout | Sources/GuideCallout.swift:129-143 | closing the current callout clears current and pending; with dismissal its dismissal count rises by exactly one and the stored handler runs once; without, counters and handler calls are untouched; no other count changes |
| Lifecycle.PackageCloseKeepsCounters | DurableGuidePackage/Sources/GuideCallout.swift:73-80 | the package close is close without the counter update; without dismissal the two are equal |
| Lifecycle.ShowUntilDismissedSuppressed | Sources/GuideCallout.swift:87-91 | once dismissed, showUntilDismissed never makes the id pending, leaves it off screen and keeps handler, delay and registry |
| Lifecycle.ShowUntilDismissedShows | Sources/GuideCallout.swift:87-93 | never dismissed, showUntilDismissed is show |
| Lifecycle.ShowUntilActedUponGate | Sources/GuideCallout.swift:101-106 | acted upon, showUntilActedUpon changes nothing; otherwise it is show |
| Lifecycle.ActUponEffect | Sources/GuideCallout.swift:110-113 | actUpon raises the acted-upon count by one, so the callout has been acted upon, closes it, and leaves every dismissal count, the handler and the registry alone |
| Lifecycle.ActUponLeavesPending | Sources/GuideCallout.swift:110-113 | acting upon a pending callout counts the action but leaves it pending, and the next timer tick shows it |
| Lifecycle.ActUponIsStable | Sources/GuideCallout.swift:110-118 | acting upon twice keeps hasBeenActedUpon true, and showUntilActedUpon afterwards changes nothing |
| Lifecycle.HasBeenActedUpon | Sources/GuideCallout.swift:116-118 | a callout has been acted upon exactly when a positive count is stored under its acted-upon key |
| Lifecycle.ResetAllReenables | Sources/GuideCallout.swift:148-150 | after resetAll both guarded shows are show |
| Lifecycle.RemoveEffect | Sources/GuideCallout.swift:193-196 | remove deletes exactly that registry entry; it clears current and pending if the callout was current and leaves them alone otherwise (a pending-only id stays pending) |
| Lifecycle.CloseCurrentIdempotent | DurableGuidePackage/Sources/GuideCallout.swift:89-92 | closeCurrent twice is closeCurrent once |
| Lifecycle.TimerIdleWithoutPending | DurableGuidePackage/Sources/internal/GuideDisplay.swift:44-48 | with nothing pending, neither the timer nor showPendingCallout changes anything |
| Lifecycle.ReshowRoundTrip | DurableGuidePackage/Sources/internal/GuideDisplay.swift:85-90 | reshow followed by the timer brings the same callout back as its latest registry entry; reshow twice is reshow once |
| Lifecycle.UpdateIsReshow | DurableGuidePackage/Sources/internal/GuideDisplay.swift:53-60 | a display update is a reshow with the new frame and safe area |
| Lifecycle.TrackAnchorUpsert | Sources/internal/ViewWithCallout.swift:39-47 | the anchor's pass writes only its own entry: the anchor rectangle is the global frame moved by the offset with the same size; placement and offset are the given ones; an existing entry keeps view, bubble rectangle and arrow offset; a new one gets the given view and zero geometry |
| Lifecycle.TrackAnchorIdempotent | Sources/internal/ViewWithCallout.swift:39-47 | repeating the anchor's pass with the same geometry changes nothing |
| Lifecycle.LayoutWritesOnlyEntry | DurableGuidePackage/Sources/internal/GuideCalloutView.swift:163-166 | the bubble's pass writes only its own entry and in it only the bubble rectangle (to the measured size) and the arrow offset, with the arrow tip on the anchor's centre |
| Lifecycle.TrackAnchorKeepsLayout | Sources/internal/ViewWithCallout.swift:43-46 | a later anchor pass keeps the bubble geometry the bubble's pass computed |
| Traces.StepKeepsValid | DurableGuidePackage/Sources/internal/GuideDisplay.swift:77-90 | every event keeps the invariant |
| Traces.RunKeepsValid | DurableGuidePackage/Sources/internal/GuideDisplay.swift:77-90 | every sequence of events keeps the invariant |
| Traces.ReachableStatesValid | DurableGuidePackage/Sources/internal/GuideDisplay.swift:25-27 | from start-up, whatever happens, no callout is pending while one is current, and the current one is registered |
| Traces.StepKeepsCounts | Sources/GuideCallout.swift:161-173 | no event but resetAll lowers a count |
| Traces.RunKeepsCounts | Sources/GuideCallout.swift:161-173 | no sequence of events without resetAll lowers a count |
| Traces.ActedUponPersists | Sources/GuideCallout.swift:115-118 | after actUpon, hasBeenActedUpon stays true until a reset |
| Traces.StepKeepsDismissedHidden | Sources/GuideCallout.swift:87-93 | one event that neither resets nor shows the id unguarded keeps a dismissed, hidden callout dismissed and hidden |
| Traces.StepKeepsActedUponHidden | Sources/GuideCallout.swift:101-106 | the same for a callout acted upon |
| Traces.DismissedStaysHidden | Sources/GuideCallout.swift:87-93 | a dismissed callout that is off screen and not pending stays so through any sequence of events that shows it only through showUntilDismissed and does not reset |
| Traces.ActedUponStaysHidden | Sources/GuideCallout.swift:101-106 | a callout acted upon that is off screen and not pending stays so through any sequence that shows it only through showUntilActedUpon and does not reset |
| Traces.DismissThenHidden | Sources/GuideCallout.swift:122-137 | dismissing the current callout hides it for good under those conditions |
| Traces.ActUponThenHidden | Sources/GuideCallout.swift:110-113 | acting upon a callout that is not pending (on screen or not shown at all) hides it for good under those conditions |
| Display.GuideDisplayState.constructor | DurableGuidePackage/Sources/internal/GuideDisplay.swift:66-75 | the start-up state is Lifecycle.Init of the persisted counters and is valid |
| Display.GuideDisplayState.IncrementCount | Sources/GuideCallout.swift:163-165 | the settings become IncrementCount of the old ones; nothing else changes |
| Display.GuideDisplayState.SetCount | Sources/GuideCallout.swift:169-173 | the settings become SetCount of the old ones; nothing else changes |
| Display.GuideDisplayState.Show | Sources/GuideCallout.swift:76-81 | the new state is Lifecycle.Show of the old one and is valid |
| Display.GuideDisplayState.ShowUntilDismissed | Sources/GuideCallout.swift:87-93 | the new state is Lifecycle.ShowUntilDismissed of the old one and is valid |
| Display.GuideDisplayState.ShowUntilActedUpon | Sources/GuideCallout.swift:101-106 | the new state is Lifecycle.ShowUntilActedUpon of the old one and is valid |
| Display.GuideDisplayState.ActUpon | Sources/GuideCallout.swift:110-113 | the new state is Lifecycle.ActUpon of the old one and is valid |
| Display.GuideDisplayState.HasBeenActedUpon | Sources/GuideCallout.swift:116-118 | the answer is Lifecycle.HasBeenActedUpon of the state |
| Display.GuideDisplayState.Dismiss | Sources/GuideCallout.swift:122-124 | the new state is Lifecycle.Close with dismissal of the old one |
| Display.GuideDisplayState.Close | Sources/GuideCallout.swift:129-137 | the new state is Lifecycle.Close of the old one and is valid |
| Display.GuideDisplayState.CloseCurrent | Sources/GuideCallout.swift:140-143 | the new state is Lifecycle.CloseCurrent of the old one |
| Display.GuideDisplayState.ResetAll | Sources/GuideCallout.swift:148-150 | the new state is Lifecycle.ResetAll of the old one |
| Display.GuideDisplayState.Remove | Sources/GuideCallout.swift:193-196 | the new state is Lifecycle.Remove of the old one and is valid |
| Display.GuideDisplayState.PackageClose | DurableGuidePackage/Sources/GuideCallout.swift:73-80 | the new state is Lifecycle.PackageClose of the old one and is valid |
| Display.GuideDisplayState.PackageRemove | DurableGuidePackage/Sources/GuideCallout.swift:83-86 | the package remove reaches the same state as remove |
| Display.GuideDisplayState.ShowPendingCallout | DurableGuidePackage/Sources/internal/GuideDisplay.swift:77-83 | the new state is Lifecycle.ShowPendingCallout of the old one and is valid |
| Display.GuideDisplayState.TimerFired | DurableGuidePackage/Sources/internal/GuideDisplay.swift:44-48 | the new state is Lifecycle.TimerFired of the old one and is valid |
| Display.GuideDisplayState.ReshowCurrentCallout | DurableGuidePackage/Sources/internal/GuideDisplay.swift:85-90 | the new state is Lifecycle.ReshowCurrentCallout of the old one and is valid |
| Display.GuideDisplayState.UpdateGuideDisplay | DurableGuidePackage/Sources/internal/GuideDisplay.swift:53-60 | the new state is Lifecycle.UpdateGuideDisplay of the old one and is valid |
| Display.GuideDisplayState.TrackAnchor | Sources/internal/ViewWithCallout.swift:39-47 | the new state is Lifecycle.TrackAnchor of the old one and is valid |
| Display.GuideDisplayState.AnchorDisappeared | Sources/internal/ViewWithCallout.swift:33-35 | anchor teardown is remove of that id |
| Display.GuideDisplayState.LayoutCallout | DurableGuidePackage/Sources/internal/GuideCalloutView.swift:114-123 | the new state is Lifecycle.LayoutCallout of the old one, computed by CalculateForBelow or CalculateForAbove and written back |

## Left out

- SwiftUI composition is not modelled. This covers view building, `GeometryReader`, overlays, paddings, shadows, the close-button image and the colour functions of `GuideAppearance`. They are drawing, not logic.
- Animation is not modelled. This covers the spring animation, opacity and scale, and the start-offset cross-fade on appearance (GuideCalloutView.swift lines 39-58). The copies of `sourceViewRect` and `calloutRect` kept in the display state only feed that animation, so they are left out too.
- Timer publishing and cancelling are not modelled. The timer is the event `TimerFired`, and it may arrive at any time. The delay is stored but has no time meaning.
- The `UserDefaults` store is an in-memory map. A value that is not an integer, or a record that is not a dictionary, reads as an absent key, which counts 0.
- The quad curves of the bubble outline are not modelled. Only the straight arrow vertices are.
- CGFloat rounding is not modelled. Numbers are exact reals.
- The body of the onDismiss closure is not modelled. Its calls are recorded in `dismissLog`.
- The view-modifier wrappers of `View+Extensions.swift` are not modelled. They are thin wrappers. `GuideAppearance.set` only calls `reshowCurrentCallout`, which is modelled.
- The package variant's `GuideCallout` has no offset field and no offset setter. Its other setters, and its `show` and `closeCurrent`, are the same as the `Sources/` ones modelled in `Callout` and `Lifecycle`.
- Counters.IncrementCount: counts are unbounded integers. The source adds 1 to a 64-bit Swift `Int`, which traps at `Int.max`; that overflow is not modelled, because no callout is dismissed that often.
- Counters.DismissedKeyInjective and Counters.ActedUponKeyInjective: ids and keys are sequences of characters compared one by one. Swift's `String` equality and `Dictionary` keys compare by canonical equivalence, which is not modelled, so these lemmas hold for ids as character sequences only; two canonically equivalent ids share their counters in the source.
- Callout methods take the id as a parameter rather than reading it from a `GuideCallout` receiver.
