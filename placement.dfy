/**
 * The placement engine of GuideCalloutView: where the bubble of the current
 * callout goes, given the anchor's rectangle, the bubble's measured size,
 * the display width, the safe-area top inset and the outline size.
 *
 * The specification functions (BubbleX, BelowY, AboveY, PlacedBelow,
 * PlacedAbove) give the result in closed form; the methods
 * (ClampHorizontally, CalculateForBelow, CalculateForAbove) update their
 * local variables step by step as the view does and are proved equal to them.
 */
module CalloutPlacement {
  import opened Geometry

  /** The two platform families whose minimum top insets differ. */
  datatype Platform = MacOS | OtherPlatform

  /** Horizontal distance the bubble keeps from either display edge. */
  const Margin: real := 8.0
  /** Gap between the anchor's bottom edge and a bubble placed below it. */
  const BelowGap: real := 3.0
  /** Gap between the top of the anchor and a bubble placed above it. */
  const AboveGap: real := 8.0
  /** Smallest width of a bubble. */
  const MinBubbleWidth: real := 330.0

  /** Least distance below the safe-area top for a bubble placed below. */
  function BelowMinTop(platform: Platform): real
  {
    if platform == MacOS then 4.0 else 8.0
  }

  /** Least distance below the safe-area top for a bubble placed above. */
  function AboveMinTop(platform: Platform): real
  {
    if platform == MacOS then 3.0 else 8.0
  }

  function Min(a: real, b: real): real { if a <= b then a else b }

  function Max(a: real, b: real): real { if a >= b then a else b }

  /**
   * The bubble's left edge: centred on the anchor, pushed right to the left
   * margin, then pulled left to the right margin. The right margin is applied
   * last, so it wins when the display is too narrow for both.
   */
  function BubbleX(center: real, width: real, displayWidth: real): (x: real)
    ensures x + width <= displayWidth - Margin
    ensures width <= displayWidth - 2.0 * Margin ==> Margin <= x
    ensures Margin <= center - width / 2.0 && center + width / 2.0 <= displayWidth - Margin
            ==> x == center - width / 2.0
    ensures center - width / 2.0 < Margin && width <= displayWidth - 2.0 * Margin ==> x == Margin
    ensures displayWidth - Margin < center + width / 2.0 ==> x == displayWidth - Margin - width
    ensures displayWidth - 2.0 * Margin < width ==> x == displayWidth - Margin - width && x < Margin
  {
    Min(Max(center - width / 2.0, Margin), displayWidth - Margin - width)
  }

  /** Top edge of a bubble placed below its anchor. */
  function BelowY(source: Rect, safeTop: real, outlineSize: real, platform: Platform): (y: real)
    ensures y >= source.MaxY() + BelowGap
    ensures y >= safeTop + BelowMinTop(platform) + outlineSize / 2.0
    ensures y == source.MaxY() + BelowGap || y == safeTop + BelowMinTop(platform) + outlineSize / 2.0
  {
    Max(source.MaxY() + BelowGap, safeTop + BelowMinTop(platform) + outlineSize / 2.0)
  }

  /** Top edge of a bubble of the given height placed above its anchor. */
  function AboveY(source: Rect, height: real, safeTop: real, platform: Platform): (y: real)
    ensures y >= source.origin.y - height - AboveGap
    ensures y >= safeTop + AboveMinTop(platform)
    ensures y == source.origin.y - height - AboveGap || y == safeTop + AboveMinTop(platform)
  {
    Max(source.origin.y - height - AboveGap, safeTop + AboveMinTop(platform))
  }

  /** The entry after placement below its anchor: only the bubble rectangle
      and the arrow offset change, the bubble takes the measured size, and
      the arrow's centre lands on the anchor's centre. */
  function PlacedBelow(info: Info, measured: Size, displayWidth: real, safeTop: real,
                       outlineSize: real, platform: Platform): (placed: Info)
    ensures placed.(calloutRect := info.calloutRect, arrowOffset := info.arrowOffset) == info
    ensures placed.calloutRect.size == measured
    ensures placed.calloutRect.origin.x + measured.width / 2.0 + placed.arrowOffset == info.sourceViewRect.MidX()
    ensures placed.calloutRect.origin.x + measured.width <= displayWidth - Margin
    ensures placed.calloutRect.origin
         == Point(BubbleX(info.sourceViewRect.MidX(), measured.width, displayWidth),
                  BelowY(info.sourceViewRect, safeTop, outlineSize, platform))
    ensures placed.calloutRect.origin.y >= info.sourceViewRect.MaxY() + BelowGap
    ensures placed.calloutRect.origin.y >= safeTop + BelowMinTop(platform) + outlineSize / 2.0
  {
    var center := info.sourceViewRect.MidX();
    var x := BubbleX(center, measured.width, displayWidth);
    var y := BelowY(info.sourceViewRect, safeTop, outlineSize, platform);
    info.(calloutRect := Rect(Point(x, y), measured), arrowOffset := center - (x + measured.width / 2.0))
  }

  /** The entry after placement above its anchor (the outline size plays no
      part here). */
  function PlacedAbove(info: Info, measured: Size, displayWidth: real, safeTop: real,
                       platform: Platform): (placed: Info)
    ensures placed.(calloutRect := info.calloutRect, arrowOffset := info.arrowOffset) == info
    ensures placed.calloutRect.size == measured
    ensures placed.calloutRect.origin.x + measured.width / 2.0 + placed.arrowOffset == info.sourceViewRect.MidX()
    ensures placed.calloutRect.origin.x + measured.width <= displayWidth - Margin
    ensures placed.calloutRect.origin
         == Point(BubbleX(info.sourceViewRect.MidX(), measured.width, displayWidth),
                  AboveY(info.sourceViewRect, measured.height, safeTop, platform))
    ensures placed.calloutRect.origin.y >= info.sourceViewRect.origin.y - measured.height - AboveGap
    ensures placed.calloutRect.origin.y >= safeTop + AboveMinTop(platform)
  {
    var center := info.sourceViewRect.MidX();
    var x := BubbleX(center, measured.width, displayWidth);
    var y := AboveY(info.sourceViewRect, measured.height, safeTop, platform);
    info.(calloutRect := Rect(Point(x, y), measured), arrowOffset := center - (x + measured.width / 2.0))
  }

  /** The entry after placement on the side its own placement names. */
  function Placed(info: Info, measured: Size, displayWidth: real, safeTop: real,
                  outlineSize: real, platform: Platform): (placed: Info)
    ensures placed.placement == info.placement
    ensures placed.(calloutRect := info.calloutRect, arrowOffset := info.arrowOffset) == info
    ensures placed.calloutRect.size == measured
    ensures placed.calloutRect.origin.x + measured.width / 2.0 + placed.arrowOffset == info.sourceViewRect.MidX()
    ensures info.placement == Below
            ==> placed == PlacedBelow(info, measured, displayWidth, safeTop, outlineSize, platform)
    ensures info.placement == Above
            ==> placed == PlacedAbove(info, measured, displayWidth, safeTop, platform)
  {
    match info.placement
    case Below => PlacedBelow(info, measured, displayWidth, safeTop, outlineSize, platform)
    case Above => PlacedAbove(info, measured, displayWidth, safeTop, platform)
  }

  /** Two concrete placements on a 320-wide display with a 200-wide bubble:
      an anchor spanning 100 to 150 needs no clamp, and an anchor spanning
      0 to 20 is clamped to the left margin with the arrow moved 98 left. */
  lemma ClampExamples()
    ensures BubbleX(125.0, 200.0, 320.0) == 25.0
    ensures 125.0 - (BubbleX(125.0, 200.0, 320.0) + 100.0) == 0.0
    ensures BubbleX(10.0, 200.0, 320.0) == Margin
    ensures 10.0 - (BubbleX(10.0, 200.0, 320.0) + 100.0) == -98.0
  {
  }

  /**
   * The horizontal clamp both placement methods share: the left clamp
   * records how far the arrow must shift left, the right clamp overwrites
   * the offset. In every branch the arrow's centre ends on the anchor's.
   */
  method ClampHorizontally(center: real, width: real, displayWidth: real)
    returns (x: real, xOffset: real)
    ensures x == BubbleX(center, width, displayWidth)
    ensures x + width / 2.0 + xOffset == center
    ensures Margin <= center - width / 2.0 && center + width / 2.0 <= displayWidth - Margin
            ==> xOffset == 0.0
  {
    xOffset := 0.0;
    x := center - width / 2.0;
    if x < Margin {
      xOffset := x - Margin;
      x := Margin;
    }
    if x + width > displayWidth - Margin {
      x := (displayWidth - Margin) - width;
      xOffset := center - (x + width / 2.0);
    }
  }

  /** Places a callout below its anchor, as the view does before writing the
      entry back into the registry. */
  method CalculateForBelow(info: Info, measured: Size, displayWidth: real, safeTop: real,
                           outlineSize: real, platform: Platform)
    returns (placed: Info)
    ensures placed == PlacedBelow(info, measured, displayWidth, safeTop, outlineSize, platform)
  {
    var calloutInfo := info;
    calloutInfo := calloutInfo.(calloutRect := calloutInfo.calloutRect.(size := measured));
    var center := calloutInfo.sourceViewRect.origin.x + calloutInfo.sourceViewRect.size.width / 2.0;
    var x, xOffset := ClampHorizontally(center, calloutInfo.calloutRect.size.width, displayWidth);
    var y := calloutInfo.sourceViewRect.origin.y + calloutInfo.sourceViewRect.size.height + BelowGap;
    calloutInfo := calloutInfo.(arrowOffset := xOffset);
    if y < safeTop + BelowMinTop(platform) + outlineSize / 2.0 {
      y := safeTop + BelowMinTop(platform) + outlineSize / 2.0;
    }
    calloutInfo := calloutInfo.(calloutRect := calloutInfo.calloutRect.(origin := Point(x, y)));
    placed := calloutInfo;
  }

  /** Places a callout above its anchor, as the view does before writing the
      entry back into the registry. */
  method CalculateForAbove(info: Info, measured: Size, displayWidth: real, safeTop: real,
                           platform: Platform)
    returns (placed: Info)
    ensures placed == PlacedAbove(info, measured, displayWidth, safeTop, platform)
  {
    var calloutInfo := info;
    calloutInfo := calloutInfo.(calloutRect := calloutInfo.calloutRect.(size := measured));
    var center := calloutInfo.sourceViewRect.origin.x + calloutInfo.sourceViewRect.size.width / 2.0;
    var x, xOffset := ClampHorizontally(center, calloutInfo.calloutRect.size.width, displayWidth);
    var y := calloutInfo.sourceViewRect.origin.y - calloutInfo.calloutRect.size.height - AboveGap;
    calloutInfo := calloutInfo.(arrowOffset := xOffset);
    if y < safeTop + AboveMinTop(platform) {
      y := safeTop + AboveMinTop(platform);
    }
    calloutInfo := calloutInfo.(calloutRect := calloutInfo.calloutRect.(origin := Point(x, y)));
    placed := calloutInfo;
  }

  /**
   * The frame limits of the bubble for a display of the given width. The
   * width-versus-width test that picks the percentage is always false, so
   * the maximum is the larger of the minimum and 35% of the usable width.
   */
  function MinAndMaxWidths(displayWidth: real): (widths: (real, real))
    ensures widths.0 == MinBubbleWidth
    ensures widths.0 <= widths.1
    ensures widths.1 == Max(MinBubbleWidth, (displayWidth - 2.0 * Margin) * 0.35)
  {
    var minWidth := MinBubbleWidth;
    var percentage := if displayWidth < displayWidth then 0.667 else 0.35;
    var twoThirdsWidth := (displayWidth - 16.0) * percentage;
    var maxWidth := if minWidth < twoThirdsWidth then twoThirdsWidth else minWidth;
    (minWidth, maxWidth)
  }
}
