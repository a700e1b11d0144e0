/**
 * The straight part of the bubble outline (GuideCalloutShape): the three
 * vertices of the arrow notch, in the bubble's own coordinates. The
 * rounded corners are drawing detail and are not modelled.
 */
module CalloutShape {
  import opened Geometry
  import CalloutPlacement

  const ArrowWidth: real := 12.0
  const ArrowHeight: real := 8.0
  const CornerRadius: real := 8.0

  /** The notch: where its base starts, its tip, where its base ends. */
  datatype Arrow = Arrow(baseStart: Point, tip: Point, baseEnd: Point)

  /**
   * Below its anchor the notch sits on the top edge and points up; above
   * its anchor it sits on the bottom edge and points down. Either way it is
   * ArrowWidth wide, ArrowHeight tall, and centred at half the width plus
   * the arrow offset.
   */
  function ArrowVertices(placement: Placement, arrowOffset: real, bounds: Size): (a: Arrow)
    ensures a.tip.x == bounds.width / 2.0 + arrowOffset
    ensures a.baseStart.y == a.baseEnd.y
    ensures a.tip.x - a.baseStart.x == ArrowWidth / 2.0 && a.baseEnd.x - a.tip.x == ArrowWidth / 2.0
    ensures placement == Below ==> a.tip.y == 0.0 && a.baseStart.y - a.tip.y == ArrowHeight
    ensures placement == Above ==> a.tip.y == bounds.height && a.tip.y - a.baseStart.y == ArrowHeight
  {
    var arrowCenter := bounds.width / 2.0 + arrowOffset;
    match placement
    case Below =>
      Arrow(Point(arrowCenter - ArrowWidth / 2.0, ArrowHeight),
            Point(arrowCenter, 0.0),
            Point(arrowCenter + ArrowWidth / 2.0, ArrowHeight))
    case Above =>
      Arrow(Point(arrowCenter - ArrowWidth / 2.0, bounds.height - ArrowHeight),
            Point(arrowCenter, bounds.height),
            Point(arrowCenter + ArrowWidth / 2.0, bounds.height - ArrowHeight))
  }

  /** The arrow tip of the placed bubble, in display coordinates. */
  function GlobalTip(placed: Info): Point
  {
    var tip := ArrowVertices(placed.placement, placed.arrowOffset, placed.calloutRect.size).tip;
    Point(placed.calloutRect.origin.x + tip.x, placed.calloutRect.origin.y + tip.y)
  }

  /**
   * Whatever clamping the placement engine applied, the arrow tip of the
   * placed bubble is horizontally on the anchor's centre. Below the anchor
   * the tip lies under the anchor's bottom edge; above it, unless the safe
   * area pushed the bubble down, the tip lies AboveGap over the anchor's top.
   */
  lemma ArrowPointsAtAnchor(info: Info, measured: Size, displayWidth: real, safeTop: real,
                            outlineSize: real, platform: CalloutPlacement.Platform)
    ensures var placed := CalloutPlacement.Placed(info, measured, displayWidth, safeTop, outlineSize, platform);
            GlobalTip(placed).x == info.sourceViewRect.MidX()
    ensures var placed := CalloutPlacement.Placed(info, measured, displayWidth, safeTop, outlineSize, platform);
            info.placement == Below ==> GlobalTip(placed).y >= info.sourceViewRect.MaxY() + CalloutPlacement.BelowGap
    ensures var placed := CalloutPlacement.Placed(info, measured, displayWidth, safeTop, outlineSize, platform);
            info.placement == Above ==>
              GlobalTip(placed).y == CalloutPlacement.Max(info.sourceViewRect.origin.y - CalloutPlacement.AboveGap,
                                                          safeTop + CalloutPlacement.AboveMinTop(platform) + measured.height)
  {
    var placed := CalloutPlacement.Placed(info, measured, displayWidth, safeTop, outlineSize, platform);
    var a := ArrowVertices(placed.placement, placed.arrowOffset, placed.calloutRect.size);
    assert placed.placement == info.placement;
    assert placed.calloutRect.size == measured;
    assert a.tip.x == measured.width / 2.0 + placed.arrowOffset;
  }
}
