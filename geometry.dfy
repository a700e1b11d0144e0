/** The Option wrapper used for the optional fields of the display state. */
module Wrappers {
  datatype Option<T> = None | Some(value: T)
}

/**
 * Plain geometric values and the registry entry of one callout
 * (GuideCalloutInfo). Coordinates are exact reals: the placement engine
 * only adds, subtracts, halves and compares them.
 */
module Geometry {

  datatype Point = Point(x: real, y: real)

  datatype Size = Size(width: real, height: real)

  datatype Rect = Rect(origin: Point, size: Size)
  {
    /** Horizontal centre of the rectangle. */
    function MidX(): real { origin.x + size.width / 2.0 }

    /** Bottom edge of the rectangle (y grows downwards). */
    function MaxY(): real { origin.y + size.height }
  }

  datatype Insets = Insets(top: real, leading: real, bottom: real, trailing: real)

  const ZeroPoint: Point := Point(0.0, 0.0)
  const ZeroRect: Rect := Rect(ZeroPoint, Size(0.0, 0.0))
  const ZeroInsets: Insets := Insets(0.0, 0.0, 0.0, 0.0)

  datatype Placement = Above | Below

  /** Stands in for the type-erased content view (AnyView) of a callout. */
  type ViewToken = nat

  /** One registry entry: the anchor's rectangle, the placement, the content
      view, and the bubble rectangle and arrow offset the placement engine
      writes back. */
  datatype Info = Info(
    id: string,
    sourceViewRect: Rect,
    placement: Placement,
    view: ViewToken,
    calloutRect: Rect,
    arrowOffset: real,
    offset: Point)

  /** A fresh entry: every field but the id and the view at its default. */
  function NewInfo(id: string, view: ViewToken): (info: Info)
    ensures info.id == id && info.view == view
    ensures info.placement == Below
    ensures info.sourceViewRect == Rect(Point(0.0, 0.0), Size(0.0, 0.0))
    ensures info.calloutRect == Rect(Point(0.0, 0.0), Size(0.0, 0.0))
    ensures info.arrowOffset == 0.0 && info.offset == Point(0.0, 0.0)
  {
    Info(id, ZeroRect, Below, view, ZeroRect, 0.0, ZeroPoint)
  }

  /** Equality of registry entries compares ids only: two entries are the
      same callout exactly when they agree once every other field of one is
      overwritten with the other's. */
  function SameCallout(a: Info, b: Info): (same: bool)
    ensures same <==>
      a.(sourceViewRect := b.sourceViewRect, placement := b.placement, view := b.view,
         calloutRect := b.calloutRect, arrowOffset := b.arrowOffset, offset := b.offset) == b
  {
    a.id == b.id
  }
}
