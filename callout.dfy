/**
 * The user-facing callout description (GuideCallout as a value) and its
 * chainable setters. Each setter returns a copy; the receiver, being a
 * value, is never changed.
 */
module Callout {
  import opened Wrappers
  import opened Geometry

  datatype GuideCallout = GuideCallout(
    id: string,
    placement: Placement,
    title: Option<string>,
    message: Option<string>,
    offset: Point)

  /** A callout with the given id and every other field at its default. */
  function New(id: string): (c: GuideCallout)
    ensures c.id == id
    ensures c.placement == Below
    ensures c.title == None && c.message == None
    ensures c.offset == Point(0.0, 0.0)
  {
    GuideCallout(id, Below, None, None, ZeroPoint)
  }

  /** Copy with a new placement: undoing the change gives back the receiver. */
  function WithPlacement(c: GuideCallout, placement: Placement): (r: GuideCallout)
    ensures r.placement == placement
    ensures r.(placement := c.placement) == c
  {
    var callout := c;
    callout.(placement := placement)
  }

  /** Copy with a title. */
  function WithTitle(c: GuideCallout, title: string): (r: GuideCallout)
    ensures r.title == Some(title)
    ensures r.(title := c.title) == c
  {
    var callout := c;
    callout.(title := Some(title))
  }

  /** Copy with a message. */
  function WithMessage(c: GuideCallout, message: string): (r: GuideCallout)
    ensures r.message == Some(message)
    ensures r.(message := c.message) == c
  {
    var callout := c;
    callout.(message := Some(message))
  }

  /** Copy with an anchor offset. */
  function WithOffset(c: GuideCallout, offset: Point): (r: GuideCallout)
    ensures r.offset == offset
    ensures r.(offset := c.offset) == c
  {
    var callout := c;
    callout.(offset := offset)
  }

  /** Setters of different fields commute, so a chain describes the same
      callout in any order: each field holds the value its setter gave it. */
  lemma SettersCommute(c: GuideCallout, p: Placement, t: string, m: string, o: Point)
    ensures WithTitle(WithPlacement(c, p), t) == WithPlacement(WithTitle(c, t), p)
    ensures WithMessage(WithPlacement(c, p), m) == WithPlacement(WithMessage(c, m), p)
    ensures WithOffset(WithPlacement(c, p), o) == WithPlacement(WithOffset(c, o), p)
    ensures WithMessage(WithTitle(c, t), m) == WithTitle(WithMessage(c, m), t)
    ensures WithOffset(WithTitle(c, t), o) == WithTitle(WithOffset(c, o), t)
    ensures WithOffset(WithMessage(c, m), o) == WithMessage(WithOffset(c, o), m)
    ensures WithOffset(WithMessage(WithTitle(WithPlacement(c, p), t), m), o)
         == GuideCallout(c.id, p, Some(t), Some(m), o)
  {
  }
}
