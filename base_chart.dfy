/**
 * `BaseChart`: the size bookkeeping every chart inherits. The chart keeps an
 * inner plot width and height; the root SVG container is the inner size plus
 * the margins, and every resize is announced with a `change:width` or
 * `change:height` event carrying the new and the old value.
 */
module Base {
  import opened Wrappers

  datatype Margins = Margins(top: real, bottom: real, left: real, right: real, padding: real)

  const DefaultMargins: Margins := Margins(10.0, 40.0, 60.0, 10.0, 10.0)

  /** The inner size used when the container has no size attribute. */
  const DefaultSize: real := 200.0

  /** A change event as the chart triggers it: (new value, old value). */
  datatype Change = WidthChanged(newWidth: real, oldWidth: real) | HeightChanged(newHeight: real, oldHeight: real)

  /**
   * The initial inner size along one axis: the container's attribute less the
   * two margins on that axis, or the default when the attribute is absent.
   */
  function InitialSize(attribute: Option<real>, before: real, after: real): (size: real)
    ensures attribute.Some? ==> size + before + after == attribute.value
    ensures attribute.None? ==> size == DefaultSize
  {
    match attribute
    case Some(outer) => outer - (after + before)
    case None => DefaultSize
  }

  class BaseChart {
    var margins: Margins
    var width: real
    var height: real
    /** The `width` and `height` attributes of the root SVG element. */
    var containerWidth: real
    var containerHeight: real
    /** The change events triggered so far, oldest first. */
    var events: seq<Change>

    /** The container always wraps the inner area and the margins. */
    ghost predicate Valid()
      reads this
    {
      containerWidth == width + margins.left + margins.right
      && containerHeight == height + margins.top + margins.bottom
    }

    /**
     * `initialize`, given the container's `width` and `height` attributes
     * (`None` when absent).
     */
    constructor(widthAttribute: Option<real>, heightAttribute: Option<real>)
      ensures Valid()
      ensures margins == DefaultMargins && events == []
      ensures width == InitialSize(widthAttribute, DefaultMargins.left, DefaultMargins.right)
      ensures height == InitialSize(heightAttribute, DefaultMargins.top, DefaultMargins.bottom)
      ensures widthAttribute.Some? ==> containerWidth == widthAttribute.value
      ensures heightAttribute.Some? ==> containerHeight == heightAttribute.value
    {
      margins := DefaultMargins;
      width := InitialSize(widthAttribute, DefaultMargins.left, DefaultMargins.right);
      height := InitialSize(heightAttribute, DefaultMargins.top, DefaultMargins.bottom);
      events := [];
      new;
      UpdateContainerWidth();
      UpdateContainerHeight();
    }

    method UpdateContainerWidth()
      modifies this
      ensures containerWidth == width + margins.left + margins.right
      ensures margins == old(margins) && width == old(width) && height == old(height)
      ensures containerHeight == old(containerHeight) && events == old(events)
    {
      containerWidth := width + margins.left + margins.right;
    }

    method UpdateContainerHeight()
      modifies this
      ensures containerHeight == height + margins.top + margins.bottom
      ensures margins == old(margins) && width == old(width) && height == old(height)
      ensures containerWidth == old(containerWidth) && events == old(events)
    {
      containerHeight := height + margins.top + margins.bottom;
    }

    /** `width(newWidth)`: the setter; the getter is the field `width`. */
    method SetWidth(newWidth: real)
      modifies this
      ensures width == newWidth
      ensures containerWidth == newWidth + margins.left + margins.right
      ensures events == old(events) + [WidthChanged(newWidth, old(width))]
      ensures margins == old(margins) && height == old(height) && containerHeight == old(containerHeight)
      ensures old(Valid()) ==> Valid()
    {
      var oldWidth := width;
      width := newWidth;
      UpdateContainerWidth();
      events := events + [WidthChanged(newWidth, oldWidth)];
    }

    /** `height(newHeight)`: the setter; the getter is the field `height`. */
    method SetHeight(newHeight: real)
      modifies this
      ensures height == newHeight
      ensures containerHeight == newHeight + margins.top + margins.bottom
      ensures events == old(events) + [HeightChanged(newHeight, old(height))]
      ensures margins == old(margins) && width == old(width) && containerWidth == old(containerWidth)
      ensures old(Valid()) ==> Valid()
    {
      var oldHeight := height;
      height := newHeight;
      UpdateContainerHeight();
      events := events + [HeightChanged(newHeight, oldHeight)];
    }

    /** Moves the right margin, as the axes chart does to make room for a colour scale. */
    method SetRightMargin(right: real)
      modifies this
      ensures margins == old(margins).(right := right)
      ensures width == old(width) && height == old(height) && events == old(events)
      ensures containerWidth == old(containerWidth) && containerHeight == old(containerHeight)
    {
      margins := margins.(right := right);
    }
  }
}
