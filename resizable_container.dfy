/** `ResizableContainer`: two panes side by side whose divider the user
    drags. The left pane's width is kept as a percentage of the container
    and recomputed from the raw pointer position on every move. */
module Resizable {
  import opened Common

  /** The container's bounding rectangle on the horizontal axis, as
      `getBoundingClientRect` reports it. */
  datatype Rect = Rect(left: real, width: real)

  const DefaultSplit: real := 50.0
  const DefaultMinWidth: real := 200.0

  function Max(a: real, b: real): real { if a >= b then a else b }
  function Min(a: real, b: real): real { if a <= b then a else b }

  /** The left pane's new width in pixels,
      `Math.max(minLeft, Math.min(mouseX, containerWidth - minRight))`.
      When the container has room for both minimums the width lies between
      them, follows the pointer inside that range and sticks to the nearer
      bound outside it; when it has not, the left minimum wins outright. */
  function ClampPx(mouseX: real, containerWidth: real, minLeft: real, minRight: real): (px: real)
    ensures minLeft <= px
    ensures minLeft + minRight <= containerWidth ==> px <= containerWidth - minRight
    ensures containerWidth < minLeft + minRight ==> px == minLeft
    ensures minLeft <= mouseX <= containerWidth - minRight ==> px == mouseX
    ensures mouseX <= minLeft ==> px == minLeft
    ensures minLeft + minRight <= containerWidth && containerWidth - minRight <= mouseX ==>
              px == containerWidth - minRight
  {
    Max(minLeft, Min(mouseX, containerWidth - minRight))
  }

  /** The new `leftWidth`: the clamped pixel width of the pointer's offset
      into the container, as a percentage of the container's width.
      Converting back gives the clamped pixel width exactly. */
  function LeftPercent(clientX: real, container: Rect, minLeft: real, minRight: real): (p: real)
    requires container.width > 0.0
    ensures p * container.width / 100.0 == ClampPx(clientX - container.left, container.width, minLeft, minRight)
  {
    var px := ClampPx(clientX - container.left, container.width, minLeft, minRight);
    var p := px / container.width * 100.0;
    assert p * container.width / 100.0 == px by {
      assert p * container.width == px * 100.0;
    }
    p
  }

  /** When the container is wide enough for both minimums, the pane widths
      the percentage stands for meet both. */
  lemma PanesMeetMinimums(clientX: real, container: Rect, minLeft: real, minRight: real)
    requires container.width > 0.0 && minLeft + minRight <= container.width
    ensures var leftPx := LeftPercent(clientX, container, minLeft, minRight) * container.width / 100.0;
      minLeft <= leftPx && minRight <= container.width - leftPx
  {
  }

  lemma DivMonotone(a: real, b: real, w: real)
    requires w > 0.0 && a <= b
    ensures a / w <= b / w
  {
    var qa, qb := a / w, b / w;
    assert qa * w == a && qb * w == b;
  }

  /** With non-negative minimums that fit, the percentage is in [0, 100]. */
  lemma PercentInRange(clientX: real, container: Rect, minLeft: real, minRight: real)
    requires container.width > 0.0 && 0.0 <= minLeft && 0.0 <= minRight
    requires minLeft + minRight <= container.width
    ensures 0.0 <= LeftPercent(clientX, container, minLeft, minRight) <= 100.0
  {
    var w := container.width;
    var px := ClampPx(clientX - container.left, w, minLeft, minRight);
    DivMonotone(0.0, px, w);
    DivMonotone(px, w, w);
    assert w / w == 1.0 by { assert (w / w) * w == 1.0 * w; }
  }

  /** When the container is narrower than both minimums together, the
      left pane gets exactly its minimum, wherever the pointer is. */
  lemma LeftMinimumWins(clientX: real, container: Rect, minLeft: real, minRight: real)
    requires container.width > 0.0 && container.width < minLeft + minRight
    ensures LeftPercent(clientX, container, minLeft, minRight) == minLeft / container.width * 100.0
  {
    var p := LeftPercent(clientX, container, minLeft, minRight);
    assert p * container.width == minLeft * 100.0;
  }

  /** Moving the pointer right never makes the left pane narrower. */
  lemma MonotoneInPointer(x1: real, x2: real, container: Rect, minLeft: real, minRight: real)
    requires container.width > 0.0 && x1 <= x2
    ensures LeftPercent(x1, container, minLeft, minRight) <= LeftPercent(x2, container, minLeft, minRight)
  {
    var w := container.width;
    DivMonotone(ClampPx(x1 - container.left, w, minLeft, minRight),
                ClampPx(x2 - container.left, w, minLeft, minRight), w);
  }

  /** A 400-pixel container with both minimums at 200 and the pointer 50
      pixels in: the left pane snaps to its minimum, half the width. */
  lemma NarrowPointerSnapsToHalf(left: real)
    ensures LeftPercent(left + 50.0, Rect(left, 400.0), DefaultMinWidth, DefaultMinWidth) == 50.0
  {
    var p := LeftPercent(left + 50.0, Rect(left, 400.0), DefaultMinWidth, DefaultMinWidth);
    assert p * 400.0 / 100.0 == 200.0;
  }

  class ResizableContainer {
    var leftWidth: real
    var isDragging: bool
    const minLeftWidth: real
    const minRightWidth: real

    constructor (defaultSplit: real, minLeftWidth: real, minRightWidth: real)
      ensures leftWidth == defaultSplit && !isDragging
      ensures this.minLeftWidth == minLeftWidth && this.minRightWidth == minRightWidth
    {
      leftWidth, isDragging := defaultSplit, false;
      this.minLeftWidth, this.minRightWidth := minLeftWidth, minRightWidth;
    }

    /** The component rendered without the optional properties. */
    constructor WithDefaults()
      ensures leftWidth == 50.0 && !isDragging
      ensures minLeftWidth == 200.0 && minRightWidth == 200.0
    {
      leftWidth, isDragging := DefaultSplit, false;
      minLeftWidth, minRightWidth := DefaultMinWidth, DefaultMinWidth;
    }

    /** Pressing on the divider starts a drag. */
    method HandleMouseDown()
      modifies this
      ensures isDragging && leftWidth == old(leftWidth)
    {
      isDragging := true;
    }

    /** Releasing the button ends the drag. */
    method HandleMouseUp()
      modifies this
      ensures !isDragging && leftWidth == old(leftWidth)
    {
      isDragging := false;
    }

    /** A pointer move. It does nothing unless a drag is under way and the
        container is mounted (`container` is `None` when the ref is null);
        otherwise the new width depends on the pointer and the container
        alone, never on the previous width. */
    method HandleMouseMove(container: Option<Rect>, clientX: real)
      requires isDragging && container.Some? ==> container.value.width > 0.0
      modifies this
      ensures isDragging == old(isDragging)
      ensures !old(isDragging) || container.None? ==> leftWidth == old(leftWidth)
      ensures old(isDragging) && container.Some? ==>
        leftWidth == LeftPercent(clientX, container.value, minLeftWidth, minRightWidth)
    {
      if !isDragging || container.None? {
        return;
      }
      var rect := container.value;
      var mouseX := clientX - rect.left;
      var newLeftWidthPx := Max(minLeftWidth, Min(mouseX, rect.width - minRightWidth));
      leftWidth := newLeftWidthPx / rect.width * 100.0;
    }
  }
}
