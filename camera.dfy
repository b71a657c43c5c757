/**
 * The margin-following camera of the scrolling variants.  Four rules run in
 * order (left, right, up, down); each reads the camera offset the previous
 * rule wrote.  On a frame where anything moved the camera, both offsets are
 * truncated to whole pixels and the viewport is published.
 */
module Camera {
  import opened Options
  import opened Numbers
  import opened Sprites

  const ScreenWidth: int := 1000
  const ScreenHeight: int := 650

  /** LEFT_, RIGHT_, BOTTOM_ and TOP_VIEWPORT_MARGIN. */
  datatype Margins = Margins(left: real, right: real, bottom: real, top: real)

  /** `view_left` and `view_bottom`. */
  datatype View = View(left: real, bottom: real)

  /** The rectangle handed to `arcade.set_viewport(left, right, bottom, top)`. */
  datatype Rect = Rect(left: int, right: int, bottom: int, top: int)

  /** Left rule: if the player is left of `view_left + margin`, scroll left by the difference. */
  function ScrollLeft(m: Margins, viewLeft: real, p: Sprite): (r: real)
    ensures p.Left() < viewLeft + m.left ==> r < viewLeft && r + m.left == p.Left()
    ensures viewLeft + m.left <= p.Left() ==> r == viewLeft
  {
    var leftBoundary := viewLeft + m.left;
    if p.Left() < leftBoundary then viewLeft - (leftBoundary - p.Left()) else viewLeft
  }

  /** Right rule: if the player is right of `view_left + SCREEN_WIDTH - margin`, scroll right. */
  function ScrollRight(m: Margins, viewLeft: real, p: Sprite): (r: real)
    ensures p.Right() > viewLeft + ScreenWidth as real - m.right ==>
              r > viewLeft && r + ScreenWidth as real - m.right == p.Right()
    ensures p.Right() <= viewLeft + ScreenWidth as real - m.right ==> r == viewLeft
  {
    var rightBoundary := viewLeft + ScreenWidth as real - m.right;
    if p.Right() > rightBoundary then viewLeft + (p.Right() - rightBoundary) else viewLeft
  }

  /** Up rule: if the player is above `view_bottom + SCREEN_HEIGHT - margin`, scroll up. */
  function ScrollUp(m: Margins, viewBottom: real, p: Sprite): (r: real)
    ensures p.Top() > viewBottom + ScreenHeight as real - m.top ==>
              r > viewBottom && r + ScreenHeight as real - m.top == p.Top()
    ensures p.Top() <= viewBottom + ScreenHeight as real - m.top ==> r == viewBottom
  {
    var topBoundary := viewBottom + ScreenHeight as real - m.top;
    if p.Top() > topBoundary then viewBottom + (p.Top() - topBoundary) else viewBottom
  }

  /** Down rule: if the player is below `view_bottom + margin`, scroll down. */
  function ScrollDown(m: Margins, viewBottom: real, p: Sprite): (r: real)
    ensures p.Bottom() < viewBottom + m.bottom ==> r < viewBottom && r + m.bottom == p.Bottom()
    ensures viewBottom + m.bottom <= p.Bottom() ==> r == viewBottom
  {
    var bottomBoundary := viewBottom + m.bottom;
    if p.Bottom() < bottomBoundary then viewBottom - (bottomBoundary - p.Bottom()) else viewBottom
  }

  /** The camera after the four rules, and the dirty flag after them. */
  datatype Scrolled = Scrolled(view: View, changed: bool)

  /** Is any of the four rules going to fire, each seeing the offset the one before it wrote? */
  predicate AnyRuleFires(m: Margins, v: View, p: Sprite) {
    var l := ScrollLeft(m, v.left, p);
    var b := ScrollUp(m, v.bottom, p);
    || p.Left() < v.left + m.left
    || p.Right() > l + ScreenWidth as real - m.right
    || p.Top() > v.bottom + ScreenHeight as real - m.top
    || p.Bottom() < b + m.bottom
  }

  /**
   * The four rules in source order.  `dirty` is the flag as the frame had it
   * before the rules (set by a respawn or a level change).
   */
  function Scroll(m: Margins, v: View, p: Sprite, dirty: bool): (r: Scrolled)
    ensures r.changed == (dirty || AnyRuleFires(m, v, p))
    ensures !AnyRuleFires(m, v, p) ==> r.view == v
  {
    var l := ScrollRight(m, ScrollLeft(m, v.left, p), p);
    var b := ScrollDown(m, ScrollUp(m, v.bottom, p), p);
    Scrolled(View(l, b), dirty || AnyRuleFires(m, v, p))
  }

  /** The offsets the frame leaves behind: truncated toward zero when dirty, untouched otherwise. */
  function Settle(r: Scrolled): (v: View)
    ensures !r.changed ==> v == r.view
    ensures r.changed ==> IsIntegral(v.left) && IsIntegral(v.bottom)
    ensures r.changed ==> -1.0 < v.left - r.view.left < 1.0 && -1.0 < v.bottom - r.view.bottom < 1.0
  {
    if r.changed then View(Trunc(r.view.left) as real, Trunc(r.view.bottom) as real) else r.view
  }

  /** What `arcade.set_viewport` receives this frame, if it is called at all. */
  function Publish(r: Scrolled): (p: Option<Rect>)
    ensures p.Some? <==> r.changed
    ensures p.Some? ==> p.value.right - p.value.left == ScreenWidth && p.value.top - p.value.bottom == ScreenHeight
    ensures p.Some? ==> p.value.left as real == Settle(r).left && p.value.bottom as real == Settle(r).bottom
  {
    if r.changed then
      var l := Trunc(r.view.left);
      var b := Trunc(r.view.bottom);
      Some(Rect(l, ScreenWidth + l, b, ScreenHeight + b))
    else None
  }

  /**
   * A player box that fits between the margins ends up between them: after
   * the four rules its edges lie within
   * [view_left + left margin, view_left + width - right margin] and
   * [view_bottom + bottom margin, view_bottom + height - top margin].
   */
  lemma MarginsHold(m: Margins, v: View, p: Sprite, dirty: bool)
    requires 0.0 <= p.width <= ScreenWidth as real - m.left - m.right
    requires 0.0 <= p.height <= ScreenHeight as real - m.bottom - m.top
    ensures var w := Scroll(m, v, p, dirty).view;
            && w.left + m.left <= p.Left()
            && p.Right() <= w.left + ScreenWidth as real - m.right
            && w.bottom + m.bottom <= p.Bottom()
            && p.Top() <= w.bottom + ScreenHeight as real - m.top
  {
  }

  /** A camera that already frames the player with the margins does not move, and nothing is published unless the frame was dirty. */
  lemma StillCamera(m: Margins, v: View, p: Sprite, dirty: bool)
    requires v.left + m.left <= p.Left() && p.Right() <= v.left + ScreenWidth as real - m.right
    requires v.bottom + m.bottom <= p.Bottom() && p.Top() <= v.bottom + ScreenHeight as real - m.top
    ensures Scroll(m, v, p, dirty) == Scrolled(v, dirty)
    ensures !dirty ==> Publish(Scroll(m, v, p, dirty)) == None
  {
  }
}
