/** DragLayout2, the second demo layout: its clamps remember the positions
  * they return, the horizontal clamp has no lower bound, and a released
  * child snaps to the left or the right edge of the parent. */
module DragLayout2Demo {
  import DragLayoutDemo

  /** A child view: its left and top edges and its size. */
  datatype Box = Box(left: int, top: int, width: nat, height: nat)

  /** The horizontal clamp: a negative proposal is kept as it is, one past
    * extent - size becomes extent - size, anything else is kept. */
  function UpperClamp(extent: int, size: int, pos: int): (r: int)
    ensures r <= pos
    ensures pos < 0 ==> r == pos
    ensures r == pos || r == extent - size
    ensures pos >= 0 ==> r <= extent - size
  {
    if pos < 0 then pos
    else if pos > extent - size then extent - size
    else pos
  }

  /** The two demo layouts clamp a non-negative horizontal proposal alike;
    * they differ exactly on negative ones, which DragLayout holds at 0 and
    * DragLayout2 lets through. */
  lemma UpperClampAgainstDragLayout(extent: int, size: int, pos: int)
    ensures pos >= 0 ==> UpperClamp(extent, size, pos) == DragLayoutDemo.ClampToRange(extent, size, pos)
    ensures pos < 0 ==> UpperClamp(extent, size, pos) == pos && DragLayoutDemo.ClampToRange(extent, size, pos) == 0
  {
  }

  /** Clamping again what the horizontal clamp returned changes nothing. */
  lemma UpperClampIdempotent(extent: int, size: int, pos: int)
    ensures UpperClamp(extent, size, UpperClamp(extent, size, pos)) == UpperClamp(extent, size, pos)
  {
  }

  /** Where onViewReleased settles a child of width childWidth whose last
    * clamped left edge is currentLeft, in a parent of width width: at the
    * left edge when the child's half width plus currentLeft is below half
    * the parent's width (both halves rounded down), else at the right edge. */
  function SnapLeft(width: nat, childWidth: nat, currentLeft: int): (r: int)
    ensures r == 0 || r == width - childWidth
    ensures childWidth <= width ==> 0 <= r <= width - childWidth
  {
    if childWidth / 2 + currentLeft < width / 2 then 0 else width - childWidth
  }

  /** The snap compares the child's middle with the parent's: a child whose
    * middle is at least one unit left of the parent's middle goes to the
    * left edge, one whose middle is at or right of it goes to the right edge. */
  lemma SnapByMiddle(width: nat, childWidth: nat, currentLeft: int)
    ensures 2 * currentLeft + childWidth + 2 <= width ==> SnapLeft(width, childWidth, currentLeft) == 0
    ensures 2 * currentLeft + childWidth >= width ==> SnapLeft(width, childWidth, currentLeft) == width - childWidth
  {
    var hc, hw := childWidth / 2, width / 2;
    assert 2 * hc <= childWidth <= 2 * hc + 1;
    assert 2 * hw <= width <= 2 * hw + 1;
  }

  /** Because both halves are rounded down, a child released at the left edge
    * can be sent to the right one: with a parent 5 wide and a child 4 wide,
    * a child at 0 settles at 1. */
  lemma SnapFromLeftEdge()
    ensures SnapLeft(5, 4, 0) == 1
  {
  }

  class DragLayout2 {
    /** getWidth() and getHeight() of the layout. */
    const width: nat
    const height: nat
    /** The last values the clamps returned. */
    var currentLeft: int
    var currentTop: int
    /** The captured child's position when it was captured. */
    var dragOriLeft: int
    var dragOriTop: int

    constructor (width: nat, height: nat)
      ensures this.width == width && this.height == height
      ensures currentLeft == 0 && currentTop == 0 && dragOriLeft == 0 && dragOriTop == 0
    {
      this.width := width;
      this.height := height;
      currentLeft, currentTop := 0, 0;
      dragOriLeft, dragOriTop := 0, 0;
    }

    /** tryCaptureView: every child may be captured; its position is kept. */
    method TryCaptureView(child: Box) returns (r: bool)
      modifies this`dragOriLeft, this`dragOriTop
      ensures r && dragOriLeft == child.left && dragOriTop == child.top
    {
      dragOriLeft := child.left;
      dragOriTop := child.top;
      r := true;
    }

    /** clampViewPositionHorizontal: the proposal clamped from above only,
      * remembered as the current left edge. */
    method ClampViewPositionHorizontal(child: Box, left: int, dx: int) returns (r: int)
      modifies this`currentLeft
      ensures r == currentLeft == UpperClamp(width, child.width, left)
    {
      if left < 0 {
        currentLeft := left;
        return currentLeft;
      }
      var right := width - child.width;
      if left > right {
        currentLeft := right;
        return currentLeft;
      }
      currentLeft := left;
      return currentLeft;
    }

    /** clampViewPositionVertical: the proposal clamped to [0, height - child
      * height], remembered as the current top edge. */
    method ClampViewPositionVertical(child: Box, top: int, dy: int) returns (r: int)
      modifies this`currentTop
      ensures r == currentTop == DragLayoutDemo.ClampToRange(height, child.height, top)
    {
      if top < 0 {
        currentTop := 0;
        return currentTop;
      }
      var bottom := height - child.height;
      if top > bottom {
        currentTop := bottom;
        return currentTop;
      }
      currentTop := top;
      return currentTop;
    }

    /** onViewReleased: the position the released child is settled at, from
      * the remembered left and top edges. */
    method OnViewReleased(released: Box) returns (settleLeft: int, settleTop: int)
      ensures settleLeft == SnapLeft(width, released.width, currentLeft)
      ensures settleTop == currentTop
      ensures settleLeft == 0 || settleLeft == width - released.width
    {
      if released.width / 2 + currentLeft < width / 2 {
        settleLeft := 0;
      } else {
        settleLeft := width - released.width;
      }
      settleTop := currentTop;
    }

    /** getViewHorizontalDragRange: how far the horizontal clamp lets a child
      * travel; a proposal at or past it is stopped there. */
    function HorizontalDragRange(child: Box): (r: int)
      ensures forall pos :: pos >= 0 && pos >= r ==> UpperClamp(width, child.width, pos) == r
    {
      width - child.width
    }

    /** getViewVerticalDragRange: how far the vertical clamp lets a child
      * travel; when the child fits, every clamped top lies in [0, r]. */
    function VerticalDragRange(child: Box): (r: int)
      ensures child.height <= height ==>
        forall pos :: 0 <= DragLayoutDemo.ClampToRange(height, child.height, pos) <= r
    {
      height - child.height
    }
  }
}
