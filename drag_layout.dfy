/** DragLayout, the first demo layout: any child may be dragged, and each
  * axis is clamped so that the child stays inside the parent. */
module DragLayoutDemo {

  /** tryCaptureView: every child may be captured. */
  function TryCaptureView(touchId: int): (r: bool)
    ensures r
  {
    true
  }

  /** The clamp both callbacks apply along one axis, for a parent of size
    * extent and a child of size size: a negative proposal becomes 0, one
    * past extent - size becomes extent - size, anything else is kept. The
    * lower test comes first, so a child larger than its parent is still
    * held at 0 when the proposal is negative. clampViewPositionHorizontal
    * is this clamp with the parent's and the child's widths,
    * clampViewPositionVertical the same with their heights. */
  function ClampToRange(extent: int, size: int, pos: int): (r: int)
    ensures pos < 0 ==> r == 0
    ensures r == pos || r == 0 || r == extent - size
    ensures size <= extent ==> 0 <= r <= extent - size
    ensures size <= extent ==> (r == pos <==> 0 <= pos <= extent - size)
  {
    if pos < 0 then 0
    else if pos > extent - size then extent - size
    else pos
  }

  /** When the child fits, the clamp picks the point of [0, extent - size]
    * nearest to the proposal. */
  lemma ClampIsNearest(extent: int, size: int, pos: int, q: int)
    requires size <= extent && 0 <= q <= extent - size
    ensures var r := ClampToRange(extent, size, pos);
      (if pos >= r then pos - r else r - pos) <= (if pos >= q then pos - q else q - pos)
  {
  }

  /** Clamping a clamped position changes nothing, when the child fits. */
  lemma ClampIdempotent(extent: int, size: int, pos: int)
    requires size <= extent
    ensures ClampToRange(extent, size, ClampToRange(extent, size, pos)) == ClampToRange(extent, size, pos)
  {
  }

  /** A child larger than its parent: a negative proposal is held at 0, a
    * non-negative one at extent - size, which is negative. */
  lemma OversizedChild(extent: int, size: int, pos: int)
    requires size > extent
    ensures pos < 0 ==> ClampToRange(extent, size, pos) == 0
    ensures pos >= 0 ==> ClampToRange(extent, size, pos) == extent - size < 0
  {
  }
}
