/** The drag callback of SwipeLayout as pure functions of the resolved panel:
  * horizontal clamping while a child is dragged, and the decision taken when
  * the captured child is released. */
module SwipeDrag {
  import opened Views

  /** How far right a drag may carry the given child: up to 0 for the centre
    * and the layout width for any other child when there is no left view,
    * otherwise up to the point where the left view's left edge reaches 0. */
  function MoveRightBound(p: Panel, child: nat): int
    requires p.Valid() && child < |p.children|
  {
    if p.leftView.None? then
      (if child == p.center then 0 else p.width)
    else
      p.children[child].left - p.children[p.leftView.value].left
  }

  /** How far left a drag may carry the given child: down to 0 for the centre
    * and minus the child's width for any other child when there is no right
    * view, otherwise down to the point where the right view's right edge
    * reaches the layout width. */
  function MoveLeftBound(p: Panel, child: nat): int
    requires p.Valid() && child < |p.children|
  {
    if p.rightView.None? then
      (if child == p.center then 0 else -(p.children[child].width as int))
    else
      p.width - p.children[p.rightView.value].left + p.children[child].left
        - p.children[p.rightView.value].width
  }

  /** clampMoveRight: the proposal, capped at the bound. */
  function ClampMoveRight(p: Panel, child: nat, left: int): (r: int)
    requires p.Valid() && child < |p.children|
    ensures r <= left && r <= MoveRightBound(p, child)
    ensures r == left || r == MoveRightBound(p, child)
  {
    if p.leftView.None? then
      (if child == p.center then Min(left, 0) else Min(left, p.width))
    else
      Min(left, p.children[child].left - p.children[p.leftView.value].left)
  }

  /** clampMoveLeft: the proposal, floored at the bound. */
  function ClampMoveLeft(p: Panel, child: nat, left: int): (r: int)
    requires p.Valid() && child < |p.children|
    ensures r >= left && r >= MoveLeftBound(p, child)
    ensures r == left || r == MoveLeftBound(p, child)
  {
    if p.rightView.None? then
      (if child == p.center then Max(left, 0) else Max(left, -(p.children[child].width as int)))
    else
      Max(left, p.width - p.children[p.rightView.value].left + p.children[child].left
                  - p.children[p.rightView.value].width)
  }

  /** clampViewPositionHorizontal: a move with dx > 0 is clamped to the
    * right, any other move (dx == 0 included) to the left. */
  function ClampHorizontal(p: Panel, child: nat, left: int, dx: int): (r: int)
    requires p.Valid() && child < |p.children|
    ensures dx > 0 ==> r <= left
    ensures dx <= 0 ==> r >= left
  {
    if dx > 0 then ClampMoveRight(p, child, left) else ClampMoveLeft(p, child, left)
  }

  /** Clamping a clamped position again changes nothing. */
  lemma ClampIdempotent(p: Panel, child: nat, left: int, dx: int)
    requires p.Valid() && child < |p.children|
    ensures ClampHorizontal(p, child, ClampHorizontal(p, child, left, dx), dx)
         == ClampHorizontal(p, child, left, dx)
  {
  }

  /** One move of the captured child as the drag helper performs it: a move
    * with no horizontal component changes nothing (the helper neither clamps
    * nor reports it); otherwise the child goes to the clamped position and
    * onViewPositionChanged drags every other child along by the same
    * distance. */
  function DragStep(p: Panel, child: nat, left: int): (q: Panel)
    requires p.Valid() && child < |p.children|
  {
    var at := p.children[child].left;
    if left == at then p else p.MovedBy(ClampHorizontal(p, child, left, left - at) - at)
  }

  /** In terms of the offset, a drag of one of the resolved views by d moves
    * the panel by d, but a move to the right stops at Upper() (the left
    * view's width, or 0 without one) and a move to the left stops at Lower()
    * (minus the right view's width, or 0 without one); a move by 0 leaves
    * every child where it was. */
  lemma DragStepOffset(p: Panel, child: nat, left: int)
    requires p.Valid() && child < |p.children| && p.IsView(child)
    requires p.Attached() && p.children[p.center].width == p.width
    ensures var d := left - p.children[child].left;
      DragStep(p, child, left).Offset() ==
        if d > 0 then Min(p.Offset() + d, p.Upper())
        else if d < 0 then Max(p.Offset() + d, p.Lower())
        else p.Offset()
    ensures left == p.children[child].left ==> DragStep(p, child, left).children == p.children
  {
    var at := p.children[child].left;
    if left == at {
      return;
    }
    var shift := ClampHorizontal(p, child, left, left - at) - at;
    var goal := if left - at > 0 then Min(p.Offset() + left - at, p.Upper())
                else Max(p.Offset() + left - at, p.Lower());
    assert p.Offset() + shift == goal by {
      if left - at > 0 {
        RightClampInOffsets(p, child, left);
      } else {
        LeftClampInOffsets(p, child, left);
      }
    }
    MovedByOffset(p, shift);
  }

  /** A drag step keeps the side views attached to the centre. */
  lemma DragStepAttached(p: Panel, child: nat, left: int)
    requires p.Valid() && child < |p.children| && p.Attached()
    ensures DragStep(p, child, left).Valid() && DragStep(p, child, left).Attached()
  {
    var at := p.children[child].left;
    MovedByKeepsShape(p, ClampHorizontal(p, child, left, left - at) - at);
  }

  /** clampMoveRight in terms of the offset: the centre may go right up to Upper(). */
  lemma RightClampInOffsets(p: Panel, child: nat, left: int)
    requires p.Valid() && child < |p.children| && p.IsView(child)
    requires p.Attached() && p.children[p.center].width == p.width
    ensures p.Offset() + ClampMoveRight(p, child, left) - p.children[child].left
         == Min(p.Offset() + left - p.children[child].left, p.Upper())
  {
  }

  /** clampMoveLeft in terms of the offset: the centre may go left down to Lower(). */
  lemma LeftClampInOffsets(p: Panel, child: nat, left: int)
    requires p.Valid() && child < |p.children| && p.IsView(child)
    requires p.Attached() && p.children[p.center].width == p.width
    ensures p.Offset() + ClampMoveLeft(p, child, left) - p.children[child].left
         == Max(p.Offset() + left - p.children[child].left, p.Lower())
  {
  }

  /** Every drag step of a captured resolved view (the centre, left or right
    * view) keeps the offset inside [Lower(), Upper()] once it is there: the
    * panel never opens further than the side view it reveals. */
  lemma DragStaysInRange(p: Panel, child: nat, left: int)
    requires p.Valid() && child < |p.children| && p.IsView(child)
    requires p.Attached() && p.children[p.center].width == p.width
    requires p.Lower() <= p.Offset() <= p.Upper()
    ensures p.Lower() <= DragStep(p, child, left).Offset() <= p.Upper()
  {
    DragStepOffset(p, child, left);
  }

  /** leftViewClampReached: the left view's right edge is at least its width,
    * that is, the whole left view lies at or right of the layout's left edge. */
  function LeftViewClampReached(p: Panel): (r: bool)
    requires p.Valid()
    ensures r <==> p.leftView.Some? && p.children[p.leftView.value].left >= 0
  {
    if p.leftView.None? then false
    else p.children[p.leftView.value].Right() >= p.children[p.leftView.value].width
  }

  /** rightViewClampReached: the right view's right edge is within the layout,
    * that is, its left edge is at most the layout width minus its width. */
  function RightViewClampReached(p: Panel): (r: bool)
    requires p.Valid()
    ensures r <==> (p.rightView.Some? &&
      p.children[p.rightView.value].left <= p.width - p.children[p.rightView.value].width)
  {
    if p.rightView.None? then false
    else p.children[p.rightView.value].Right() <= p.width
  }

  /** On an attached, full-width panel "clamp reached" means the panel is
    * open at least as far as the side view is wide. */
  lemma ClampReachedMeansFullyOpen(p: Panel)
    requires p.Valid() && p.Attached() && p.children[p.center].width == p.width
    ensures LeftViewClampReached(p) <==> p.leftView.Some? && p.Offset() >= p.Upper()
    ensures RightViewClampReached(p) <==> p.rightView.Some? && p.Offset() <= p.Lower()
  {
  }

  /** What the release callback does: nothing, report the current state to
    * the listener at once, or settle the released child at a target left. */
  datatype Release = Ignore | ReportState | SettleAt(target: int)

  /** Where a fling (or an auto-open) to the right aims the released child
    * before clamping: back by the centre's offset when the centre is left of
    * rest, otherwise as far as the layout width. */
  function RightGoal(p: Panel, child: nat): int
    requires p.Valid() && child < |p.children|
  {
    if p.Offset() < 0 then p.children[child].left - p.Offset() else p.width
  }

  function LeftGoal(p: Panel, child: nat): int
    requires p.Valid() && child < |p.children|
  {
    if p.Offset() > 0 then p.children[child].left - p.Offset() else -p.width
  }

  /** onMoveRightReleased; None when it does not handle the release. It never
    * ignores a release; it reports at once only after a slow move to the
    * right that fully shows the left view; it settles only at the clamped
    * fling goal or where the centre is back at rest; and it leaves the
    * release unhandled exactly when there is a left view, no fling, and
    * neither the reached clamp nor the auto-open distance applies. */
  function MoveRightReleased(p: Panel, child: nat, dx: int, xvel: int, threshold: int): (r: Option<Release>)
    requires p.Valid() && child < |p.children|
    ensures r != Some(Ignore)
    ensures r == Some(ReportState) ==> dx > 0 && 0 <= xvel <= threshold && LeftViewClampReached(p)
    ensures r.Some? && r.value.SettleAt? ==>
      r.value.target == ClampMoveRight(p, child, RightGoal(p, child)) ||
      r.value.target == p.children[child].left - p.Offset()
    ensures r.None? <==> (xvel <= threshold && p.leftView.Some? &&
      !(dx > 0 && xvel >= 0 &&
        (LeftViewClampReached(p) ||
         (p.children[p.leftView.value].autoOpen != BRING_TO_CLAMP_NO &&
          p.children[p.leftView.value].Right() > p.children[p.leftView.value].autoOpen))))
    ensures (xvel <= threshold && p.leftView.Some? && dx > 0 && xvel >= 0 && !LeftViewClampReached(p) &&
      p.children[p.leftView.value].autoOpen != BRING_TO_CLAMP_NO &&
      p.children[p.leftView.value].Right() > p.children[p.leftView.value].autoOpen) ==>
      r == Some(SettleAt(ClampMoveRight(p, child, RightGoal(p, child))))
  {
    if xvel > threshold then
      Some(SettleAt(ClampMoveRight(p, child, RightGoal(p, child))))
    else if p.leftView.None? then
      Some(SettleAt(p.children[child].left - p.Offset()))
    else if dx > 0 && xvel >= 0 && LeftViewClampReached(p) then
      Some(ReportState)
    else if dx > 0 && xvel >= 0 && p.children[p.leftView.value].autoOpen != BRING_TO_CLAMP_NO
         && p.children[p.leftView.value].Right() > p.children[p.leftView.value].autoOpen then
      Some(SettleAt(ClampMoveRight(p, child, RightGoal(p, child))))
    else
      None
  }

  /** onMoveLeftReleased, the mirror image of onMoveRightReleased. */
  function MoveLeftReleased(p: Panel, child: nat, dx: int, xvel: int, threshold: int): (r: Option<Release>)
    requires p.Valid() && child < |p.children|
    ensures r != Some(Ignore)
    ensures r == Some(ReportState) ==> dx < 0 && -threshold <= xvel <= 0 && RightViewClampReached(p)
    ensures r.Some? && r.value.SettleAt? ==>
      r.value.target == ClampMoveLeft(p, child, LeftGoal(p, child)) ||
      r.value.target == p.children[child].left - p.Offset()
    ensures r.None? <==> (-xvel <= threshold && p.rightView.Some? &&
      !(dx < 0 && xvel <= 0 &&
        (RightViewClampReached(p) ||
         (p.children[p.rightView.value].autoOpen != BRING_TO_CLAMP_NO &&
          p.children[p.rightView.value].left + p.children[p.rightView.value].autoOpen < p.width))))
    ensures (-xvel <= threshold && p.rightView.Some? && dx < 0 && xvel <= 0 && !RightViewClampReached(p) &&
      p.children[p.rightView.value].autoOpen != BRING_TO_CLAMP_NO &&
      p.children[p.rightView.value].left + p.children[p.rightView.value].autoOpen < p.width) ==>
      r == Some(SettleAt(ClampMoveLeft(p, child, LeftGoal(p, child))))
  {
    if -xvel > threshold then
      Some(SettleAt(ClampMoveLeft(p, child, LeftGoal(p, child))))
    else if p.rightView.None? then
      Some(SettleAt(p.children[child].left - p.Offset()))
    else if dx < 0 && xvel <= 0 && RightViewClampReached(p) then
      Some(ReportState)
    else if dx < 0 && xvel <= 0 && p.children[p.rightView.value].autoOpen != BRING_TO_CLAMP_NO
         && p.children[p.rightView.value].left + p.children[p.rightView.value].autoOpen < p.width then
      Some(SettleAt(ClampMoveLeft(p, child, LeftGoal(p, child))))
    else
      None
  }

  /** The release is routed to the move-right handler. */
  predicate RoutedRight(dx: int, xvel: int)
  {
    if dx > 0 then xvel >= 0 else xvel > 0
  }

  /** onViewReleased: dx is the distance from where the child was captured.
    * No motion means nothing happens; otherwise the handler chosen by the
    * direction and the velocity decides, and when it does not, the child
    * settles where the centre is back at rest. */
  function Released(p: Panel, child: nat, initLeft: int, xvel: int, threshold: int): (r: Release)
    requires p.Valid() && child < |p.children|
    ensures p.children[child].left == initLeft ==> r == Ignore
  {
    var dx := p.children[child].left - initLeft;
    if dx == 0 then Ignore
    else
      var handled := if RoutedRight(dx, xvel) then MoveRightReleased(p, child, dx, xvel, threshold)
                     else MoveLeftReleased(p, child, dx, xvel, threshold);
      if handled.Some? then handled.value
      else SettleAt(p.children[child].left - p.Offset())
  }

  /** The fling test comes first: a release faster than the threshold to the
    * right always settles at the clamped right goal, one faster to the left
    * at the clamped left goal, whatever the side views and distances. */
  lemma FlingDecidesFirst(p: Panel, child: nat, initLeft: int, xvel: int, threshold: int)
    requires p.Valid() && child < |p.children| && threshold >= 0
    requires p.children[child].left != initLeft
    ensures xvel > threshold ==>
      Released(p, child, initLeft, xvel, threshold) == SettleAt(ClampMoveRight(p, child, RightGoal(p, child)))
    ensures -xvel > threshold ==>
      Released(p, child, initLeft, xvel, threshold) == SettleAt(ClampMoveLeft(p, child, LeftGoal(p, child)))
  {
  }

  /** Without a side view on the side the release is routed to, and without a
    * fling, the child settles where the centre is back at rest. */
  lemma NoSideViewSettlesAtRest(p: Panel, child: nat, initLeft: int, xvel: int, threshold: int)
    requires p.Valid() && child < |p.children|
    requires p.children[child].left != initLeft && -threshold <= xvel <= threshold
    ensures var dx := p.children[child].left - initLeft;
      (RoutedRight(dx, xvel) && p.leftView.None?) || (!RoutedRight(dx, xvel) && p.rightView.None?) ==>
      Released(p, child, initLeft, xvel, threshold) == SettleAt(p.children[child].left - p.Offset())
  {
  }

  /** With no left view, a slow release after a drag to the right settles the
    * child where the centre is back at rest, whatever the sign of the
    * velocity: a small leftward velocity routes it to the move-left handler,
    * whose own rules only apply to moves to the left. */
  lemma NoLeftViewSlowRightDrag(p: Panel, child: nat, initLeft: int, xvel: int, threshold: int)
    requires p.Valid() && child < |p.children| && p.leftView.None?
    requires p.children[child].left > initLeft && -threshold <= xvel <= threshold
    ensures Released(p, child, initLeft, xvel, threshold) == SettleAt(p.children[child].left - p.Offset())
  {
  }

  /** The mirror: with no right view, a slow release after a drag to the left
    * settles the child where the centre is back at rest. */
  lemma NoRightViewSlowLeftDrag(p: Panel, child: nat, initLeft: int, xvel: int, threshold: int)
    requires p.Valid() && child < |p.children| && p.rightView.None?
    requires p.children[child].left < initLeft && -threshold <= xvel <= threshold
    ensures Released(p, child, initLeft, xvel, threshold) == SettleAt(p.children[child].left - p.Offset())
  {
  }

  /** The settle targets of a release of the centre view, on an attached
    * full-width panel, are only ever the rest position or one of the two
    * fully open positions: a release never leaves the panel half open. A
    * report without motion happens only when the panel is already fully open. */
  lemma CentreReleaseTargets(p: Panel, initLeft: int, xvel: int, threshold: int)
    requires p.Valid() && p.Attached() && p.FullWidth() && threshold >= 0
    ensures var r := Released(p, p.center, initLeft, xvel, threshold);
      r == Ignore || r == SettleAt(0) || r == SettleAt(p.Upper()) || r == SettleAt(p.Lower()) ||
      (r == ReportState &&
       ((p.leftView.Some? && p.Offset() >= p.Upper()) || (p.rightView.Some? && p.Offset() <= p.Lower())))
  {
    var c := p.center;
    var dx := p.children[c].left - initLeft;
    ClampReachedMeansFullyOpen(p);
    if dx != 0 {
      if RoutedRight(dx, xvel) {
        var g := RightGoal(p, c);
        assert ClampMoveRight(p, c, g) == (if p.Offset() < 0 then 0 else p.Upper());
      } else {
        var g := LeftGoal(p, c);
        assert ClampMoveLeft(p, c, g) == (if p.Offset() > 0 then 0 else p.Lower());
      }
    }
  }

  /** A fling of the centre to the right opens the left view when the panel
    * is at rest or open to the left, and brings it back to rest when it is
    * open to the right; a fling to the left is the mirror image. */
  lemma CentreFlingGoesToOppositeExtreme(p: Panel, initLeft: int, xvel: int, threshold: int)
    requires p.Valid() && p.Attached() && p.FullWidth() && threshold >= 0
    requires p.children[p.center].left != initLeft
    ensures xvel > threshold ==>
      Released(p, p.center, initLeft, xvel, threshold) == SettleAt(if p.Offset() < 0 then 0 else p.Upper())
    ensures -xvel > threshold ==>
      Released(p, p.center, initLeft, xvel, threshold) == SettleAt(if p.Offset() > 0 then 0 else p.Lower())
  {
    FlingDecidesFirst(p, p.center, initLeft, xvel, threshold);
  }

  /** A slow release of the centre to the right past the left view's
    * auto-open distance, with the left view not yet fully shown, opens it;
    * the mirror holds for the right view. */
  lemma CentreAutoOpen(p: Panel, initLeft: int, xvel: int, threshold: int)
    requires p.Valid() && p.Attached() && p.FullWidth() && threshold >= 0
    requires -threshold <= xvel <= threshold
    ensures var dx := p.children[p.center].left - initLeft;
      dx > 0 && xvel >= 0 && p.leftView.Some? && !LeftViewClampReached(p) && 0 <= p.Offset() &&
      p.children[p.leftView.value].autoOpen != BRING_TO_CLAMP_NO &&
      p.children[p.leftView.value].Right() > p.children[p.leftView.value].autoOpen ==>
      Released(p, p.center, initLeft, xvel, threshold) == SettleAt(p.Upper())
    ensures var dx := p.children[p.center].left - initLeft;
      dx < 0 && xvel <= 0 && p.rightView.Some? && !RightViewClampReached(p) && p.Offset() <= 0 &&
      p.children[p.rightView.value].autoOpen != BRING_TO_CLAMP_NO &&
      p.children[p.rightView.value].left + p.children[p.rightView.value].autoOpen < p.width ==>
      Released(p, p.center, initLeft, xvel, threshold) == SettleAt(p.Lower())
  {
  }

  /** A layout 300 wide, at rest, with a left view 100 wide: the centre is
    * dragged right by 40 and flung right; it settles fully open at 100. */
  lemma FlingScenario()
    ensures var p := Panel([Child(40, 0, 300, CENTER, false, -1), Child(-60, 0, 100, LEFT, false, -1)],
                           300, 0, Some(1), None);
      Released(p, 0, 0, 2000, 1500) == SettleAt(100)
  {
  }

  /** A layout 300 wide with a right view 80 wide and an auto-open distance of
    * 50: the centre is dragged left by 60 and released slowly; it settles
    * fully open at -80. */
  lemma AutoOpenScenario()
    ensures var p := Panel([Child(-60, 0, 300, CENTER, false, -1), Child(240, 0, 80, RIGHT, false, 50)],
                           300, 0, None, Some(1));
      Released(p, 0, 0, -10, 1500) == SettleAt(-80)
  {
  }
}
