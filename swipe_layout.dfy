/** SwipeLayout: a layout whose centre child can be dragged sideways to reveal
  * a left or a right child. The class holds the state the widget updates in
  * place: its children's positions, the views resolved by the last layout
  * pass, the touch classifier's state, the ancestors' recorded enabled flags,
  * the running property animation, the drag helper's state, the posted settle
  * callbacks and the notifications the state listener has received. */
module SwipeLayoutView {
  import opened Views
  import opened SwipeDrag
  import opened SwipeTouch
  import opened Ancestors

  /** The part of the drag helper (ViewDragHelper) the layout relies on: idle,
    * dragging the captured child, or settling it through the positions its
    * scroller has still to deliver, one per frame, the last being the target. */
  datatype HelperState = Idle | Dragging(captured: nat) | Settling(captured: nat, frames: seq<int>)

  /** A running property animation of the offset, from one value to another. */
  datatype Animation = Animation(from: int, to: int)

  function Last(s: seq<int>): int
    requires s != []
  {
    s[|s| - 1]
  }

  /** What a listener, if there is one, has heard after n notifications that
    * all reported the same state. */
  function Told(listener: bool, isOpen: bool, n: nat): (s: seq<bool>)
    ensures |s| == if listener then n else 0
    ensures forall i :: 0 <= i < |s| ==> s[i] == isOpen
  {
    if listener then seq(n, _ => isOpen) else []
  }

  lemma ToldOnceMore(listener: bool, isOpen: bool, n: nat)
    ensures Told(listener, isOpen, n) + (if listener then [isOpen] else []) == Told(listener, isOpen, n + 1)
  {
  }

  /** The first loop of layoutChildren: the last visible child of each gravity. */
  method ResolveViews(cs: seq<Child>) returns (c: Option<nat>, l: Option<nat>, r: Option<nat>)
    ensures LastAmong(cs, |cs|, CENTER, c)
    ensures LastAmong(cs, |cs|, LEFT, l)
    ensures LastAmong(cs, |cs|, RIGHT, r)
  {
    c, l, r := None, None, None;
    var i := 0;
    while i < |cs|
      invariant 0 <= i <= |cs|
      invariant LastAmong(cs, i, CENTER, c) && LastAmong(cs, i, LEFT, l) && LastAmong(cs, i, RIGHT, r)
    {
      var child := cs[i];
      if !child.gone {
        if child.gravity == CENTER {
          c := Some(i);
        } else if child.gravity == LEFT {
          l := Some(i);
        } else if child.gravity == RIGHT {
          r := Some(i);
        }
      }
      i := i + 1;
    }
  }

  /** The second loop of layoutChildren: every visible child is placed
    * against the centre, which keeps its own left edge. */
  method PlaceChildren(cs: seq<Child>, centre: nat, paddingTop: int) returns (placed: seq<Child>)
    requires centre < |cs| && !cs[centre].gone && cs[centre].gravity == CENTER
    ensures placed == PlacedAll(cs, cs[centre], paddingTop)
  {
    placed := cs;
    var i := 0;
    while i < |placed|
      invariant 0 <= i <= |placed| && |placed| == |cs|
      invariant forall k :: 0 <= k < i ==> placed[k] == Placed(cs[k], cs[centre], paddingTop)
      invariant forall k :: i <= k < |placed| ==> placed[k] == cs[k]
    {
      var child := placed[i];
      if !child.gone {
        var childLeft := if child.gravity == LEFT then placed[centre].left - child.width
                         else if child.gravity == RIGHT then placed[centre].Right()
                         else child.left;
        placed := placed[i := child.(left := childLeft, top := paddingTop)];
      }
      i := i + 1;
    }
  }

  class SwipeLayout {
    /** The child views, in child order. */
    var children: seq<Child>
    /** getWidth() of the layout and getPaddingTop(). */
    const width: int
    const paddingTop: int
    /** The views resolved by the last layout pass, as child indices. */
    var centerView: Option<nat>
    var leftView: Option<nat>
    var rightView: Option<nat>
    /** The fling velocity threshold and the touch slop, already scaled. */
    const velocityThreshold: int
    const touchSlop: int
    const leftSwipeEnabled: bool
    const rightSwipeEnabled: bool
    /** The touch classifier: its state and the origin of the gesture. */
    var touchState: TouchState
    var touchX: int
    var touchY: int
    /** The flag last passed to requestDisallowInterceptTouchEvent. */
    var disallowIntercept: bool
    /** The ancestor chain, from the direct parent upwards, and hackedParents. */
    var ancestors: seq<Ancestor>
    var hackedParents: map<nat, bool>
    /** The animation weakAnimator refers to, while it runs. */
    var animator: Option<Animation>
    var helper: HelperState
    /** The captured child's left edge when it was captured. */
    var initLeft: int
    /** Settle callbacks posted for the next animation frame. */
    var pendingSettles: nat
    /** Whether a state listener is registered, and what it has been told. */
    var hasListener: bool
    var notifications: seq<bool>

    ghost predicate Valid()
      reads this`children, this`centerView, this`leftView, this`rightView,
            this`ancestors, this`hackedParents, this`helper, this`pendingSettles
    {
      Resolved(children, width, centerView, leftView, rightView) &&
      RecordsOf(ancestors, hackedParents) &&
      (helper.Dragging? ==> helper.captured < |children|) &&
      (helper.Settling? ==> helper.captured < |children| && pendingSettles > 0)
    }

    /** The resolved panel the drag callbacks read. */
    function Snapshot(): Panel
      reads this`children, this`centerView, this`leftView, this`rightView
      requires centerView.Some?
    {
      Panel(children, width, centerView.value, leftView, rightView)
    }

    /** getOffset(): the centre's left edge, or 0 when there is no centre. */
    function GetOffset(): (r: int)
      reads this`children, this`centerView
      ensures centerView.None? ==> r == 0
      ensures centerView.Some? && centerView.value < |children| ==> r == children[centerView.value].left
    {
      if centerView.Some? && centerView.value < |children| then children[centerView.value].left else 0
    }

    /** isClose(), the negation of isOpen(). */
    function IsClose(): (r: bool)
      reads this`children, this`centerView
      ensures r <==> !IsOpen()
    {
      GetOffset() == 0
    }

    /** isOpen(): open in either direction; never without a centre. */
    function IsOpen(): (r: bool)
      reads this`children, this`centerView
      ensures r ==> centerView.Some?
    {
      GetOffset() != 0
    }

    /** What a listener notification adds to the log. */
    function Heard(isOpen: bool): seq<bool>
      reads this`hasListener
    {
      if hasListener then [isOpen] else []
    }

    /** The children as setOffset(x) leaves them. */
    function OffsetTo(x: int): seq<Child>
      reads this`children, this`centerView
    {
      if centerView.None? then children else Shifted(children, None, x - GetOffset())
    }

    /** How far the settle in progress still has to carry the captured
      * child (and with it every other child): 0 when nothing is settling. */
    function SettleDistance(): int
      reads this`children, this`helper
    {
      if helper.Settling? && helper.frames != [] && helper.captured < |children| then
        Last(helper.frames) - children[helper.captured].left
      else 0
    }

    /** How far the next frame of the settle in progress moves the captured
      * child (and with it every other child): 0 when no frame is left. */
    function FrameStep(): int
      reads this`children, this`helper
    {
      if helper.Settling? && helper.frames != [] && helper.captured < |children| then
        helper.frames[0] - children[helper.captured].left
      else 0
    }

    /** The constructor with initView: the swipe flags from the attributes. */
    constructor (children: seq<Child>, width: int, paddingTop: int, ancestors: seq<Ancestor>,
                 swipeEnabled: Flag, swipeLeftEnabled: Flag, swipeRightEnabled: Flag,
                 velocityThreshold: int, touchSlop: int)
      ensures Valid()
      ensures this.children == children && this.width == width && this.paddingTop == paddingTop
      ensures this.ancestors == ancestors && hackedParents == map[]
      ensures centerView == None && leftView == None && rightView == None
      ensures (leftSwipeEnabled, rightSwipeEnabled) == SwipeFlags(swipeEnabled, swipeLeftEnabled, swipeRightEnabled)
      ensures this.velocityThreshold == velocityThreshold && this.touchSlop == touchSlop
      ensures touchState == Wait && !disallowIntercept && animator == None && helper == Idle
      ensures pendingSettles == 0 && !hasListener && notifications == []
    {
      this.children := children;
      this.width := width;
      this.paddingTop := paddingTop;
      this.ancestors := ancestors;
      hackedParents := map[];
      centerView, leftView, rightView := None, None, None;
      var flags := SwipeFlags(swipeEnabled, swipeLeftEnabled, swipeRightEnabled);
      leftSwipeEnabled, rightSwipeEnabled := flags.0, flags.1;
      this.velocityThreshold := velocityThreshold;
      this.touchSlop := touchSlop;
      touchState, touchX, touchY := Wait, 0, 0;
      disallowIntercept := false;
      animator := None;
      helper := Idle;
      initLeft := 0;
      pendingSettles := 0;
      hasListener := false;
      notifications := [];
    }

    method SetOnStateChangedListener(present: bool)
      modifies this`hasListener
      ensures hasListener == present
    {
      hasListener := present;
    }

    /** The listener, if any, is told whether the panel is open. */
    method NotifyListener()
      modifies this`notifications
      ensures notifications == old(notifications) + Heard(IsOpen())
    {
      if hasListener {
        notifications := notifications + [IsOpen()];
      }
    }

    /** layoutChildren: resolve the last visible child of each gravity, fail
      * without a centre, then place every visible child. */
    method LayoutChildren() returns (ok: bool)
      requires Valid()
      modifies this`children, this`centerView, this`leftView, this`rightView
      ensures Valid()
      ensures LastAmong(old(children), |old(children)|, CENTER, centerView)
      ensures LastAmong(old(children), |old(children)|, LEFT, leftView)
      ensures LastAmong(old(children), |old(children)|, RIGHT, rightView)
      ensures ok <==> centerView.Some?
      ensures !ok ==> children == old(children)
      ensures ok ==> children == PlacedAll(old(children), old(children)[centerView.value], paddingTop)
      ensures ok ==> GetOffset() == old(children)[centerView.value].left
    {
      var cs := children;
      var c, l, r := ResolveViews(cs);
      centerView, leftView, rightView := c, l, r;
      if c.None? {
        // "Child view must be added"
        return false;
      }
      var placed := PlaceChildren(cs, c.value, paddingTop);
      PlacedAllAttaches(Panel(cs, width, c.value, l, r), paddingTop);
      children := placed;
      ok := true;
    }

    /** offsetChildren: move every child except skip by dx. */
    method OffsetChildren(skip: Option<nat>, dx: int)
      modifies this`children
      ensures children == Shifted(old(children), skip, dx)
    {
      if dx == 0 {
        ShiftedByZero(children, skip);
        return;
      }
      ghost var before := children;
      var i := 0;
      while i < |children|
        invariant 0 <= i <= |children| && |children| == |before|
        invariant forall k :: 0 <= k < i ==> children[k] == Shifted(before, skip, dx)[k]
        invariant forall k :: i <= k < |children| ==> children[k] == before[k]
      {
        if skip != Some(i) {
          children := children[i := children[i].(left := children[i].left + dx)];
        }
        i := i + 1;
      }
    }

    /** setOffset: move every child so that the centre's left edge is offset. */
    method SetOffset(offset: int)
      requires Valid()
      modifies this`children
      ensures Valid()
      ensures children == old(OffsetTo(offset))
      ensures centerView.Some? ==> GetOffset() == offset
      ensures centerView.Some? ==> forall i :: 0 <= i < |children| ==>
        children[i].left - GetOffset() == old(children[i].left - GetOffset())
    {
      if centerView.Some? {
        ShiftedKeepsResolved(children, width, centerView, leftView, rightView,
                             offset - children[centerView.value].left);
        OffsetChildren(None, offset - children[centerView.value].left);
      }
    }

    /** onViewPositionChanged: the other children follow the changed one. */
    method OnViewPositionChanged(changedView: nat, dx: int)
      modifies this`children
      ensures children == Shifted(old(children), Some(changedView), dx)
    {
      OffsetChildren(Some(changedView), dx);
    }

    /** The helper moves the captured child to x and reports the change. */
    method MoveCaptured(c: nat, x: int)
      requires Valid() && c < |children|
      modifies this`children
      ensures Valid()
      ensures children == Shifted(old(children), None, x - old(children[c].left))
    {
      ghost var before := children;
      var dx := x - children[c].left;
      MoveThenFollow(before, c, x);
      ShiftedMovesAllButSkip(before, None, dx);
      ShiftedKeepsResolved(before, width, centerView, leftView, rightView, dx);
      children := children[c := children[c].(left := x)];
      OnViewPositionChanged(c, dx);
      assert children == Shifted(before, None, dx);
    }

    /** tryCaptureView: any child may be captured; its left edge is kept. */
    method TryCaptureView(child: nat) returns (r: bool)
      requires child < |children|
      modifies this`initLeft
      ensures r && initLeft == children[child].left
    {
      initLeft := children[child].left;
      r := true;
    }

    /** The helper captures the child being touched when tryCaptureView agrees. */
    method CaptureChild(child: nat) returns (captured: bool)
      requires Valid() && child < |children|
      modifies this`initLeft, this`helper
      ensures Valid()
      ensures captured && helper == Dragging(child) && initLeft == children[child].left
    {
      captured := TryCaptureView(child);
      if captured {
        helper := Dragging(child);
      }
    }

    /** The helper drags the captured child towards left: a move with no
      * horizontal component changes nothing; otherwise the position goes
      * through clampViewPositionHorizontal and the others follow. */
    method DragCapturedTo(left: int)
      requires Valid() && centerView.Some? && helper.Dragging?
      modifies this`children
      ensures Valid()
      ensures children == DragStep(old(Snapshot()), helper.captured, left).children
    {
      var c := helper.captured;
      var at := children[c].left;
      if left != at {
        var clamped := ClampHorizontal(Snapshot(), c, left, left - at);
        MoveCaptured(c, clamped);
      }
    }

    /** startScrollAnimation: ask the helper to settle the captured view at
      * targetX; it refuses when the view is already there. When it accepts,
      * one settle callback is posted for the next frame. path holds the
      * positions the helper's scroller produces before reaching the target. */
    method StartScrollAnimation(view: nat, targetX: int, path: seq<int>) returns (started: bool)
      requires Valid() && helper == Dragging(view)
      modifies this`helper, this`pendingSettles
      ensures Valid()
      ensures started <==> children[view].left != targetX
      ensures started ==> helper == Settling(view, path + [targetX]) && pendingSettles == old(pendingSettles) + 1
      ensures !started ==> helper == Idle && pendingSettles == old(pendingSettles)
      ensures started ==> SettleDistance() == targetX - children[view].left
    {
      started := children[view].left != targetX;
      if started {
        helper := Settling(view, path + [targetX]);
        pendingSettles := pendingSettles + 1;
        assert Last(path + [targetX]) == targetX;
      } else {
        helper := Idle;
      }
    }

    /** onViewReleased: act on the release decision for the released child. */
    method OnViewReleased(released: nat, xvel: int, path: seq<int>)
      requires Valid() && centerView.Some? && helper == Dragging(released)
      modifies this`helper, this`pendingSettles, this`notifications
      ensures Valid()
      ensures Released(Snapshot(), released, initLeft, xvel, velocityThreshold) == Ignore ==>
        helper == old(helper) && pendingSettles == old(pendingSettles) && notifications == old(notifications)
      ensures Released(Snapshot(), released, initLeft, xvel, velocityThreshold) == ReportState ==>
        helper == old(helper) && pendingSettles == old(pendingSettles) &&
        notifications == old(notifications) + Heard(IsOpen())
      ensures Released(Snapshot(), released, initLeft, xvel, velocityThreshold).SettleAt? ==>
        var t := Released(Snapshot(), released, initLeft, xvel, velocityThreshold).target;
        notifications == old(notifications) &&
        (children[released].left == t ==> helper == Idle && pendingSettles == old(pendingSettles)) &&
        (children[released].left != t ==>
          helper == Settling(released, path + [t]) && pendingSettles == old(pendingSettles) + 1 &&
          SettleDistance() == t - children[released].left)
    {
      var decision := Released(Snapshot(), released, initLeft, xvel, velocityThreshold);
      match decision
      case Ignore =>
      case ReportState =>
        NotifyListener();
      case SettleAt(t) =>
        var _ := StartScrollAnimation(released, t, path);
    }

    /** The helper releases the captured child: onViewReleased runs, and a
      * helper still dragging afterwards goes idle. */
    method ReleaseCaptured(xvel: int, path: seq<int>)
      requires Valid() && centerView.Some? && helper.Dragging?
      modifies this`helper, this`pendingSettles, this`notifications
      ensures Valid() && !helper.Dragging?
      ensures old(Released(Snapshot(), helper.captured, initLeft, xvel, velocityThreshold)) == ReportState ==>
        notifications == old(notifications) + Heard(IsOpen())
      ensures !old(Released(Snapshot(), helper.captured, initLeft, xvel, velocityThreshold)).ReportState? ==>
        notifications == old(notifications)
      ensures helper.Settling? <==>
        old(Released(Snapshot(), helper.captured, initLeft, xvel, velocityThreshold)).SettleAt? &&
        old(children[helper.captured].left) != old(Released(Snapshot(), helper.captured, initLeft, xvel, velocityThreshold)).target
      ensures var d := old(Released(Snapshot(), helper.captured, initLeft, xvel, velocityThreshold));
        d.SettleAt? && helper.Settling? ==>
          helper == Settling(old(helper.captured), path + [d.target]) &&
          SettleDistance() == d.target - children[old(helper.captured)].left &&
          pendingSettles == old(pendingSettles) + 1
      ensures !helper.Settling? ==> pendingSettles == old(pendingSettles)
    {
      OnViewReleased(helper.captured, xvel, path);
      if helper.Dragging? {
        helper := Idle;
      }
    }

    /** The helper delivers the next frame of a settle: the captured child
      * moves there and the others follow. */
    method DeliverFrame()
      requires Valid() && helper.Settling? && helper.frames != []
      modifies this`children, this`helper
      ensures Valid()
      ensures helper == Settling(old(helper).captured, old(helper).frames[1..])
      ensures children == Shifted(old(children), None, old(FrameStep()))
      ensures SettleDistance() == old(SettleDistance()) - old(FrameStep())
      ensures helper.frames != [] ==> Last(helper.frames) == Last(old(helper).frames)
    {
      var c, frames := helper.captured, helper.frames;
      MoveCaptured(c, frames[0]);
      helper := Settling(c, frames[1..]);
      assert children[c].left == frames[0];
      if frames[1..] != [] {
        assert Last(frames[1..]) == Last(frames);
      }
    }

    /** continueSettling: deliver the next frame of the settle, if any; once
      * none is left the helper goes idle and answers false. */
    method ContinueSettling() returns (more: bool)
      requires Valid()
      modifies this`children, this`helper
      ensures Valid()
      ensures more <==> old(helper).Settling? && old(helper).frames != []
      ensures more ==> (children == Shifted(old(children), None, old(FrameStep())) &&
        SettleDistance() == old(SettleDistance()) - old(FrameStep()))
      ensures more ==> helper == Settling(old(helper).captured, old(helper).frames[1..])
      ensures !more ==> (children == old(children) && old(SettleDistance()) == 0 &&
        helper == if old(helper).Settling? then Idle else old(helper))
    {
      if helper.Settling? {
        if helper.frames == [] {
          helper := Idle;
          more := false;
        } else {
          DeliverFrame();
          more := true;
        }
      } else {
        more := false;
      }
    }

    /** The posted settle callback: while the helper keeps settling it posts
      * itself again; when it stops, the callback ends and the listener is
      * told whether the panel is open. */
    method SettleFrame()
      requires Valid() && pendingSettles > 0
      modifies this`children, this`helper, this`pendingSettles, this`notifications
      ensures Valid()
      ensures old(helper).Settling? && old(helper).frames != [] ==>
        helper == Settling(old(helper).captured, old(helper).frames[1..]) &&
        children == Shifted(old(children), None, old(FrameStep())) &&
        SettleDistance() == old(SettleDistance()) - old(FrameStep()) &&
        pendingSettles == old(pendingSettles) && notifications == old(notifications)
      ensures !(old(helper).Settling? && old(helper).frames != []) ==>
        pendingSettles == old(pendingSettles) - 1 && children == old(children) &&
        helper == (if old(helper).Settling? then Idle else old(helper)) &&
        old(SettleDistance()) == 0 &&
        notifications == old(notifications) + Heard(IsOpen())
    {
      var more := ContinueSettling();
      if !more {
        pendingSettles := pendingSettles - 1;
        NotifyListener();
      }
    }

    /** The host runs the posted settle callbacks frame after frame until
      * none is left: the children end where the settle was heading, and
      * each callback tells the listener exactly once, at its end, whether
      * the panel is open there. */
    method RunSettles()
      requires Valid()
      modifies this`children, this`helper, this`pendingSettles, this`notifications
      ensures Valid() && pendingSettles == 0 && !helper.Settling?
      ensures helper == if old(helper).Settling? then Idle else old(helper)
      ensures children == Shifted(old(children), None, old(SettleDistance()))
      ensures old(helper).Settling? && old(helper).frames != [] ==>
        children[old(helper).captured].left == Last(old(helper).frames)
      ensures notifications == old(notifications) + Told(hasListener, IsOpen(), old(pendingSettles))
    {
      RunFrames();
      FinishSettles();
    }

    /** The posted callbacks that find no frame left: each one ends, and
      * tells the listener whether the panel is open. */
    method FinishSettles()
      requires Valid() && !(helper.Settling? && helper.frames != [])
      modifies this`helper, this`pendingSettles, this`notifications, this`children
      ensures Valid() && pendingSettles == 0 && !helper.Settling? && children == old(children)
      ensures helper == if old(helper).Settling? then Idle else old(helper)
      ensures notifications == old(notifications) + Told(hasListener, IsOpen(), old(pendingSettles))
    {
      assert Told(hasListener, IsOpen(), 0) == [];
      while pendingSettles > 0
        invariant Valid() && children == old(children)
        invariant !(helper.Settling? && helper.frames != [])
        invariant pendingSettles <= old(pendingSettles)
        invariant pendingSettles < old(pendingSettles) ==> !helper.Settling?
        invariant helper == old(helper) || (old(helper).Settling? && helper == Idle)
        invariant pendingSettles < old(pendingSettles) && old(helper).Settling? ==> helper == Idle
        invariant notifications == old(notifications) + Told(hasListener, IsOpen(), old(pendingSettles) - pendingSettles)
        decreases pendingSettles
      {
        ghost var n := old(pendingSettles) - pendingSettles;
        SettleFrame();
        ToldOnceMore(hasListener, IsOpen(), n);
      }
    }

    /** The callbacks that deliver the settle's frames, one per frame, until
      * only its end is left: no callback finishes on the way, so nothing
      * is told to the listener yet. */
    method RunFrames()
      requires Valid()
      modifies this`children, this`helper
      ensures Valid()
      ensures children == Shifted(old(children), None, old(SettleDistance()))
      ensures old(helper).Settling? ==> helper == Settling(old(helper).captured, [])
      ensures !old(helper).Settling? ==> helper == old(helper)
      ensures old(helper).Settling? && old(helper).frames != [] ==>
        children[old(helper).captured].left == Last(old(helper).frames)
    {
      ShiftedByZero(children, None);
      ghost var moved := 0;
      while helper.Settling? && helper.frames != []
        invariant Valid()
        invariant children == Shifted(old(children), None, moved)
        invariant moved + SettleDistance() == old(SettleDistance())
        invariant old(helper).Settling? ==> helper.Settling? && helper.captured == old(helper).captured
        invariant !old(helper).Settling? ==> helper == old(helper)
        invariant old(helper).Settling? && old(helper).frames != [] && helper.frames != [] ==>
          Last(helper.frames) == Last(old(helper).frames)
        decreases if helper.Settling? then |helper.frames| else 0
      {
        moved := AdvanceFrame(old(children), moved);
      }
      assert moved == old(SettleDistance());
    }

    /** One more frame of a settle that has so far moved the panel rigidly
      * from start by moved: afterwards it has moved it rigidly by moved',
      * and the distance left has shrunk by the same step. */
    method AdvanceFrame(ghost start: seq<Child>, ghost moved: int) returns (ghost moved': int)
      requires Valid() && helper.Settling? && helper.frames != []
      requires children == Shifted(start, None, moved)
      modifies this`children, this`helper
      ensures Valid()
      ensures helper == Settling(old(helper).captured, old(helper).frames[1..])
      ensures helper.frames != [] ==> Last(helper.frames) == Last(old(helper).frames)
      ensures children == Shifted(start, None, moved')
      ensures moved' + SettleDistance() == moved + old(SettleDistance())
    {
      ghost var before, step := children, FrameStep();
      DeliverFrame();
      ShiftedTwice(start, before, children, moved, step, moved + step);
      moved' := moved + step;
    }

    /** abort: the helper stops dragging or settling at once. */
    method Abort()
      requires Valid()
      modifies this`helper
      ensures Valid() && helper == Idle
    {
      helper := Idle;
    }

    /** finishAnimator: drop the reference to the running animation and end
      * it, which sets the offset to the animation's end value. */
    method FinishAnimator()
      requires Valid()
      modifies this`animator, this`children
      ensures Valid() && animator == None
      ensures children == if old(animator).Some? then old(OffsetTo(animator.value.to)) else old(children)
    {
      if animator.Some? {
        var running := animator.value;
        animator := None;
        SetOffset(running.to);
      }
    }

    /** runAnimation: end any running animation and stop the helper first, so
      * that the new animation is the only motion of the panel. */
    method RunAnimation(initialX: int, targetX: int)
      requires Valid()
      modifies this`animator, this`children, this`helper
      ensures Valid()
      ensures animator == Some(Animation(initialX, targetX)) && helper == Idle
      ensures children == if old(animator).Some? then old(OffsetTo(animator.value.to)) else old(children)
    {
      FinishAnimator();
      Abort();
      animator := Some(Animation(initialX, targetX));
    }

    /** The running animation reaches its end value. */
    method AnimationEnds()
      requires Valid() && animator.Some?
      modifies this`animator, this`children
      ensures Valid() && animator == None
      ensures children == old(OffsetTo(animator.value.to))
      ensures centerView.Some? ==> GetOffset() == old(animator.value.to)
    {
      var running := animator.value;
      animator := None;
      SetOffset(running.to);
    }

    /** animateReset: animate back to 0 when there is a centre and the panel
      * is open; otherwise nothing happens. */
    method AnimateReset()
      requires Valid()
      modifies this`animator, this`children, this`helper
      ensures Valid()
      ensures old(centerView.Some? && GetOffset() != 0) ==>
        animator == Some(Animation(old(GetOffset()), 0)) && helper == Idle &&
        children == if old(animator).Some? then old(OffsetTo(animator.value.to)) else old(children)
      ensures !old(centerView.Some? && GetOffset() != 0) ==>
        animator == old(animator) && helper == old(helper) && children == old(children)
    {
      if centerView.Some? || GetOffset() != 0 {
        if centerView.None? || GetOffset() == 0 {
          return;
        }
        RunAnimation(children[centerView.value].left, 0);
      }
    }

    /** close() is animateReset(). */
    method Close()
      requires Valid()
      modifies this`animator, this`children, this`helper
      ensures Valid()
      ensures old(IsOpen()) ==> (animator == Some(Animation(old(GetOffset()), 0)) && helper == Idle &&
        children == if old(animator).Some? then old(OffsetTo(animator.value.to)) else old(children))
      ensures old(IsClose()) ==>
        animator == old(animator) && helper == old(helper) && children == old(children)
    {
      AnimateReset();
    }

    /** animateSwipeLeft: with a centre and a right view, animate to minus the
      * right view's width, whatever the swipe flags say. */
    method AnimateSwipeLeft()
      requires Valid()
      modifies this`animator, this`children, this`helper
      ensures Valid()
      ensures old(centerView.Some? && rightView.Some?) ==>
        animator == Some(Animation(old(GetOffset()), -(old(children[rightView.value].width) as int))) &&
        helper == Idle &&
        children == if old(animator).Some? then old(OffsetTo(animator.value.to)) else old(children)
      ensures !old(centerView.Some? && rightView.Some?) ==>
        animator == old(animator) && helper == old(helper) && children == old(children)
    {
      if centerView.Some? && rightView.Some? {
        var target := -(children[rightView.value].width as int);
        RunAnimation(GetOffset(), target);
      }
    }

    /** animateSwipeRight: with a centre and a left view, animate to the left
      * view's width, whatever the swipe flags say. */
    method AnimateSwipeRight()
      requires Valid()
      modifies this`animator, this`children, this`helper
      ensures Valid()
      ensures old(centerView.Some? && leftView.Some?) ==>
        animator == Some(Animation(old(GetOffset()), old(children[leftView.value].width))) &&
        helper == Idle &&
        children == if old(animator).Some? then old(OffsetTo(animator.value.to)) else old(children)
      ensures !old(centerView.Some? && leftView.Some?) ==>
        animator == old(animator) && helper == old(helper) && children == old(children)
    {
      if centerView.Some? && leftView.Some? {
        var target := children[leftView.value].width;
        RunAnimation(GetOffset(), target);
      }
    }

    /** isSwipeEnabled(): swiping in at least one direction, that is, a move
      * from rest to the right or one to the left is not declined. */
    function IsSwipeEnabled(): (r: bool)
      ensures r <==>
        !Classify(Wait, 0, 0, MotionEvent(Move, 1, 0), leftSwipeEnabled, rightSwipeEnabled, 0, touchSlop).declined ||
        !Classify(Wait, 0, 0, MotionEvent(Move, -1, 0), leftSwipeEnabled, rightSwipeEnabled, 0, touchSlop).declined
    {
      leftSwipeEnabled || rightSwipeEnabled
    }

    /** onTouchBegin: a new gesture starts waiting where the touch went down. */
    method OnTouchBegin(e: MotionEvent)
      modifies this`touchState, this`touchX, this`touchY
      ensures touchState == Wait && touchX == e.x && touchY == e.y
    {
      touchState := Wait;
      touchX := e.x;
      touchY := e.y;
    }

    /** onInterceptTouchEvent: with swiping enabled a DOWN starts a gesture
      * and the helper decides; otherwise the default handling decides. */
    method OnInterceptTouchEvent(e: MotionEvent, helperIntercepts: bool, defaultIntercepts: bool)
      returns (r: bool)
      modifies this`touchState, this`touchX, this`touchY
      ensures r == if IsSwipeEnabled() then helperIntercepts else defaultIntercepts
      ensures IsSwipeEnabled() && e.action == Down ==> touchState == Wait && touchX == e.x && touchY == e.y
      ensures !(IsSwipeEnabled() && e.action == Down) ==>
        touchState == old(touchState) && touchX == old(touchX) && touchY == old(touchY)
    {
      if IsSwipeEnabled() {
        if e.action == Down {
          OnTouchBegin(e);
        }
        r := helperIntercepts;
      } else {
        r := defaultIntercepts;
      }
    }

    /** hackParents: record the enabled flag of every nested-scrolling
      * ancestor, walking up from the parent; no flag is changed. */
    method HackParents()
      requires Valid()
      modifies this`hackedParents
      ensures Valid()
      ensures hackedParents == old(hackedParents) + Recorded(ancestors, |ancestors|)
    {
      var i := 0;
      while i < |ancestors|
        invariant 0 <= i <= |ancestors|
        invariant hackedParents == old(hackedParents) + Recorded(ancestors, i)
        invariant RecordsOf(ancestors, hackedParents)
      {
        RecordStep(ancestors, old(hackedParents), i);
        if ancestors[i].nestedScrolling {
          hackedParents := hackedParents[i := ancestors[i].enabled];
        }
        i := i + 1;
      }
    }

    /** unHackParents: write every recorded flag back, then forget them. */
    method UnHackParents()
      requires Valid()
      modifies this`ancestors, this`hackedParents
      ensures Valid()
      ensures ancestors == Restored(old(ancestors), old(hackedParents)) && hackedParents == map[]
    {
      var keys := hackedParents.Keys;
      assert Restored(ancestors, hackedParents - keys) == ancestors;
      while keys != {}
        invariant keys <= hackedParents.Keys && hackedParents == old(hackedParents)
        invariant ancestors == Restored(old(ancestors), hackedParents - keys)
        decreases keys
      {
        var k :| k in keys;
        ancestors := ancestors[k := ancestors[k].(enabled := hackedParents[k])];
        keys := keys - {k};
        assert ancestors == Restored(old(ancestors), hackedParents - keys);
      }
      assert hackedParents - keys == hackedParents;
      hackedParents := map[];
    }

    /** What onTouchEvent does to the ancestors on a classifier step from
      * `from` to `to`, given the chain, the recorded flags and the intercept
      * flag before the step: a swipe that starts asks the ancestors not to
      * intercept and records their flags; a swipe that ends with UP or
      * CANCEL lets them intercept again and writes the flags back; any other
      * step leaves all three alone. */
    ghost predicate FollowedGesture(from: TouchState, to: TouchState, action: Action,
                                    chain: seq<Ancestor>, hacked: map<nat, bool>, disallowed: bool)
      reads this`ancestors, this`hackedParents, this`disallowIntercept
    {
      if from == Wait && to == Swipe then
        disallowIntercept && ancestors == chain && hackedParents == hacked + Recorded(chain, |chain|)
      else if from == Swipe && (action == Up || action == Cancel) then
        !disallowIntercept && hackedParents == map[] && ancestors == Restored(chain, hacked)
      else
        disallowIntercept == disallowed && ancestors == chain && hackedParents == hacked
    }

    method FollowGesture(from: TouchState, to: TouchState, action: Action)
      requires Valid()
      modifies this`disallowIntercept, this`hackedParents, this`ancestors
      ensures Valid()
      ensures FollowedGesture(from, to, action, old(ancestors), old(hackedParents), old(disallowIntercept))
    {
      if from == Wait && to == Swipe {
        disallowIntercept := true;
        HackParents();
      } else if from == Swipe && (action == Up || action == Cancel) {
        UnHackParents();
        disallowIntercept := false;
      }
    }

    /** The swipe-enabled part of onTouchEvent: the classifier steps on the
      * event, the ancestors are hacked when a swipe is recognised and
      * restored when it ends; declined says the event goes to the default
      * handling, forwarded that it reaches the drag helper. */
    method TrackGesture(e: MotionEvent) returns (declined: bool, forwarded: bool)
      requires Valid() && IsSwipeEnabled()
      modifies this`touchState, this`touchX, this`touchY, this`disallowIntercept,
               this`hackedParents, this`ancestors
      ensures Valid()
      ensures var step := Classify(old(touchState), old(touchX), old(touchY), e,
                                   leftSwipeEnabled, rightSwipeEnabled, old(GetOffset()), touchSlop);
        touchState == step.state && forwarded == step.forwarded && declined == step.declined
      ensures e.action == Down ==> touchX == e.x && touchY == e.y
      ensures e.action != Down ==> touchX == old(touchX) && touchY == old(touchY)
      ensures FollowedGesture(old(touchState), touchState, e.action,
                              old(ancestors), old(hackedParents), old(disallowIntercept))
    {
      var step := Classify(touchState, touchX, touchY, e, leftSwipeEnabled, rightSwipeEnabled,
                           GetOffset(), touchSlop);
      if step.declined {
        // a move towards a disabled direction while closed goes to super
        return true, false;
      }
      var from := touchState;
      if e.action == Down {
        OnTouchBegin(e);
      }
      touchState := step.state;
      FollowGesture(from, step.state, e.action);
      declined, forwarded := false, step.forwarded;
    }

    /** onTouchEvent: with swiping disabled, or for an event the classifier
      * declines, the default handling decides; otherwise the event is
      * consumed, and forwarded says whether it reaches the drag helper. */
    method OnTouchEvent(e: MotionEvent, defaultResult: bool) returns (r: bool, forwarded: bool)
      requires Valid()
      modifies this`touchState, this`touchX, this`touchY, this`disallowIntercept,
               this`hackedParents, this`ancestors
      ensures Valid()
      ensures !IsSwipeEnabled() ==>
        r == defaultResult && !forwarded &&
        touchState == old(touchState) && touchX == old(touchX) && touchY == old(touchY) &&
        disallowIntercept == old(disallowIntercept) && ancestors == old(ancestors) &&
        hackedParents == old(hackedParents)
      ensures IsSwipeEnabled() ==>
        var step := Classify(old(touchState), old(touchX), old(touchY), e,
                             leftSwipeEnabled, rightSwipeEnabled, old(GetOffset()), touchSlop);
        touchState == step.state && forwarded == step.forwarded &&
        r == (if step.declined then defaultResult else true)
      ensures IsSwipeEnabled() && e.action == Down ==> touchX == e.x && touchY == e.y
      ensures !(IsSwipeEnabled() && e.action == Down) ==> touchX == old(touchX) && touchY == old(touchY)
      ensures IsSwipeEnabled() ==>
        FollowedGesture(old(touchState), touchState, e.action,
                        old(ancestors), old(hackedParents), old(disallowIntercept))
    {
      if !IsSwipeEnabled() {
        return defaultResult, false;
      }
      var declined;
      declined, forwarded := TrackGesture(e);
      r := if declined then defaultResult else true;
    }
  }
}
