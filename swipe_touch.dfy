/** The touch classifier of SwipeLayout as a function of the touch state, the
  * touch origin and one touch event, and the precedence of the
  * swipe-enabling attributes. */
module SwipeTouch {

  datatype Flag = Unset | Set(on: bool)

  /** initView: swipeEnabled sets both directions, then swipeLeftEnabled and
    * swipeRightEnabled override their own direction; an absent attribute
    * leaves the default, true. Results are (leftSwipeEnabled, rightSwipeEnabled). */
  function SwipeFlags(swipeEnabled: Flag, swipeLeftEnabled: Flag, swipeRightEnabled: Flag): (r: (bool, bool))
    ensures swipeLeftEnabled.Set? ==> r.0 == swipeLeftEnabled.on
    ensures swipeRightEnabled.Set? ==> r.1 == swipeRightEnabled.on
    ensures swipeLeftEnabled.Unset? ==> r.0 == (swipeEnabled.Unset? || swipeEnabled.on)
    ensures swipeRightEnabled.Unset? ==> r.1 == (swipeEnabled.Unset? || swipeEnabled.on)
  {
    var left := if swipeEnabled.Set? then swipeEnabled.on else true;
    var right := if swipeEnabled.Set? then swipeEnabled.on else true;
    var left := if swipeLeftEnabled.Set? then swipeLeftEnabled.on else left;
    var right := if swipeRightEnabled.Set? then swipeRightEnabled.on else right;
    (left, right)
  }

  datatype TouchState = Wait | Swipe | Skip

  datatype Action = Down | Move | Up | Cancel | OtherAction

  /** A touch event: its masked action and its coordinates. */
  datatype MotionEvent = MotionEvent(action: Action, x: int, y: int)

  /** The touch state after an event; whether the event was declined (handed
    * back to the default handling, before any classification); whether it is
    * forwarded to the drag helper. */
  datatype TouchStep = TouchStep(state: TouchState, declined: bool, forwarded: bool)

  function Abs(x: int): nat { if x < 0 then -x else x }

  /** The source's test dx / dy > 1f, on exact quotients. */
  predicate RatioAboveOne(dx: nat, dy: nat)
    requires dy > 0
  {
    (dx as real) / (dy as real) > 1.0
  }

  lemma RatioAboveOneIsGreater(dx: nat, dy: nat)
    requires dy > 0
    ensures RatioAboveOne(dx, dy) <==> dx > dy
  {
    var q := (dx as real) / (dy as real);
    assert q * (dy as real) == dx as real;
    if q > 1.0 {
      assert q * (dy as real) > 1.0 * (dy as real);
    } else {
      assert q * (dy as real) <= 1.0 * (dy as real);
    }
  }

  /** onTouchEvent with swiping enabled, for the touch state s and the origin
    * (touchX, touchY) of the current gesture. */
  function Classify(s: TouchState, touchX: int, touchY: int, e: MotionEvent,
                    leftEnabled: bool, rightEnabled: bool, offset: int, slop: int): (r: TouchStep)
    ensures r.forwarded <==> !r.declined && (e.action != Move || r.state == Swipe)
    ensures r.declined ==> r.state == s
  {
    match e.action
    case Down => TouchStep(Wait, false, true)
    case Up => TouchStep(Wait, false, true)
    case Cancel => TouchStep(Wait, false, true)
    case OtherAction => TouchStep(s, false, true)
    case Move =>
      if s != Wait then TouchStep(s, false, s == Swipe)
      else
        var dx, dy := Abs(e.x - touchX), Abs(e.y - touchY);
        var leftToRight := e.x - touchX > 0;
        if ((leftToRight && !leftEnabled) || (!leftToRight && !rightEnabled)) && offset == 0 then
          TouchStep(s, true, false)
        else if dx >= slop || dy >= slop then
          var t := if dy == 0 || RatioAboveOne(dx, dy) then Swipe else Skip;
          TouchStep(t, false, t == Swipe)
        else
          TouchStep(s, false, false)
  }

  /** A gesture in WAIT that has moved past the slop, and is not declined,
    * becomes a swipe exactly when it moved more horizontally than vertically
    * (or not vertically at all), and is skipped otherwise. */
  lemma MoveClassification(touchX: int, touchY: int, e: MotionEvent,
                                              leftEnabled: bool, rightEnabled: bool, offset: int, slop: int)
    requires e.action == Move
    requires Abs(e.x - touchX) >= slop || Abs(e.y - touchY) >= slop
    ensures var r := Classify(Wait, touchX, touchY, e, leftEnabled, rightEnabled, offset, slop);
      !r.declined ==>
        (r.state == Swipe <==> Abs(e.y - touchY) == 0 || Abs(e.x - touchX) > Abs(e.y - touchY)) &&
        (r.state == Skip <==> Abs(e.y - touchY) > 0 && Abs(e.x - touchX) <= Abs(e.y - touchY))
  {
    var dx, dy := Abs(e.x - touchX), Abs(e.y - touchY);
    if dy > 0 {
      RatioAboveOneIsGreater(dx, dy);
    }
  }

  /** A move in WAIT towards a disabled direction, while the panel is closed,
    * is declined: the state stays WAIT and the helper does not see it. Any
    * other event is never declined. */
  lemma DeclinedExactly(s: TouchState, touchX: int, touchY: int, e: MotionEvent,
                        leftEnabled: bool, rightEnabled: bool, offset: int, slop: int)
    ensures Classify(s, touchX, touchY, e, leftEnabled, rightEnabled, offset, slop).declined <==>
      e.action == Move && s == Wait && offset == 0 &&
      ((e.x - touchX > 0 && !leftEnabled) || (e.x - touchX <= 0 && !rightEnabled))
  {
  }

  /** DOWN, UP and CANCEL always leave the state WAIT; a move never leaves
    * SWIPE or SKIP, so a gesture is classified at most once; any other
    * action keeps the state, and a move in WAIT that stays within the slop
    * keeps it WAIT. */
  lemma ResetsAndStickiness(s: TouchState, touchX: int, touchY: int, e: MotionEvent,
                            leftEnabled: bool, rightEnabled: bool, offset: int, slop: int)
    ensures var r := Classify(s, touchX, touchY, e, leftEnabled, rightEnabled, offset, slop);
      (e.action in {Down, Up, Cancel} ==> r.state == Wait) &&
      (s != Wait && e.action != Down && e.action != Up && e.action != Cancel ==> r.state == s) &&
      (e.action == OtherAction ==> r.state == s) &&
      (s == Wait && e.action == Move && Abs(e.x - touchX) < slop && Abs(e.y - touchY) < slop ==>
        r.state == Wait)
  {
  }
}
