# SwipeLayout, modelled in Dafny

SwipeLayout is an Android `ViewGroup`. Its centre child can be dragged sideways
to reveal a left child or a right child lying beneath it. This project models
the swipe engine of the widget in Dafny and proves what it promises.

The engine has these parts:

- The layout pass. It resolves the last visible child of each gravity and fails
  without a centre. It then attaches the side views to the centre.
- Rigid offsetting. All children move together, and the offset is the centre's
  left edge.
- Drag clamping. The callback bounds a drag by the side views.
- The release decision tree. A fling comes first, then the "no side view" rule,
  then "clamp already reached", then auto-open, then a fallback that brings the
  centre back to rest.
- The settle loop. It posts itself every frame and tells the listener once,
  when the settle ends.
- The touch classifier, with its states WAIT, SWIPE and SKIP.
- Bookkeeping of the ancestors' enabled flags (`hackParents` / `unHackParents`).
- The programmatic animations `close`, `animateReset`, `animateSwipeLeft` and
  `animateSwipeRight`.

The two demo layouts of the sample app are modelled as well.

Files:

- `views.dfy` (module `Views`) holds the child record and `Shifted`, the
  children after `offsetChildren`. It also holds the per-gravity resolution, the
  placement a layout pass does, and `Panel`, the resolved snapshot the drag
  callbacks read.
- `swipe_drag.dfy` (module `SwipeDrag`) holds the drag callback as pure
  functions of the panel: `clampMoveRight`, `clampMoveLeft`,
  `clampViewPositionHorizontal`, the clamp-reached tests and the release
  decision.
- `swipe_touch.dfy` (module `SwipeTouch`) holds the touch classifier as a
  function of the touch state, the gesture origin and one event. It also holds
  the precedence of the swipe-enabling attributes.
- `ancestors.dfy` (module `Ancestors`) holds what `hackParents` records and
  what `unHackParents` writes back.
- `swipe_layout.dfy` (module `SwipeLayoutView`) holds the class `SwipeLayout`.
  Its fields are the ones the widget updates in place: children, resolved
  views, touch state, recorded flags, running animation, drag helper state,
  posted settle callbacks and the notifications the listener has received. Its
  methods are the widget's operations, each proved against the functions
  above.
- `drag_layout.dfy` (module `DragLayoutDemo`) holds `DragLayout`'s clamps.
- `drag_layout2.dfy` (module `DragLayout2Demo`) holds the class `DragLayout2`,
  whose clamps remember what they return, and its snap rule.

The drag helper (`ViewDragHelper`) is a library the widget calls. It is modelled
as three states: idle, dragging the captured child, or settling it through the
positions its scroller will deliver. Those positions are a parameter of
`startScrollAnimation`, and the last one is the target. The helper accepts a
settle exactly when the child is not already at the target. While dragging,
the helper consults `clampViewPositionHorizontal` and moves the captured child
sideways only for a move with a horizontal component; a purely vertical move
leaves every child's horizontal position where it is.

Three points about what the code does:

- `hackParents` only records each nested-scrolling ancestor's enabled flag; it
  never disables one.
- The listener is told after a settle ends and when a release finds the clamp
  already reached, whether or not the open state changed. The programmatic
  animations never tell it anything.
- A release that no rule handles settles the child where the centre is back at
  offset 0.

## Model

| member | source | states |
|---|---|---|
| Views.ShiftedMovesAllButSkip | swipe-layout-androidx/src/main/java/com/ayvytr/swipelayout/SwipeLayout.java:446-461 | offsetChildren moves every child but skip by exactly dx, leaves skip where it is, and changes nothing but left edges |
| Views.Placed | swipe-layout-androidx/src/main/java/com/ayvytr/swipelayout/SwipeLayout.java:265-283 | a visible LEFT child ends at the centre's left edge, a RIGHT child starts at the centre's right edge, any other child keeps its left; every visible child gets the top padding; a GONE child and every size and gravity are untouched |
| Views.ShiftedByZero | swipe-layout-androidx/src/main/java/com/ayvytr/swipelayout/SwipeLayout.java:446-449 | offsetChildren by 0 leaves every child as it was |
| Views.MoveThenFollow | swipe-layout-androidx/src/main/java/com/ayvytr/swipelayout/SwipeLayout.java:531-533 | moving the captured child to x, then offsetting every other child by the same dx, is one rigid move of all children by dx |
| Views.MovedByKeepsShape | swipe-layout-androidx/src/main/java/com/ayvytr/swipelayout/SwipeLayout.java:446-461 | a rigid move by dx keeps the side views attached, moves the offset by exactly dx, keeps both travel limits and keeps every child's distance to the centre |
| Views.PlacedAllAttaches | swipe-layout-androidx/src/main/java/com/ayvytr/swipelayout/SwipeLayout.java:254-285 | after placement the left view ends where the centre begins and the right view begins where it ends; the centre keeps its left (so the offset survives relayout); every visible child gets the top padding; GONE children are untouched |
| SwipeTouch.SwipeFlags | swipe-layout-androidx/src/main/java/com/ayvytr/swipelayout/SwipeLayout.java:85-94 | a direction's own attribute wins when present; otherwise swipeEnabled decides; with neither, the direction is enabled |
| SwipeTouch.RatioAboveOneIsGreater | swipe-layout-androidx/src/main/java/com/ayvytr/swipelayout/SwipeLayout.java:401 | for dy > 0 the test dx / dy > 1 holds exactly when dx > dy |
| SwipeTouch.Classify | swipe-layout-androidx/src/main/java/com/ayvytr/swipelayout/SwipeLayout.java:382-427 | an event reaches the drag helper exactly when it is not declined and is not a MOVE, or leaves the state SWIPE; a declined event leaves the state unchanged |
| SwipeTouch.MoveClassification | swipe-layout-androidx/src/main/java/com/ayvytr/swipelayout/SwipeLayout.java:387-407 | a MOVE in WAIT past the slop that is not declined gives SWIPE iff dy == 0 or dx > dy, and SKIP iff dy > 0 and dx <= dy |
| SwipeTouch.DeclinedExactly | swipe-layout-androidx/src/main/java/com/ayvytr/swipelayout/SwipeLayout.java:388-398 | an event is declined iff it is a MOVE in WAIT, towards a disabled direction, with the offset at 0 |
| SwipeTouch.ResetsAndStickiness | swipe-layout-androidx/src/main/java/com/ayvytr/swipelayout/SwipeLayout.java:382-418 | DOWN, UP and CANCEL always lead to WAIT; no other event leaves SWIPE or SKIP; any other action keeps the state; a move in WAIT within the touch slop stays in WAIT (classification happens only past the slop) |
| Ancestors.Recorded | swipe-layout-androidx/src/main/java/com/ayvytr/swipelayout/SwipeLayout.java:463-472 | the record holds exactly the nested-scrolling ancestors among those walked |
| Ancestors.HackUnhackRestores | swipe-layout-androidx/src/main/java/com/ayvytr/swipelayout/SwipeLayout.java:463-482 | hackParents followed by unHackParents gives every ancestor its own enabled flag back, whatever was recorded before |
| SwipeDrag.ClampMoveRight | swipe-layout-androidx/src/main/java/com/ayvytr/swipelayout/SwipeLayout.java:535-541 | the result never exceeds the proposal or the right bound, and is one of the two |
| SwipeDrag.ClampMoveLeft | swipe-layout-androidx/src/main/java/com/ayvytr/swipelayout/SwipeLayout.java:543-550 | the result is never below the proposal or the left bound, and is one of the two |
| SwipeDrag.ClampHorizontal | swipe-layout-androidx/src/main/java/com/ayvytr/swipelayout/SwipeLayout.java:499-505 | a move with dx > 0 is never carried past the proposal to the right; any other move (dx == 0 included) is never carried past it to the left |
| SwipeDrag.ClampIdempotent | swipe-layout-androidx/src/main/java/com/ayvytr/swipelayout/SwipeLayout.java:499-550 | clamping a clamped position again changes nothing |
| SwipeDrag.RightClampInOffsets | swipe-layout-androidx/src/main/java/com/ayvytr/swipelayout/SwipeLayout.java:535-541 | on an attached panel, clampMoveRight of any resolved view lets the centre go right only up to the left view's width (0 without a left view) |
| SwipeDrag.LeftClampInOffsets | swipe-layout-androidx/src/main/java/com/ayvytr/swipelayout/SwipeLayout.java:543-550 | on an attached panel, clampMoveLeft of any resolved view lets the centre go left only down to minus the right view's width (0 without a right view) |
| SwipeDrag.DragStepOffset | swipe-layout-androidx/src/main/java/com/ayvytr/swipelayout/SwipeLayout.java:499-550 | dragging a resolved view by d moves the offset by d, stopped at the left view's width going right and at minus the right view's width going left; a move with no horizontal component moves nothing, since the drag helper neither clamps nor reports it |
| SwipeDrag.DragStepAttached | swipe-layout-androidx/src/main/java/com/ayvytr/swipelayout/SwipeLayout.java:531-533 | a drag step keeps the side views attached to the centre |
| SwipeDrag.DragStaysInRange | swipe-layout-androidx/src/main/java/com/ayvytr/swipelayout/SwipeLayout.java:499-550 | once the offset lies within [minus the right view's width, the left view's width], every drag step of a captured resolved view (centre, left or right view) keeps it there |
| SwipeDrag.LeftViewClampReached | swipe-layout-androidx/src/main/java/com/ayvytr/swipelayout/SwipeLayout.java:639-644 | the left clamp is reached iff there is a left view and it lies wholly at or right of the layout's left edge |
| SwipeDrag.RightViewClampReached | swipe-layout-androidx/src/main/java/com/ayvytr/swipelayout/SwipeLayout.java:646-652 | the right clamp is reached iff there is a right view and its left edge is at most the layout width minus its width |
| SwipeDrag.ClampReachedMeansFullyOpen | swipe-layout-androidx/src/main/java/com/ayvytr/swipelayout/SwipeLayout.java:639-652 | on an attached full-width panel, leftViewClampReached iff there is a left view and the offset is at least its width; rightViewClampReached iff there is a right view and the offset is at most minus its width |
| SwipeDrag.MoveRightReleased | swipe-layout-androidx/src/main/java/com/ayvytr/swipelayout/SwipeLayout.java:552-585 | onMoveRightReleased never ignores a release; it reports at once only after a slow move right with the left clamp reached; it settles only at the clamped fling goal or at rest; it leaves the release unhandled iff there is a left view, no fling, and neither the reached clamp nor the auto-open distance applies; past the auto-open distance it settles any child at the clamped fling goal |
| SwipeDrag.MoveLeftReleased | swipe-layout-androidx/src/main/java/com/ayvytr/swipelayout/SwipeLayout.java:587-619 | the mirror image of onMoveRightReleased for moves to the left and the right view, including auto-open settling any child at the clamped fling goal |
| SwipeDrag.Released | swipe-layout-androidx/src/main/java/com/ayvytr/swipelayout/SwipeLayout.java:508-512 | a child released where it was captured causes nothing |
| SwipeDrag.FlingDecidesFirst | swipe-layout-androidx/src/main/java/com/ayvytr/swipelayout/SwipeLayout.java:552-594 | a release faster than the threshold settles at the clamped fling goal in its direction, whatever the side views, clamps and auto-open distances |
| SwipeDrag.NoSideViewSettlesAtRest | swipe-layout-androidx/src/main/java/com/ayvytr/swipelayout/SwipeLayout.java:508-599 | without a fling, and without a side view on the side the release is routed to, the child settles where the centre is at 0 |
| SwipeDrag.NoLeftViewSlowRightDrag | swipe-layout-androidx/src/main/java/com/ayvytr/swipelayout/SwipeLayout.java:508-599 | without a left view, a slow release after a drag to the right settles at rest whatever the sign of the velocity |
| SwipeDrag.NoRightViewSlowLeftDrag | swipe-layout-androidx/src/main/java/com/ayvytr/swipelayout/SwipeLayout.java:508-599 | without a right view, a slow release after a drag to the left settles at rest whatever the sign of the velocity |
| SwipeDrag.CentreReleaseTargets | swipe-layout-androidx/src/main/java/com/ayvytr/swipelayout/SwipeLayout.java:508-619 | releasing the centre settles it only at 0 or fully open on either side; an immediate report happens only when the panel is already fully open |
| SwipeDrag.CentreFlingGoesToOppositeExtreme | swipe-layout-androidx/src/main/java/com/ayvytr/swipelayout/SwipeLayout.java:552-594 | a fling of the centre to the right opens the left view unless the panel is open to the left, in which case it goes back to 0; the mirror holds to the left |
| SwipeDrag.CentreAutoOpen | swipe-layout-androidx/src/main/java/com/ayvytr/swipelayout/SwipeLayout.java:576-616 | a slow release past a side view's auto-open distance, before its clamp is reached, opens that view fully |
| SwipeDrag.FlingScenario | swipe-layout-androidx/src/main/java/com/ayvytr/swipelayout/SwipeLayout.java:552-560 | width 300 with a left view 100 wide: a drag right by 40 and a fast fling right settle at offset 100 |
| SwipeDrag.AutoOpenScenario | swipe-layout-androidx/src/main/java/com/ayvytr/swipelayout/SwipeLayout.java:610-616 | a right view 80 wide with auto-open distance 50: a drag left by 60 and a slow release settle at offset -80 |
| SwipeLayoutView.ResolveViews | swipe-layout-androidx/src/main/java/com/ayvytr/swipelayout/SwipeLayout.java:225-248 | each resolved view is the last visible child of its gravity, or none when there is no such child |
| SwipeLayoutView.PlaceChildren | swipe-layout-androidx/src/main/java/com/ayvytr/swipelayout/SwipeLayout.java:254-285 | every child ends where the placement rule puts it against the centre |
| SwipeLayoutView.SwipeLayout.constructor | swipe-layout-androidx/src/main/java/com/ayvytr/swipelayout/SwipeLayout.java:75-98 | the swipe flags follow the attribute precedence; the touch state is WAIT, nothing is recorded, animated or notified |
| SwipeLayoutView.SwipeLayout.GetOffset | swipe-layout-androidx/src/main/java/com/ayvytr/swipelayout/SwipeLayout.java:433-435 | the offset is the centre's left edge, and 0 without a centre; SetOffset is its inverse |
| SwipeLayoutView.SwipeLayout.IsOpen | swipe-layout-androidx/src/main/java/com/ayvytr/swipelayout/SwipeLayout.java:104-106 | a layout without a centre is never open |
| SwipeLayoutView.SwipeLayout.IsClose | swipe-layout-androidx/src/main/java/com/ayvytr/swipelayout/SwipeLayout.java:100-106 | isClose() iff not isOpen() (isOpen is offset != 0) |
| SwipeLayoutView.SwipeLayout.SetOnStateChangedListener | swipe-layout-androidx/src/main/java/com/ayvytr/swipelayout/SwipeLayout.java:659-661 | a listener is registered or removed |
| SwipeLayoutView.SwipeLayout.NotifyListener | swipe-layout-androidx/src/main/java/com/ayvytr/swipelayout/SwipeLayout.java:570-572 | a registered listener hears isOpen() once; without one nothing is heard |
| SwipeLayoutView.SwipeLayout.LayoutChildren | swipe-layout-androidx/src/main/java/com/ayvytr/swipelayout/SwipeLayout.java:220-286 | the views resolved are the last visible child of each gravity; the pass fails exactly when there is no centre and then moves nothing; otherwise every child is placed and the offset is kept |
| SwipeLayoutView.SwipeLayout.OffsetChildren | swipe-layout-androidx/src/main/java/com/ayvytr/swipelayout/SwipeLayout.java:446-461 | every child except skip moves by dx and nothing else changes |
| SwipeLayoutView.SwipeLayout.SetOffset | swipe-layout-androidx/src/main/java/com/ayvytr/swipelayout/SwipeLayout.java:440-444 | with a centre, getOffset() becomes offset and every child keeps its distance to the centre; without one nothing moves |
| SwipeLayoutView.SwipeLayout.OnViewPositionChanged | swipe-layout-androidx/src/main/java/com/ayvytr/swipelayout/SwipeLayout.java:531-533 | every child but the changed one follows it by dx |
| SwipeLayoutView.SwipeLayout.MoveCaptured | swipe-layout-androidx/src/main/java/com/ayvytr/swipelayout/SwipeLayout.java:531-533 | the helper moving a child to x, with the others following, moves all children rigidly and keeps the side views attached |
| SwipeLayoutView.SwipeLayout.TryCaptureView | swipe-layout-androidx/src/main/java/com/ayvytr/swipelayout/SwipeLayout.java:488-491 | every child is captured and its left edge is remembered |
| SwipeLayoutView.SwipeLayout.CaptureChild | swipe-layout-androidx/src/main/java/com/ayvytr/swipelayout/SwipeLayout.java:488-491 | the helper drags the child it captured, and initLeft is that child's left edge |
| SwipeLayoutView.SwipeLayout.DragCapturedTo | swipe-layout-androidx/src/main/java/com/ayvytr/swipelayout/SwipeLayout.java:499-505 | a drag moves the panel exactly as the clamped drag step on the snapshot does, and a drag with no horizontal component leaves every child in place |
| SwipeLayoutView.SwipeLayout.StartScrollAnimation | swipe-layout-androidx/src/main/java/com/ayvytr/swipelayout/SwipeLayout.java:621-637 | a settle starts iff the view is not already at the target; then one callback is posted and the distance left is target minus the view's left edge; otherwise nothing is posted |
| SwipeLayoutView.SwipeLayout.OnViewReleased | swipe-layout-androidx/src/main/java/com/ayvytr/swipelayout/SwipeLayout.java:508-528 | the release decision is carried out: no motion does nothing, a reached clamp tells the listener at once with no settle, and a settle target starts a settle towards it without telling anyone |
| SwipeLayoutView.SwipeLayout.ReleaseCaptured | swipe-layout-androidx/src/main/java/com/ayvytr/swipelayout/SwipeLayout.java:508-528 | after a release the helper settles iff the decision is a target the child is not at; it then settles towards that target with one more callback posted and the distance left set to target minus the child's left; otherwise nothing is posted; the listener hears something iff the decision was an immediate report |
| SwipeLayoutView.SwipeLayout.DeliverFrame | swipe-layout-androidx/src/main/java/com/ayvytr/swipelayout/SwipeLayout.java:627-628 | one settle frame moves the whole panel by that frame's step and reduces the distance left by the same amount |
| SwipeLayoutView.SwipeLayout.ContinueSettling | swipe-layout-androidx/src/main/java/com/ayvytr/swipelayout/SwipeLayout.java:627 | continueSettling answers true iff a frame was left, and then it was delivered; false means nothing moves and nothing was left to travel |
| SwipeLayoutView.SwipeLayout.SettleFrame | swipe-layout-androidx/src/main/java/com/ayvytr/swipelayout/SwipeLayout.java:624-635 | a settle callback either moves one frame and stays posted without notifying, or ends and tells the listener isOpen() exactly once; ending turns a settling helper idle and leaves a dragging or idle helper as it was |
| SwipeLayoutView.SwipeLayout.RunFrames | swipe-layout-androidx/src/main/java/com/ayvytr/swipelayout/SwipeLayout.java:624-628 | delivering all frames carries the panel rigidly by the whole settle distance, so the captured child ends at the target |
| SwipeLayoutView.SwipeLayout.FinishSettles | swipe-layout-androidx/src/main/java/com/ayvytr/swipelayout/SwipeLayout.java:629-633 | every posted callback that finds no frame left ends and tells the listener isOpen() once, and nothing moves; a settling helper becomes idle and any other helper state is kept |
| SwipeLayoutView.SwipeLayout.RunSettles | swipe-layout-androidx/src/main/java/com/ayvytr/swipelayout/SwipeLayout.java:621-637 | run to the end, a settle leaves the captured child at its target with every other child rigidly along, and the listener hears isOpen() exactly once per posted settle, only at the end; a settling helper ends idle, and a helper that was dragging (a new touch captured during the settle) or idle is left as it was |
| SwipeLayoutView.SwipeLayout.Abort | swipe-layout-androidx/src/main/java/com/ayvytr/swipelayout/SwipeLayout.java:150 | the helper stops dragging or settling |
| SwipeLayoutView.SwipeLayout.FinishAnimator | swipe-layout-androidx/src/main/java/com/ayvytr/swipelayout/SwipeLayout.java:162-172 | a running animation is ended at its end value and forgotten; without one nothing changes |
| SwipeLayoutView.SwipeLayout.RunAnimation | swipe-layout-androidx/src/main/java/com/ayvytr/swipelayout/SwipeLayout.java:148-160 | the previous animation is ended at its end value and the helper stopped before the new one starts, so the new one is the only motion |
| SwipeLayoutView.SwipeLayout.AnimationEnds | swipe-layout-androidx/src/main/java/com/ayvytr/swipelayout/SwipeLayout.java:168 | an animation that ends leaves the offset at its end value |
| SwipeLayoutView.SwipeLayout.AnimateReset | swipe-layout-androidx/src/main/java/com/ayvytr/swipelayout/SwipeLayout.java:115-122 | with a centre and the panel open, an animation from the offset to 0 starts; otherwise nothing changes |
| SwipeLayoutView.SwipeLayout.Close | swipe-layout-androidx/src/main/java/com/ayvytr/swipelayout/SwipeLayout.java:108-110 | an open panel starts animating to 0 after a running animation is ended at its end value; a closed one is left entirely alone |
| SwipeLayoutView.SwipeLayout.AnimateSwipeLeft | swipe-layout-androidx/src/main/java/com/ayvytr/swipelayout/SwipeLayout.java:129-134 | with a centre and a right view, an animation to minus the right view's width starts, whatever the swipe flags; otherwise nothing changes |
| SwipeLayoutView.SwipeLayout.AnimateSwipeRight | swipe-layout-androidx/src/main/java/com/ayvytr/swipelayout/SwipeLayout.java:141-146 | with a centre and a left view, an animation to the left view's width starts, whatever the swipe flags; otherwise nothing changes |
| SwipeLayoutView.SwipeLayout.IsSwipeEnabled | swipe-layout-androidx/src/main/java/com/ayvytr/swipelayout/SwipeLayout.java:342-344 | swiping is enabled iff a move from rest to the right or one to the left is not declined by the classifier |
| SwipeLayoutView.SwipeLayout.OnTouchBegin | swipe-layout-androidx/src/main/java/com/ayvytr/swipelayout/SwipeLayout.java:361-365 | a gesture starts in WAIT where the touch went down |
| SwipeLayoutView.SwipeLayout.OnInterceptTouchEvent | swipe-layout-androidx/src/main/java/com/ayvytr/swipelayout/SwipeLayout.java:354-373 | with swiping enabled a DOWN starts a gesture and the helper decides; otherwise the default handling decides and the touch state is untouched |
| SwipeLayoutView.SwipeLayout.HackParents | swipe-layout-androidx/src/main/java/com/ayvytr/swipelayout/SwipeLayout.java:463-472 | the enabled flag of every nested-scrolling ancestor is recorded over the earlier record, and no flag is changed |
| SwipeLayoutView.SwipeLayout.UnHackParents | swipe-layout-androidx/src/main/java/com/ayvytr/swipelayout/SwipeLayout.java:474-482 | every recorded flag is written back to its ancestor and the record is emptied |
| SwipeLayoutView.SwipeLayout.FollowGesture | swipe-layout-androidx/src/main/java/com/ayvytr/swipelayout/SwipeLayout.java:400-418 | a swipe that starts disallows intercepting and records the flags; a swipe that ends with UP or CANCEL allows it again and restores them; any other step changes neither |
| SwipeLayoutView.SwipeLayout.TrackGesture | swipe-layout-androidx/src/main/java/com/ayvytr/swipelayout/SwipeLayout.java:382-427 | the touch state, the forwarding and the declining follow the classifier, and the ancestors are hacked and restored with the swipe |
| SwipeLayoutView.SwipeLayout.OnTouchEvent | swipe-layout-androidx/src/main/java/com/ayvytr/swipelayout/SwipeLayout.java:376-428 | with swiping disabled the default result is returned and nothing changes; otherwise the event is consumed unless declined, and the state, the forwarding and the ancestors follow the classifier |
| DragLayoutDemo.TryCaptureView | app-androidx/src/main/java/com/ayvytr/swipelayoutapp/DragLayout.java:25-28 | every child is captured |
| DragLayoutDemo.ClampToRange | app-androidx/src/main/java/com/ayvytr/swipelayoutapp/DragLayout.java:37-65 | a negative proposal becomes 0; the result is the proposal, 0 or parent minus child; when the child fits the result lies in [0, parent - child] and equals the proposal iff the proposal already does |
| DragLayoutDemo.ClampIsNearest | app-androidx/src/main/java/com/ayvytr/swipelayoutapp/DragLayout.java:37-49 | when the child fits, the clamp is the allowed position nearest to the proposal |
| DragLayoutDemo.ClampIdempotent | app-androidx/src/main/java/com/ayvytr/swipelayoutapp/DragLayout.java:37-49 | when the child fits, clamping twice equals clamping once |
| DragLayoutDemo.OversizedChild | app-androidx/src/main/java/com/ayvytr/swipelayoutapp/DragLayout.java:37-49 | a child wider than its parent is held at 0 for a negative proposal, because the lower test runs first, and at the negative parent - child otherwise |
| DragLayout2Demo.UpperClamp | app-androidx/src/main/java/com/ayvytr/swipelayoutapp/DragLayout2.java:89-104 | the clamp never exceeds the proposal, keeps a negative one, and is either the proposal or parent minus child |
| DragLayout2Demo.UpperClampAgainstDragLayout | app-androidx/src/main/java/com/ayvytr/swipelayoutapp/DragLayout2.java:89-104 | the two demo clamps agree on non-negative proposals and differ exactly on negative ones, which DragLayout holds at 0 |
| DragLayout2Demo.UpperClampIdempotent | app-androidx/src/main/java/com/ayvytr/swipelayoutapp/DragLayout2.java:89-104 | clamping twice equals clamping once |
| DragLayout2Demo.SnapLeft | app-androidx/src/main/java/com/ayvytr/swipelayoutapp/DragLayout2.java:80-84 | a released child settles at the left edge or flush with the right edge, inside the parent when it fits |
| DragLayout2Demo.SnapByMiddle | app-androidx/src/main/java/com/ayvytr/swipelayoutapp/DragLayout2.java:80-84 | a child whose middle is left of the parent's middle by at least one goes to the left edge; one whose middle is at or right of it goes to the right edge |
| DragLayout2Demo.SnapFromLeftEdge | app-androidx/src/main/java/com/ayvytr/swipelayoutapp/DragLayout2.java:80-84 | with both halves rounded down, a child 4 wide at the left edge of a parent 5 wide settles at 1 |
| DragLayout2Demo.DragLayout2.constructor | app-androidx/src/main/java/com/ayvytr/swipelayoutapp/DragLayout2.java:21-22 | the remembered positions start at 0 |
| DragLayout2Demo.DragLayout2.TryCaptureView | app-androidx/src/main/java/com/ayvytr/swipelayoutapp/DragLayout2.java:68-73 | every child is captured and its left and top are remembered |
| DragLayout2Demo.DragLayout2.ClampViewPositionHorizontal | app-androidx/src/main/java/com/ayvytr/swipelayoutapp/DragLayout2.java:89-104 | returns the upper-only clamp of the proposal and remembers it as the current left |
| DragLayout2Demo.DragLayout2.ClampViewPositionVertical | app-androidx/src/main/java/com/ayvytr/swipelayoutapp/DragLayout2.java:107-123 | returns the [0, parent - child] clamp of the proposal and remembers it as the current top |
| DragLayout2Demo.DragLayout2.OnViewReleased | app-androidx/src/main/java/com/ayvytr/swipelayoutapp/DragLayout2.java:76-86 | the child settles at the snap position of the remembered left, either 0 or parent minus child, at the remembered top |
| DragLayout2Demo.DragLayout2.HorizontalDragRange | app-androidx/src/main/java/com/ayvytr/swipelayoutapp/DragLayout2.java:126-128 | any non-negative proposal at or past the range is stopped at the range |
| DragLayout2Demo.DragLayout2.VerticalDragRange | app-androidx/src/main/java/com/ayvytr/swipelayoutapp/DragLayout2.java:131-133 | when the child fits, every clamped top lies in [0, range] |

## Left out

- `onMeasure` and MeasureSpec handling are Android measurement plumbing. Child widths are inputs of the model.
- Attribute parsing, the `LayoutParams` constructors and density scaling are not modelled. Gravity, the auto-open distance, the velocity threshold and the touch slop are plain integers.
- The helper's own logic (`shouldInterceptTouchEvent`, `processTouchEvent`, the scroller) belongs to the `ViewDragHelper` library. Whether the helper intercepts is a parameter. The scroller's frames are a parameter of a settle.
- SwipeLayoutView.SwipeLayout.DragCapturedTo: models only the horizontal part of a drag. The vertical part of the helper's drag step (the callback's default vertical clamp) is not modelled, and a child's top changes only in a layout pass.
- SwipeLayoutView.SwipeLayout.Abort: only stops the helper. In the library, an abort during a settle reports the scroller's remaining distance through `onViewPositionChanged` without moving the captured child, so `offsetChildren` moves every other child by that distance. In the program the side views can then end up detached from the centre, so the attachment part of the class invariant does not survive an abort during a settle; the model does not capture this.
- `ObjectAnimator`, its 200 ms duration and its accelerate interpolation are not modelled. An animation is its start and end value, and the offset reaches the end value when the animation ends.
- `WeakReference` and `WeakHashMap` collection is not modelled. Plain options and maps stand in. Ancestors are numbered from the direct parent upwards.
- `invalidate` and `postOnAnimation` are rendering and scheduling effects. Posted settle callbacks are a counter, and the host runs them.
- `requestDisallowInterceptTouchEvent` is modelled only as the flag last passed to it.
- The logging calls of the demo layouts are not modelled.
- The adapter and activities of the sample app are list and activity glue.
- `getViewHorizontalDragRange` of SwipeLayout (the layout width) is not modelled. The library uses it to decide whether a move passes the touch slop, whether to capture a child in `shouldInterceptTouchEvent`, and how long a settle takes. Those decisions are inside the library, which is outside this model.
- `DragLayout.onViewReleased` only logs and calls the empty base method, so it is not modelled.
- `DragLayout2.computeScroll` runs the library's settle, which is not part of this model.
- Velocities and touch coordinates are floats in the source and integers here. Only their signs and orderings are compared, and the test `dx / dy > 1f` is stated over exact quotients.
- StartScrollAnimation: the `moveToClamp` and `toRight` arguments are not modelled, because the source never reads them.
- SwipeDrag.DragStepOffset, SwipeDrag.CentreReleaseTargets and the related lemmas assume the centre is as wide as the layout, and some assume no side view is wider than it. Layouts that break this are still modelled by the functions, but these properties are not proved for them.
- SwipeDrag.DragStaysInRange: holds only when the captured child is the centre, the left view or the right view. The source lets any child be captured. With no side view on the travel side, it bounds a child that is none of the three by the layout width (`Math.min(left, getWidth())`) or by minus the child's width (`Math.max(left, -child.getWidth())`), not by the offset range. Example: two visible CENTER children of width 300 in a layout of width 300, with no side views. The second child is the centre. Dragging the first child from 0 to 50 moves the centre to offset 50, beyond the upper bound 0. So the range holds for every sequence of drag steps of resolved views only.
- SwipeLayoutView.SwipeLayout.AnimateReset, SwipeLayoutView.SwipeLayout.AnimateSwipeLeft and SwipeLayoutView.SwipeLayout.AnimateSwipeRight read the start value of the new animation before `runAnimation` ends the previous one. Ending the previous animation jumps the offset to that animation's end value. The new animation then starts from the value read before the jump, so the offset jumps back to it when the new animation starts. The model records this start value; the model's animation has no intermediate values, so the jump back is not otherwise visible.
- SwipeLayoutView.PlaceChildren, Views.PlacedAllAttaches and SwipeLayoutView.SwipeLayout.LayoutChildren assume that each child's edges already match its measured width, so the centre's right edge is its left plus its width. The source places the right view at `centerView.getRight()`, the centre's current right edge. That edge is stale when the right child comes before the centre in child order and the centre has not yet been laid out at its measured width, for example on the first pass, when all edges are 0. The source then leaves the right view at the stale edge, detached from the centre, until the next layout pass. The model does not capture this.
- `isLeftSwipeEnabled` and `isRightSwipeEnabled` are plain getters of the constant flags.
