/** Geometry of a swipe layout's children: the per-child placement record,
  * the rigid offsetting of children, the per-gravity resolution and the
  * placement done by a layout pass, and a snapshot of the resolved panel
  * that the drag callbacks read. Only horizontal positions matter. */
module Views {

  datatype Option<T> = None | Some(value: T)

  function Min(a: int, b: int): int { if a <= b then a else b }
  function Max(a: int, b: int): int { if a >= b then a else b }

  /** Gravity codes of SwipeLayout.LayoutParams. A child with any other code
    * keeps its own left when laid out but is never resolved as a view. */
  const LEFT: int := -1
  const CENTER: int := 0
  const RIGHT: int := 1
  /** LayoutParams.bringToClamp when no auto-open distance is configured. */
  const BRING_TO_CLAMP_NO: int := -1

  /** One child view: its left and top edges, its width, its layout gravity,
    * whether its visibility is GONE, and its auto-open distance. */
  datatype Child = Child(left: int, top: int, width: nat, gravity: int, gone: bool, autoOpen: int)
  {
    function Right(): int { left + width }
  }

  /** The children after offsetChildren(skip, dx): every child but skip is
    * moved right by dx, and nothing else about any child changes. */
  function Shifted(cs: seq<Child>, skip: Option<nat>, dx: int): (r: seq<Child>)
    ensures |r| == |cs|
  {
    seq(|cs|, i requires 0 <= i < |cs| =>
      if skip == Some(i) then cs[i] else cs[i].(left := cs[i].left + dx))
  }

  /** offsetChildren moves every child but skip by exactly dx, leaves skip
    * where it is, and changes nothing about any child but its left edge. */
  lemma ShiftedMovesAllButSkip(cs: seq<Child>, skip: Option<nat>, dx: int)
    ensures forall i :: 0 <= i < |cs| ==>
      Shifted(cs, skip, dx)[i].left == cs[i].left + (if skip == Some(i) then 0 else dx)
    ensures forall i :: 0 <= i < |cs| ==> Shifted(cs, skip, dx)[i].(left := cs[i].left) == cs[i]
  {
  }

  /** Offsetting by zero changes nothing. */
  lemma ShiftedByZero(cs: seq<Child>, skip: Option<nat>)
    ensures Shifted(cs, skip, 0) == cs
  {
  }

  /** A child moved by dx on its own, followed by offsetChildren(child, dx)
    * for the others, is the same as moving every child by dx. */
  lemma MoveThenFollow(cs: seq<Child>, k: nat, x: int)
    requires k < |cs|
    ensures Shifted(cs[k := cs[k].(left := x)], Some(k), x - cs[k].left)
         == Shifted(cs, None, x - cs[k].left)
  {
  }

  /** Two rigid moves make one. */
  lemma ShiftedTwice(cs: seq<Child>, mid: seq<Child>, after: seq<Child>, a: int, b: int, c: int)
    requires mid == Shifted(cs, None, a) && after == Shifted(mid, None, b) && a + b == c
    ensures after == Shifted(cs, None, c)
  {
  }

  /** r is the last of the first n children that is not GONE and has gravity
    * g, or None when there is no such child. */
  ghost predicate LastAmong(cs: seq<Child>, n: nat, g: int, r: Option<nat>)
    requires n <= |cs|
  {
    match r
    case None => forall i :: 0 <= i < n ==> cs[i].gone || cs[i].gravity != g
    case Some(k) =>
      k < n && !cs[k].gone && cs[k].gravity == g &&
      forall i :: k < i < n ==> cs[i].gone || cs[i].gravity != g
  }

  /** Where a layout pass puts one child, given the centre view and the top
    * padding: a LEFT child ends at the centre's left edge, a RIGHT child
    * starts at its right edge, any other child keeps its left, and every
    * child that is not GONE gets the top padding as its top. */
  function Placed(c: Child, centre: Child, parentTop: int): (r: Child)
    ensures r.width == c.width && r.gravity == c.gravity && r.gone == c.gone && r.autoOpen == c.autoOpen
    ensures !c.gone && c.gravity == LEFT ==> r.Right() == centre.left
    ensures !c.gone && c.gravity == RIGHT ==> r.left == centre.Right()
    ensures !c.gone && c.gravity != LEFT && c.gravity != RIGHT ==> r.left == c.left
    ensures !c.gone ==> r.top == parentTop
    ensures c.gone ==> r == c
  {
    if c.gone then c
    else
      c.(left := if c.gravity == LEFT then centre.left - c.width
                 else if c.gravity == RIGHT then centre.Right()
                 else c.left,
         top := parentTop)
  }

  function PlacedAll(cs: seq<Child>, centre: Child, parentTop: int): (r: seq<Child>)
    ensures |r| == |cs|
  {
    seq(|cs|, i requires 0 <= i < |cs| => Placed(cs[i], centre, parentTop))
  }

  /** The resolved panel as the drag callbacks see it: the children, the
    * layout's width, and the indices of the centre, left and right views. */
  datatype Panel = Panel(children: seq<Child>, width: int, center: nat,
                         leftView: Option<nat>, rightView: Option<nat>)
  {
    predicate Valid()
    {
      center < |children| &&
      (leftView.Some? ==> leftView.value < |children|) &&
      (rightView.Some? ==> rightView.value < |children|)
    }

    /** getOffset(): the centre view's left edge. */
    function Offset(): int
      requires Valid()
    {
      children[center].left
    }

    /** What a layout pass establishes and rigid offsetting keeps: the left
      * view ends where the centre begins, the right view begins where it ends. */
    predicate Attached()
      requires Valid()
    {
      (leftView.Some? ==> children[leftView.value].Right() == children[center].left) &&
      (rightView.Some? ==> children[rightView.value].left == children[center].Right())
    }

    /** The child is one of the resolved views. */
    predicate IsView(k: nat)
    {
      k == center || leftView == Some(k) || rightView == Some(k)
    }

    /** The centre fills the layout and no side view is wider than it. */
    predicate FullWidth()
      requires Valid()
    {
      children[center].width == width &&
      (leftView.Some? ==> children[leftView.value].width <= width) &&
      (rightView.Some? ==> children[rightView.value].width <= width)
    }

    /** The largest offset a drag to the right can reach: the left view's width. */
    function Upper(): int
      requires Valid()
    {
      if leftView.Some? then children[leftView.value].width else 0
    }

    /** The smallest offset a drag to the left can reach: minus the right view's width. */
    function Lower(): int
      requires Valid()
    {
      if rightView.Some? then -(children[rightView.value].width as int) else 0
    }

    /** The same panel with every child moved by dx. */
    function MovedBy(dx: int): (q: Panel)
    {
      this.(children := Shifted(children, None, dx))
    }
  }

  /** Moving all children together keeps the side views attached, moves the
    * offset by exactly dx and keeps every distance to the centre. */
  lemma MovedByKeepsShape(p: Panel, dx: int)
    requires p.Valid()
    ensures p.MovedBy(dx).Valid()
    ensures p.Attached() ==> p.MovedBy(dx).Attached()
    ensures p.MovedBy(dx).Offset() == p.Offset() + dx
    ensures p.MovedBy(dx).Upper() == p.Upper() && p.MovedBy(dx).Lower() == p.Lower()
    ensures forall i :: 0 <= i < |p.children| ==>
      p.MovedBy(dx).children[i].left - p.MovedBy(dx).Offset() == p.children[i].left - p.Offset()
  {
  }

  /** What a layout pass leaves behind, for the children cs of a layout of
    * width w: the centre, left and right views c, l and r are visible
    * children of their own gravity, and with a centre the side views are
    * attached to it. */
  ghost predicate Resolved(cs: seq<Child>, w: int, c: Option<nat>, l: Option<nat>, r: Option<nat>)
  {
    (c.Some? ==> c.value < |cs| && !cs[c.value].gone && cs[c.value].gravity == CENTER) &&
    (l.Some? ==> l.value < |cs| && !cs[l.value].gone && cs[l.value].gravity == LEFT) &&
    (r.Some? ==> r.value < |cs| && !cs[r.value].gone && cs[r.value].gravity == RIGHT) &&
    (c.Some? ==> Panel(cs, w, c.value, l, r).Valid() && Panel(cs, w, c.value, l, r).Attached())
  }

  /** Moving all children together keeps them resolved. */
  lemma ShiftedKeepsResolved(cs: seq<Child>, w: int, c: Option<nat>, l: Option<nat>, r: Option<nat>, dx: int)
    requires Resolved(cs, w, c, l, r)
    ensures Resolved(Shifted(cs, None, dx), w, c, l, r)
  {
  }

  /** Moving all children together moves the offset by the same amount.
    * MovedByKeepsShape says this too; this smaller statement is the one
    * the drag lemmas use, as it gives the solver far less to consider. */
  lemma MovedByOffset(p: Panel, dx: int)
    requires p.Valid()
    ensures p.MovedBy(dx).Valid() && p.MovedBy(dx).Offset() == p.Offset() + dx
  {
  }

  /** A layout pass attaches the side views to the centre, leaves the
    * centre's left edge (the offset) where it was and puts every visible
    * child at the top padding. */
  lemma PlacedAllAttaches(p: Panel, parentTop: int)
    requires p.Valid()
    requires !p.children[p.center].gone && p.children[p.center].gravity == CENTER
    requires p.leftView.Some? ==> !p.children[p.leftView.value].gone && p.children[p.leftView.value].gravity == LEFT
    requires p.rightView.Some? ==> !p.children[p.rightView.value].gone && p.children[p.rightView.value].gravity == RIGHT
    ensures var q := p.(children := PlacedAll(p.children, p.children[p.center], parentTop));
      q.Valid() && q.Attached() && q.Offset() == p.Offset() &&
      (forall i :: 0 <= i < |p.children| && !p.children[i].gone ==> q.children[i].top == parentTop) &&
      (forall i :: 0 <= i < |p.children| && p.children[i].gone ==> q.children[i] == p.children[i])
  {
  }
}
