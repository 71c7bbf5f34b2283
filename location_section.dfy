/**
  A horizontally scrolling row of listing cards with a left and a right
  button. The buttons' availability is derived from the row's scroll
  geometry, both on every scroll event and 300 ms after a button press (the
  settle timeout, here an explicit event). The row itself belongs to the
  browser: its geometry is passed in as a value at each event.
*/
module LocationSection {
  import opened Wrappers

  /** What the handlers read from the scroll container. */
  datatype Geometry = Geometry(scrollLeft: int, scrollWidth: int, clientWidth: int)

  datatype Direction = Left | Right

  /** Pixels moved by one button press. */
  const ScrollAmount: int := 400

  /** Slack for sub-pixel rounding at the right end. */
  const Tolerance: int := 10

  predicate CanScrollLeft(g: Geometry) {
    g.scrollLeft > 0
  }

  predicate CanScrollRight(g: Geometry) {
    g.scrollLeft < g.scrollWidth - g.clientWidth - Tolerance
  }

  /** The offset a press asks the browser to scroll to: 400 px before or after the current one. */
  function RequestedOffset(scrollLeft: int, dir: Direction): (left: int)
    ensures dir == Left ==> left < scrollLeft && scrollLeft - left == ScrollAmount
    ensures dir == Right ==> left > scrollLeft && left - scrollLeft == ScrollAmount
  {
    scrollLeft + (if dir == Left then -ScrollAmount else ScrollAmount)
  }

  /** The right button is available up to the last offset more than 10 px short of the maximum. */
  lemma RightAvailabilityThreshold(g: Geometry)
    ensures CanScrollRight(g) <==> g.scrollLeft <= g.scrollWidth - g.clientWidth - Tolerance - 1
    ensures CanScrollRight(g) ==> forall p :: p <= g.scrollLeft ==> CanScrollRight(g.(scrollLeft := p))
    ensures CanScrollLeft(g) ==> forall p :: p >= g.scrollLeft ==> CanScrollLeft(g.(scrollLeft := p))
  {
  }

  /** Worked cases for a 1000 px row in a 400 px viewport. */
  lemma WideRowExamples()
    ensures !CanScrollLeft(Geometry(0, 1000, 400)) && CanScrollRight(Geometry(0, 1000, 400))
    ensures CanScrollRight(Geometry(589, 1000, 400)) && !CanScrollRight(Geometry(590, 1000, 400))
    ensures CanScrollLeft(Geometry(610, 1000, 400)) && !CanScrollRight(Geometry(610, 1000, 400))
  {
  }

  class Section {
    var canScrollLeft: bool
    var canScrollRight: bool
    /** Settle timeouts started by presses and not yet fired. */
    var pendingSettles: nat

    /** The flags start as left-off, right-on, whatever the row's size. */
    constructor ()
      ensures !canScrollLeft && canScrollRight && pendingSettles == 0
    {
      canScrollLeft := false;
      canScrollRight := true;
      pendingSettles := 0;
    }

    /** The `onScroll` handler: both flags read off the current geometry. */
    method HandleScroll(g: Geometry)
      modifies this
      ensures canScrollLeft == CanScrollLeft(g) && canScrollRight == CanScrollRight(g)
      ensures pendingSettles == old(pendingSettles)
    {
      canScrollLeft := CanScrollLeft(g);
      canScrollRight := CanScrollRight(g);
    }

    /**
      A click on a button. A disabled button delivers no click, so nothing
      happens; otherwise the browser is asked to scroll 400 px that way and a
      settle timeout is started. The flags stay as they were until it fires.
    */
    method Press(dir: Direction, g: Geometry) returns (request: Option<int>)
      modifies this
      ensures request.Some? <==> !IsDisabled(dir)
      ensures request.Some? ==> request.value == RequestedOffset(g.scrollLeft, dir)
      ensures pendingSettles == old(pendingSettles) + (if request.Some? then 1 else 0)
      ensures canScrollLeft == old(canScrollLeft) && canScrollRight == old(canScrollRight)
    {
      if IsDisabled(dir) {
        return None;
      }
      pendingSettles := pendingSettles + 1;
      request := Some(RequestedOffset(g.scrollLeft, dir));
    }

    /** A settle timeout fires: the flags are recomputed by the same rule as `HandleScroll`. */
    method Settle(g: Geometry)
      requires pendingSettles > 0
      modifies this
      ensures canScrollLeft == CanScrollLeft(g) && canScrollRight == CanScrollRight(g)
      ensures pendingSettles == old(pendingSettles) - 1
    {
      canScrollLeft := CanScrollLeft(g);
      canScrollRight := CanScrollRight(g);
      pendingSettles := pendingSettles - 1;
    }

    /** `disabled={!canScrollLeft}` / `disabled={!canScrollRight}`. */
    predicate IsDisabled(dir: Direction)
      reads this
    {
      if dir == Left then !canScrollLeft else !canScrollRight
    }
  }

  /**
    Once the flags have been read off a geometry, the left button is disabled
    exactly at the start of the row and the right one exactly within the
    tolerance of its end; a row no wider than its viewport disables both.
  */
  lemma DisabledFollowsGeometry(s: Section, g: Geometry)
    requires s.canScrollLeft == CanScrollLeft(g) && s.canScrollRight == CanScrollRight(g)
    ensures s.IsDisabled(Left) <==> g.scrollLeft <= 0
    ensures s.IsDisabled(Right) <==> g.scrollLeft + g.clientWidth + Tolerance >= g.scrollWidth
    ensures g.scrollLeft == 0 && g.scrollWidth <= g.clientWidth ==> s.IsDisabled(Left) && s.IsDisabled(Right)
  {
  }

  /** The two ways of updating the flags agree: a settle and a scroll event on the same geometry leave the same flags. */
  method SettleAgreesWithScroll(a: Section, b: Section, g: Geometry)
    requires a != b && b.pendingSettles > 0
    modifies a, b
    ensures a.canScrollLeft == b.canScrollLeft && a.canScrollRight == b.canScrollRight
  {
    a.HandleScroll(g);
    b.Settle(g);
  }
}
