/**
 * The step-based wheel controller that drives a picture stack: the
 * `currentIndex` and `isTweening` variables of the page's load handler,
 * the scroll position the controller drives, and the target of the tween
 * in flight.  The tween engine is replaced by its two callbacks, `Frame`
 * with the tween's progress `t` in [0, 1] and `Complete`.
 */
module Scroller {
  import opened Layout
  import opened Displacement
  import opened Stepping
  import opened Melting

  class WheelScroller {
    const pics: MeltingPics
    var currentIndex: int
    var isTweening: bool
    /** `targetScrollY` of the tween last started, fixed when it started. */
    var targetScrollY: real
    /** The window's vertical scroll position, as set by the frames. */
    var scrollY: real

    ghost function Count(): nat
      reads this
    {
      pics.images.Length
    }

    /** A scroll position within the scrollable length `HEIGHT * (N - 1)`. */
    ghost predicate InScrollRange(y: real)
      reads this, pics
    {
      0.0 <= y <= pics.height * (Count() - 1) as real
    }

    ghost predicate Valid()
      reads this, pics, pics.images
    {
      pics.Valid() && InRange(Phase(currentIndex, isTweening), pics.images.Length)
    }

    constructor (p: MeltingPics)
      requires p.Valid()
      ensures Valid() && pics == p
      ensures currentIndex == 0 && !isTweening
      ensures targetScrollY == 0.0 && scrollY == 0.0
    {
      pics := p;
      currentIndex, isTweening := 0, false;
      targetScrollY, scrollY := 0.0, 0.0;
    }

    /** Starts the tween toward picture `index`: marks it running and fixes its target. */
    method ScrollToIndex(index: int)
      modifies this`isTweening, this`targetScrollY
      ensures isTweening && targetScrollY == index as real * pics.height
    {
      isTweening := true;
      targetScrollY := index as real * pics.height;
    }

    /**
     * A wheel event.  Dropped while a tween runs or when it points past the
     * first or last picture; otherwise the index moves by one in the
     * wheel's direction at once, and a tween toward it starts.
     */
    method Wheel(deltaY: real)
      requires Valid()
      modifies this`currentIndex, this`isTweening, this`targetScrollY
      ensures Valid()
      ensures Phase(currentIndex, isTweening) == WheelStep(old(Phase(currentIndex, isTweening)), deltaY, Count())
      ensures old(StepsDown(Phase(currentIndex, isTweening), deltaY, Count())) ==>
        currentIndex == old(currentIndex) + 1 && isTweening && targetScrollY == currentIndex as real * pics.height
      ensures old(StepsUp(Phase(currentIndex, isTweening), deltaY)) ==>
        currentIndex == old(currentIndex) - 1 && isTweening && targetScrollY == currentIndex as real * pics.height
      ensures isTweening && !old(isTweening) ==> InScrollRange(targetScrollY)
      ensures !old(StepsDown(Phase(currentIndex, isTweening), deltaY, Count()) || StepsUp(Phase(currentIndex, isTweening), deltaY)) ==>
        currentIndex == old(currentIndex) && isTweening == old(isTweening) && targetScrollY == old(targetScrollY)
    {
      if isTweening {
        return;
      }
      if deltaY > 0.0 {
        if currentIndex < pics.images.Length - 1 {
          currentIndex := currentIndex + 1;
          ScrollToIndex(currentIndex);
          TargetInRange();
        }
      } else if deltaY < 0.0 {
        if currentIndex > 0 {
          currentIndex := currentIndex - 1;
          ScrollToIndex(currentIndex);
          TargetInRange();
        }
      }
    }

    /** The target of a tween toward a picture of the stack is a reachable scroll position. */
    lemma TargetInRange()
      requires pics.Valid() && 0 <= currentIndex < Count()
      requires targetScrollY == currentIndex as real * pics.height
      ensures InScrollRange(targetScrollY)
    {
      MulMono(0.0, currentIndex as real, pics.height);
      MulMono(currentIndex as real, (Count() - 1) as real, pics.height);
    }

    /**
     * One frame of the running tween at progress `t`, where
     * `currentY` is the window's scroll position read at this frame.  The
     * window scrolls to a point between `currentY` and the target (the
     * target itself at t = 1), the stack is moved to exactly minus that
     * point, and the filter's strength follows how far the stack moved.
     * A frame that starts inside the scrollable length, toward a target
     * inside it, stays inside it, so the factor it computes lies in [0, 1].
     */
    method Frame(t: real, currentY: real)
      requires Valid() && isTweening && 0.0 <= t <= 1.0
      modifies this`scrollY, pics`containerY, pics`scaleX, pics`scaleY
      ensures Valid()
      ensures scrollY == Interpolate(currentY, targetScrollY, t)
      ensures t == 1.0 ==> scrollY == targetScrollY
      ensures InScrollRange(currentY) && InScrollRange(targetScrollY) ==> InScrollRange(scrollY)
      ensures pics.containerY == -scrollY
      ensures pics.scaleY == ScaleY(Abs(pics.containerY - old(pics.containerY)), pics.width, pics.height)
      ensures pics.scaleX == ScaleX(Abs(pics.containerY - old(pics.containerY)))
    {
      var newY := currentY + (targetScrollY - currentY) * t;
      scrollY := newY;
      var n := pics.images.Length;
      var factor := newY / (pics.height * n as real - pics.height);
      FinYOfFactor(newY, pics.height, n);
      pics.UpdateDisplacementImmediate(factor);
    }

    /** The tween's completion: only the running flag is cleared. */
    method Complete()
      requires Valid()
      modifies this`isTweening
      ensures Valid() && !isTweening
    {
      isTweening := false;
    }
  }

  /**
   * Three pictures in a 1000 by 800 viewport: a step down scrolls to 800
   * and leaves the stack at -800 on completion, a step back scrolls to 0.
   */
  method ThreePictureScenario()
  {
    var natural := [Size(1600.0, 900.0), Size(600.0, 1200.0), Size(1000.0, 800.0)];
    var pics := new MeltingPics(natural, 1000.0, 800.0);
    assert pics.images[1].box == Box(400.0, 800.0, 300.0, 0.0) by {
      assert pics.images[1] == Arrange(pics.images[1], 1000.0, 800.0, 1);
    }
    var s := new WheelScroller(pics);

    s.Wheel(-1.0);
    assert s.currentIndex == 0 && !s.isTweening;

    s.Wheel(1.0);
    assert s.currentIndex == 1 && s.isTweening && s.targetScrollY == 800.0;
    s.Wheel(1.0);
    s.Wheel(-1.0);
    assert s.currentIndex == 1 && s.targetScrollY == 800.0;

    s.Frame(0.5, 0.0);
    assert s.scrollY == 400.0 && pics.containerY == -400.0;
    assert pics.scaleY == 20000.0 && pics.scaleX == -20.0;
    s.Frame(1.0, s.scrollY);
    assert pics.containerY == -800.0;
    s.Complete();
    assert s.currentIndex == 1 && !s.isTweening && pics.containerY == -800.0;

    s.Wheel(-1.0);
    assert s.currentIndex == 0 && s.targetScrollY == 0.0;
    s.Frame(1.0, 800.0);
    s.Complete();
    assert s.currentIndex == 0 && !s.isTweening && pics.containerY == 0.0;
  }

  /** Two resizes to the same 1000 by 800 viewport give the same layout and leave the controller alone. */
  method RepeatedResizeScenario()
  {
    var natural := [Size(1600.0, 900.0), Size(600.0, 1200.0), Size(1000.0, 800.0)];
    var pics := new MeltingPics(natural, 1000.0, 800.0);
    var s := new WheelScroller(pics);
    pics.ResizeCanvas(1000.0, 800.0);
    ghost var first := pics.images[..];
    pics.ResizeCanvas(1000.0, 800.0);
    forall i | 0 <= i < pics.images.Length ensures pics.images[i] == first[i] {
      ArrangeIdempotent(first[i], 1000.0, 800.0, i);
    }
    assert pics.images[..] == first;
    assert s.Valid() && s.currentIndex == 0;
  }
}
