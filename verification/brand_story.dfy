/**
 * The sticky horizontal scroller of the first brand-story section
 * (`initBrandStorySection01`).
 *
 * While the page offset lies in the pinned range, which starts at the bottom of
 * the hero section and is one viewport high, the section carries `sticky` and
 * the image strip is translated left by `scrollProgress` pixels. The first 20%
 * of the range holds the strip still; over the remaining 80% the translation
 * grows linearly to `maxScroll`, the strip's overflow width. While pinned, mouse
 * and touch drags and the wheel move the strip directly, always clamped to
 * `[0, maxScroll]`; the wheel is let through to the page when it pushes past
 * either end. Layout readings (hero bottom, viewport height, widths) are
 * parameters; the 100 ms release timer started at the end of the strip is the
 * event `UnstickTimerFired`.
 */
module BrandStory {

  /** Fraction of the pinned range during which the strip does not move. */
  const HoldBackFraction: real := 0.2
  /** Damping applied to wheel deltas. */
  const WheelSpeed: real := 0.36

  function Min(a: real, b: real): real { if a <= b then a else b }
  function Max(a: real, b: real): real { if a >= b then a else b }

  /** `Math.max(0, Math.min(maxScroll, x))`. */
  function Clamp(x: real, maxScroll: real): (r: real)
    ensures maxScroll >= 0.0 ==> 0.0 <= r <= maxScroll
    ensures 0.0 <= x <= maxScroll ==> r == x
    ensures x <= 0.0 || maxScroll <= 0.0 ==> r == 0.0
    ensures 0.0 <= maxScroll <= x ==> r == maxScroll
  {
    Max(0.0, Min(maxScroll, x))
  }

  /** Whether the section is pinned, and the strip's translation. */
  datatype Pinning = Pinning(isSticky: bool, scrollProgress: real)

  lemma ScaleWithin(ratio: real, m: real)
    requires 0.0 <= ratio <= 1.0 && m >= 0.0
    ensures 0.0 <= ratio * m <= m
  {
    assert m - ratio * m == (1.0 - ratio) * m;
  }

  /**
   * The mapping computed by each scroll frame, for page offset `scrollTop`, a
   * pinned range starting at `stickyStart` and `windowHeight` high, and a strip
   * overflowing by `maxScroll`.
   */
  function StickyMapping(scrollTop: real, stickyStart: real, windowHeight: real, maxScroll: real): (p: Pinning)
    ensures p.isSticky <==> stickyStart <= scrollTop <= stickyStart + windowHeight
    ensures !p.isSticky ==> p.scrollProgress == 0.0
    ensures scrollTop <= stickyStart + HoldBackFraction * windowHeight ==> p.scrollProgress == 0.0
    ensures p.isSticky && scrollTop > stickyStart + HoldBackFraction * windowHeight ==>
              p.scrollProgress == (scrollTop - stickyStart - HoldBackFraction * windowHeight)
                                  / ((1.0 - HoldBackFraction) * windowHeight) * maxScroll
    ensures maxScroll >= 0.0 ==> 0.0 <= p.scrollProgress <= maxScroll
  {
    var scrollRange := windowHeight;
    var stickyEnd := stickyStart + scrollRange;
    var holdBack := scrollRange * HoldBackFraction;
    var horizontalStart := stickyStart + holdBack;
    if stickyStart <= scrollTop <= stickyEnd then
      var distance := scrollTop - horizontalStart;
      if distance > 0.0 then
        var remaining := scrollRange - holdBack;
        var ratio := distance / remaining;
        assert ratio <= 1.0 by {
          assert distance <= remaining;
          assert ratio * remaining == distance;
        }
        assert maxScroll >= 0.0 ==> 0.0 <= ratio * maxScroll <= maxScroll by {
          if maxScroll >= 0.0 {
            assert distance > 0.0 && remaining > 0.0;
            ScaleWithin(ratio, maxScroll);
          }
        }
        Pinning(true, Min(1.0, ratio) * maxScroll)
      else
        Pinning(true, 0.0)
    else
      Pinning(false, 0.0)
  }

  lemma DivMonotone(a: real, b: real, c: real)
    requires a <= b && c > 0.0
    ensures a / c <= b / c
  {
    assert b / c - a / c == (b - a) / c;
  }

  lemma MulMonotone(a: real, b: real, m: real)
    requires a <= b && m >= 0.0
    ensures a * m <= b * m
  {
    assert b * m - a * m == (b - a) * m;
  }

  /** Within the pinned range, scrolling further down never moves the strip back. */
  lemma ProgressMonotone(top1: real, top2: real, stickyStart: real, windowHeight: real, maxScroll: real)
    requires stickyStart <= top1 <= top2 <= stickyStart + windowHeight
    requires maxScroll >= 0.0
    ensures StickyMapping(top1, stickyStart, windowHeight, maxScroll).scrollProgress
            <= StickyMapping(top2, stickyStart, windowHeight, maxScroll).scrollProgress
  {
    var p1 := StickyMapping(top1, stickyStart, windowHeight, maxScroll);
    var p2 := StickyMapping(top2, stickyStart, windowHeight, maxScroll);
    if top1 > stickyStart + HoldBackFraction * windowHeight {
      var remaining := (1.0 - HoldBackFraction) * windowHeight;
      var d1 := top1 - stickyStart - HoldBackFraction * windowHeight;
      var d2 := top2 - stickyStart - HoldBackFraction * windowHeight;
      assert p1.scrollProgress == d1 / remaining * maxScroll;
      assert p2.scrollProgress == d2 / remaining * maxScroll;
      DivMonotone(d1, d2, remaining);
      MulMonotone(d1 / remaining, d2 / remaining, maxScroll);
    } else {
      assert p1.scrollProgress == 0.0;
      assert 0.0 <= p2.scrollProgress;
    }
  }

  /** At the bottom of a non-empty pinned range the strip is fully translated. */
  lemma EndOfRangeShowsEnd(stickyStart: real, windowHeight: real, maxScroll: real)
    requires windowHeight > 0.0
    ensures StickyMapping(stickyStart + windowHeight, stickyStart, windowHeight, maxScroll).scrollProgress == maxScroll
  {
    var remaining := (1.0 - HoldBackFraction) * windowHeight;
    assert (stickyStart + windowHeight - stickyStart - HoldBackFraction * windowHeight) / remaining == 1.0;
  }

  /** The translation a drag sets: the start progress minus the pointer's displacement, clamped. */
  function DragProgress(startProgress: real, startX: real, clientX: real, maxScroll: real): (r: real)
    ensures maxScroll >= 0.0 ==> 0.0 <= r <= maxScroll
    ensures 0.0 <= startProgress - (clientX - startX) <= maxScroll ==> r == startProgress - (clientX - startX)
    ensures startProgress - (clientX - startX) <= 0.0 || maxScroll <= 0.0 ==> r == 0.0
    ensures 0.0 <= maxScroll <= startProgress - (clientX - startX) ==> r == maxScroll
  {
    Clamp(startProgress - (clientX - startX), maxScroll)
  }

  /** Dragging further left never moves the strip back. */
  lemma DragMonotone(startProgress: real, startX: real, x1: real, x2: real, maxScroll: real)
    requires x2 <= x1
    ensures DragProgress(startProgress, startX, x1, maxScroll) <= DragProgress(startProgress, startX, x2, maxScroll)
  {
  }

  /** `e.deltaX || e.deltaY`: the horizontal delta, or the vertical one when that is zero. */
  function WheelDelta(deltaX: real, deltaY: real): (d: real)
    ensures deltaX != 0.0 ==> d == deltaX
    ensures deltaX == 0.0 ==> d == deltaY
    ensures d == 0.0 <==> deltaX == 0.0 && deltaY == 0.0
  {
    if deltaX != 0.0 then deltaX else deltaY
  }

  /** A wheel event while pinned is either let through to the page or consumed with a new translation. */
  datatype WheelOutcome = PassedThrough | Consumed(progress: real)

  function WheelStep(progress: real, maxScroll: real, delta: real): (w: WheelOutcome)
    ensures w.PassedThrough? <==> (progress <= 0.0 && delta < 0.0) || (progress >= maxScroll && delta > 0.0)
    ensures w.Consumed? ==> w.progress == Clamp(progress + WheelSpeed * delta, maxScroll)
    ensures w.Consumed? && maxScroll >= 0.0 ==> 0.0 <= w.progress <= maxScroll
    ensures w.Consumed? && 0.0 <= progress <= maxScroll && delta >= 0.0 ==> w.progress >= progress
    ensures w.Consumed? && 0.0 <= progress <= maxScroll && delta <= 0.0 ==> w.progress <= progress
  {
    var isAtStart := progress <= 0.0;
    var isAtEnd := progress >= maxScroll;
    if (isAtStart && delta < 0.0) || (isAtEnd && delta > 0.0) then
      PassedThrough
    else
      Consumed(Clamp(progress + WheelSpeed * delta, maxScroll))
  }

  class BrandStoryScroller {
    /** Whether the container carries `sticky`. */
    var sticky: bool
    /** The strip's current translation, in pixels. */
    var scrollProgress: real
    /** The strip's width minus the scroll container's width. */
    var maxScroll: real
    var isDragging: bool
    var startX: real
    var startScrollProgress: real
    /** Number of 100 ms release timers that have not fired yet. */
    var pendingUnstick: nat

    predicate ProgressInRange()
      reads this
    {
      0.0 <= scrollProgress <= maxScroll
    }

    constructor (listWidth: real, containerWidth: real)
      ensures !sticky && scrollProgress == 0.0 && maxScroll == listWidth - containerWidth
      ensures !isDragging && startX == 0.0 && startScrollProgress == 0.0 && pendingUnstick == 0
    {
      sticky, scrollProgress, isDragging := false, 0.0, false;
      startX, startScrollProgress, pendingUnstick := 0.0, 0.0, 0;
      maxScroll := listWidth - containerWidth;
    }

    /** `calculateMaxScroll`, run on every resize; the translation is not re-clamped. */
    method CalculateMaxScroll(listWidth: real, containerWidth: real)
      modifies this
      ensures maxScroll == listWidth - containerWidth
      ensures sticky == old(sticky) && scrollProgress == old(scrollProgress) && isDragging == old(isDragging)
      ensures startX == old(startX) && startScrollProgress == old(startScrollProgress)
      ensures pendingUnstick == old(pendingUnstick)
    {
      maxScroll := listWidth - containerWidth;
    }

    /** The animation-frame callback of the scroll listener. */
    method HandleFrame(scrollTop: real, heroBottom: real, windowHeight: real)
      modifies this
      ensures sticky == StickyMapping(scrollTop, heroBottom, windowHeight, maxScroll).isSticky
      ensures scrollProgress == StickyMapping(scrollTop, heroBottom, windowHeight, maxScroll).scrollProgress
      ensures isDragging == (old(isDragging) && (sticky || !old(sticky)))
      ensures maxScroll >= 0.0 ==> ProgressInRange()
      ensures maxScroll == old(maxScroll) && startX == old(startX)
      ensures startScrollProgress == old(startScrollProgress) && pendingUnstick == old(pendingUnstick)
    {
      var p := StickyMapping(scrollTop, heroBottom, windowHeight, maxScroll);
      if p.isSticky {
        sticky := true;
      } else {
        if sticky {
          sticky := false;
          isDragging := false;
        }
      }
      scrollProgress := p.scrollProgress;
    }

    /**
     * `mousedown` on the scroll container (js/main.js:248-256); `touchstart`
     * (282-289) does the same with the first touch point.
     */
    method PointerDown(clientX: real)
      modifies this
      ensures old(sticky) ==> isDragging && startX == clientX && startScrollProgress == old(scrollProgress)
      ensures !old(sticky) ==> isDragging == old(isDragging) && startX == old(startX) &&
                               startScrollProgress == old(startScrollProgress)
      ensures sticky == old(sticky) && scrollProgress == old(scrollProgress) && maxScroll == old(maxScroll)
      ensures pendingUnstick == old(pendingUnstick)
    {
      if !sticky {
        return;
      }
      isDragging := true;
      startX := clientX;
      startScrollProgress := scrollProgress;
    }

    /**
     * `mousemove` on the document (js/main.js:258-274); `touchmove` (291-307)
     * does the same with the first touch point.
     */
    method PointerMove(clientX: real)
      modifies this
      ensures old(isDragging) && sticky ==>
                isDragging && scrollProgress == DragProgress(startScrollProgress, startX, clientX, maxScroll)
      ensures old(isDragging) && !sticky ==> !isDragging && scrollProgress == old(scrollProgress)
      ensures !old(isDragging) ==> !isDragging && scrollProgress == old(scrollProgress)
      ensures old(isDragging) && sticky && maxScroll >= 0.0 ==> ProgressInRange()
      ensures sticky == old(sticky) && maxScroll == old(maxScroll) && startX == old(startX)
      ensures startScrollProgress == old(startScrollProgress) && pendingUnstick == old(pendingUnstick)
    {
      if !isDragging {
        return;
      }
      if !sticky {
        isDragging := false;
        return;
      }
      var deltaX := clientX - startX;
      var newScrollProgress := Max(0.0, Min(maxScroll, startScrollProgress - deltaX));
      scrollProgress := newScrollProgress;
    }

    /** `mouseup` on the document (js/main.js:276-279); `touchend` (309-311) does the same. */
    method PointerUp()
      modifies this
      ensures !isDragging
      ensures sticky == old(sticky) && scrollProgress == old(scrollProgress) && maxScroll == old(maxScroll)
      ensures startX == old(startX) && startScrollProgress == old(startScrollProgress)
      ensures pendingUnstick == old(pendingUnstick)
    {
      isDragging := false;
    }

    /** `wheel` on the scroll container; `consumed` is whether it calls `preventDefault`. */
    method Wheel(deltaX: real, deltaY: real) returns (consumed: bool)
      modifies this
      ensures !old(sticky) ==> !consumed && scrollProgress == old(scrollProgress) && pendingUnstick == old(pendingUnstick)
      ensures old(sticky) ==>
                match WheelStep(old(scrollProgress), maxScroll, WheelDelta(deltaX, deltaY))
                case PassedThrough =>
                  !consumed && scrollProgress == old(scrollProgress) && pendingUnstick == old(pendingUnstick)
                case Consumed(p) =>
                  consumed && scrollProgress == p &&
                  pendingUnstick == old(pendingUnstick) + (if p >= maxScroll then 1 else 0)
      ensures old(ProgressInRange()) ==> ProgressInRange()
      ensures sticky == old(sticky) && isDragging == old(isDragging) && maxScroll == old(maxScroll)
      ensures startX == old(startX) && startScrollProgress == old(startScrollProgress)
    {
      consumed := false;
      if sticky {
        var delta := WheelDelta(deltaX, deltaY);
        var isAtStart := scrollProgress <= 0.0;
        var isAtEnd := scrollProgress >= maxScroll;
        var isScrollingRight := delta > 0.0;
        var isScrollingLeft := delta < 0.0;
        if (isAtStart && isScrollingLeft) || (isAtEnd && isScrollingRight) {
          return;
        }
        consumed := true;
        scrollProgress := Max(0.0, Min(maxScroll, scrollProgress + delta * WheelSpeed));
        if scrollProgress >= maxScroll {
          pendingUnstick := pendingUnstick + 1;
        }
      }
    }

    /** One of the 100 ms timers started at the end of the strip fires and removes `sticky`. */
    method UnstickTimerFired()
      modifies this
      ensures old(pendingUnstick) > 0 ==> !sticky && pendingUnstick == old(pendingUnstick) - 1
      ensures old(pendingUnstick) == 0 ==> sticky == old(sticky) && pendingUnstick == 0
      ensures scrollProgress == old(scrollProgress) && isDragging == old(isDragging) && maxScroll == old(maxScroll)
      ensures startX == old(startX) && startScrollProgress == old(startScrollProgress)
    {
      if pendingUnstick > 0 {
        pendingUnstick := pendingUnstick - 1;
        sticky := false;
      }
    }
  }
}
