/**
 * The unit image slider (`UnitSlider`): a cyclic slide index over a fixed set
 * of images, moved by the prev/next buttons, by the pagination dots, and by a
 * swipe gesture. A gesture is a start (touch or mouse down), moves that may
 * latch `isDragging` once the pointer has travelled more than 50px mostly
 * horizontally, and a release that steps exactly once in the direction of
 * travel. Touch and mouse keep separate start points but share `isDragging`.
 */
module Slider {
  import opened Modular

  /** Horizontal travel a swipe must exceed. */
  const SwipeThreshold: real := 50.0

  /**
   * `currentSlide`: an index, or `NaN` once `% 0` has been taken on a slider
   * without images.
   */
  datatype SlideIndex = At(i: nat) | NaN

  /** A start coordinate: `null`/`undefined` or a number. */
  datatype Anchor = NoAnchor | Anchor(x: real)

  /** The JavaScript truth value of a start coordinate: `0` counts as no start. */
  predicate Truthy(a: Anchor) {
    a.Anchor? && a.x != 0.0
  }

  /** `(currentSlide + 1) % totalSlides`. */
  function Next(cur: SlideIndex, n: nat): (r: SlideIndex)
    ensures r.NaN? <==> cur.NaN? || n == 0
    ensures r.At? ==> r.i < n
    ensures cur.At? && cur.i + 1 < n ==> r == At(cur.i + 1)
    ensures cur.At? && cur.i + 1 == n ==> r == At(0)
  {
    if cur.NaN? || n == 0 then NaN else At((cur.i + 1) % n)
  }

  /** `(currentSlide - 1 + totalSlides) % totalSlides`. */
  function Prev(cur: SlideIndex, n: nat): (r: SlideIndex)
    ensures r.NaN? <==> cur.NaN? || n == 0
    ensures r.At? ==> r.i < n
    ensures cur.At? && 0 < cur.i <= n ==> r == At(cur.i - 1)
    ensures cur.At? && cur.i == 0 && n > 0 ==> r == At(n - 1)
  {
    if cur.NaN? || n == 0 then NaN
    else
      var r := (cur.i - 1 + n) % n;
      assert 0 < cur.i <= n ==> r == cur.i - 1 by {
        if 0 < cur.i <= n {
          DivModUnique(cur.i - 1 + n, n, 1, cur.i - 1);
        }
      }
      assert cur.i == 0 ==> r == n - 1 by {
        if cur.i == 0 {
          DivModUnique(n - 1, n, 0, n - 1);
        }
      }
      At(r)
  }

  /** `nextSlide` and `prevSlide` undo each other on every index in range. */
  lemma NextPrevInverse(c: nat, n: nat)
    requires c < n
    ensures Prev(Next(At(c), n), n) == At(c)
    ensures Next(Prev(At(c), n), n) == At(c)
  {
  }

  function Abs(x: real): real { if x < 0.0 then -x else x }

  /** Whether a move with displacement (`diffX`, `diffY`) latches `isDragging`. */
  predicate LatchesDrag(diffX: real, diffY: real) {
    Abs(diffX) > Abs(diffY) && Abs(diffX) > SwipeThreshold
  }

  /** The step a release with horizontal displacement `diffX` (start minus end) takes. */
  function SwipeStep(diffX: real): (step: int)
    ensures -1 <= step <= 1
    ensures step == 1 <==> diffX > SwipeThreshold
    ensures step == -1 <==> diffX < -SwipeThreshold
  {
    if Abs(diffX) > SwipeThreshold then (if diffX > 0.0 then 1 else -1) else 0
  }

  /** The slide after a release with horizontal displacement `diffX`. */
  function AfterSwipe(cur: SlideIndex, n: nat, diffX: real): (r: SlideIndex)
    ensures diffX > SwipeThreshold ==> r == Next(cur, n)
    ensures diffX < -SwipeThreshold ==> r == Prev(cur, n)
    ensures -SwipeThreshold <= diffX <= SwipeThreshold ==> r == cur
  {
    match SwipeStep(diffX)
    case 1 => Next(cur, n)
    case -1 => Prev(cur, n)
    case _ => cur
  }

  /** The `active` flags `updateSlider` gives `count` images or dots. */
  function ActiveFlags(cur: SlideIndex, count: nat): (flags: seq<bool>)
    ensures |flags| == count
    ensures forall k :: 0 <= k < count ==> flags[k] == (cur == At(k))
  {
    seq(count, k => cur.At? && cur.i == k)
  }

  class UnitSlider {
    /** Whether each main image carries `active`. */
    const images: array<bool>
    /** Whether each pagination dot carries `active`. */
    const dots: array<bool>
    const totalSlides: nat
    var currentSlide: SlideIndex
    var touchStartX: Anchor
    var touchStartY: real
    var mouseStartX: Anchor
    var mouseStartY: real
    var isDragging: bool

    ghost predicate Valid()
      reads this
    {
      images != dots && totalSlides == images.Length
    }

    /** Construction and `init`: the first slide is shown. */
    constructor (images: array<bool>, dots: array<bool>)
      requires images != dots
      modifies images, dots
      ensures Valid() && this.images == images && this.dots == dots
      ensures currentSlide == At(0) && touchStartX == NoAnchor && mouseStartX == NoAnchor && !isDragging
      ensures images[..] == ActiveFlags(At(0), images.Length) && dots[..] == ActiveFlags(At(0), dots.Length)
    {
      this.images := images;
      this.dots := dots;
      totalSlides := images.Length;
      currentSlide := At(0);
      touchStartX, touchStartY := NoAnchor, 0.0;
      mouseStartX, mouseStartY := NoAnchor, 0.0;
      isDragging := false;
      new;
      UpdateSlider();
    }

    /** `updateSlider`: exactly the image and the dot at `currentSlide` carry `active`. */
    method UpdateSlider()
      requires Valid()
      modifies images, dots
      ensures images[..] == ActiveFlags(currentSlide, images.Length)
      ensures dots[..] == ActiveFlags(currentSlide, dots.Length)
    {
      var k := 0;
      while k < images.Length
        invariant 0 <= k <= images.Length
        invariant forall j :: 0 <= j < k ==> images[j] == (currentSlide == At(j))
      {
        images[k] := currentSlide == At(k);
        k := k + 1;
      }
      k := 0;
      while k < dots.Length
        invariant 0 <= k <= dots.Length
        invariant forall j :: 0 <= j < k ==> dots[j] == (currentSlide == At(j))
        invariant forall j :: 0 <= j < images.Length ==> images[j] == (currentSlide == At(j))
      {
        dots[k] := currentSlide == At(k);
        k := k + 1;
      }
    }

    method PrevSlide()
      requires Valid()
      modifies this, images, dots
      ensures Valid() && currentSlide == Prev(old(currentSlide), totalSlides)
      ensures images[..] == ActiveFlags(currentSlide, images.Length)
      ensures dots[..] == ActiveFlags(currentSlide, dots.Length)
      ensures touchStartX == old(touchStartX) && mouseStartX == old(mouseStartX) && isDragging == old(isDragging)
      ensures touchStartY == old(touchStartY) && mouseStartY == old(mouseStartY)
    {
      currentSlide := Prev(currentSlide, totalSlides);
      UpdateSlider();
    }

    method NextSlide()
      requires Valid()
      modifies this, images, dots
      ensures Valid() && currentSlide == Next(old(currentSlide), totalSlides)
      ensures images[..] == ActiveFlags(currentSlide, images.Length)
      ensures dots[..] == ActiveFlags(currentSlide, dots.Length)
      ensures touchStartX == old(touchStartX) && mouseStartX == old(mouseStartX) && isDragging == old(isDragging)
      ensures touchStartY == old(touchStartY) && mouseStartY == old(mouseStartY)
    {
      currentSlide := Next(currentSlide, totalSlides);
      UpdateSlider();
    }

    /** A click on the pagination dot at `index`; the index is not checked against `totalSlides`. */
    method GoToSlide(index: nat)
      requires Valid()
      modifies this, images, dots
      ensures Valid() && currentSlide == At(index)
      ensures images[..] == ActiveFlags(currentSlide, images.Length)
      ensures dots[..] == ActiveFlags(currentSlide, dots.Length)
      ensures touchStartX == old(touchStartX) && mouseStartX == old(mouseStartX) && isDragging == old(isDragging)
      ensures touchStartY == old(touchStartY) && mouseStartY == old(mouseStartY)
    {
      currentSlide := At(index);
      UpdateSlider();
    }

    /** The slide a release steps to, updating the flags only when it moves. */
    method Swipe(diffX: real)
      requires Valid()
      modifies this, images, dots
      ensures Valid() && currentSlide == AfterSwipe(old(currentSlide), totalSlides, diffX)
      ensures SwipeStep(diffX) != 0 ==> images[..] == ActiveFlags(currentSlide, images.Length) &&
                                         dots[..] == ActiveFlags(currentSlide, dots.Length)
      ensures SwipeStep(diffX) == 0 ==> images[..] == old(images[..]) && dots[..] == old(dots[..])
      ensures touchStartX == old(touchStartX) && mouseStartX == old(mouseStartX) && isDragging == old(isDragging)
      ensures touchStartY == old(touchStartY) && mouseStartY == old(mouseStartY)
    {
      if Abs(diffX) > SwipeThreshold {
        if diffX > 0.0 {
          NextSlide();
        } else {
          PrevSlide();
        }
      }
    }

    method HandleTouchStart(clientX: real, clientY: real)
      modifies this
      ensures touchStartX == Anchor(clientX) && touchStartY == clientY && !isDragging
      ensures currentSlide == old(currentSlide) && mouseStartX == old(mouseStartX) && mouseStartY == old(mouseStartY)
    {
      touchStartX := Anchor(clientX);
      touchStartY := clientY;
      isDragging := false;
    }

    method HandleTouchMove(clientX: real, clientY: real)
      modifies this
      ensures Truthy(touchStartX) && LatchesDrag(touchStartX.x - clientX, touchStartY - clientY) ==> isDragging
      ensures !(Truthy(touchStartX) && LatchesDrag(touchStartX.x - clientX, touchStartY - clientY)) ==>
                isDragging == old(isDragging)
      ensures touchStartX == old(touchStartX) && touchStartY == old(touchStartY) && currentSlide == old(currentSlide)
      ensures mouseStartX == old(mouseStartX) && mouseStartY == old(mouseStartY)
    {
      if !Truthy(touchStartX) {
        return;
      }
      var diffX := touchStartX.x - clientX;
      var diffY := touchStartY - clientY;
      if Abs(diffX) > Abs(diffY) && Abs(diffX) > SwipeThreshold {
        isDragging := true;
      }
    }

    method HandleTouchEnd(clientX: real)
      requires Valid()
      modifies this, images, dots
      ensures Valid()
      ensures !Truthy(old(touchStartX)) || !old(isDragging) ==>
                currentSlide == old(currentSlide) && touchStartX == old(touchStartX) && isDragging == old(isDragging) &&
                images[..] == old(images[..]) && dots[..] == old(dots[..])
      ensures Truthy(old(touchStartX)) && old(isDragging) ==>
                currentSlide == AfterSwipe(old(currentSlide), totalSlides, old(touchStartX).x - clientX) &&
                touchStartX == NoAnchor && !isDragging
      ensures Truthy(old(touchStartX)) && old(isDragging) && SwipeStep(old(touchStartX).x - clientX) != 0 ==>
                images[..] == ActiveFlags(currentSlide, images.Length) && dots[..] == ActiveFlags(currentSlide, dots.Length)
      ensures Truthy(old(touchStartX)) && old(isDragging) && SwipeStep(old(touchStartX).x - clientX) == 0 ==>
                images[..] == old(images[..]) && dots[..] == old(dots[..])
      ensures touchStartY == old(touchStartY) && mouseStartX == old(mouseStartX) && mouseStartY == old(mouseStartY)
    {
      if !Truthy(touchStartX) || !isDragging {
        return;
      }
      var diffX := touchStartX.x - clientX;
      Swipe(diffX);
      touchStartX := NoAnchor;
      isDragging := false;
    }

    method HandleMouseDown(clientX: real, clientY: real)
      modifies this
      ensures mouseStartX == Anchor(clientX) && mouseStartY == clientY && !isDragging
      ensures currentSlide == old(currentSlide) && touchStartX == old(touchStartX) && touchStartY == old(touchStartY)
    {
      mouseStartX := Anchor(clientX);
      mouseStartY := clientY;
      isDragging := false;
    }

    method HandleMouseMove(clientX: real, clientY: real)
      modifies this
      ensures Truthy(mouseStartX) && LatchesDrag(mouseStartX.x - clientX, mouseStartY - clientY) ==> isDragging
      ensures !(Truthy(mouseStartX) && LatchesDrag(mouseStartX.x - clientX, mouseStartY - clientY)) ==>
                isDragging == old(isDragging)
      ensures mouseStartX == old(mouseStartX) && mouseStartY == old(mouseStartY) && currentSlide == old(currentSlide)
      ensures touchStartX == old(touchStartX) && touchStartY == old(touchStartY)
    {
      if !Truthy(mouseStartX) {
        return;
      }
      var diffX := mouseStartX.x - clientX;
      var diffY := mouseStartY - clientY;
      if Abs(diffX) > Abs(diffY) && Abs(diffX) > SwipeThreshold {
        isDragging := true;
      }
    }

    /** `mouseup`, and `mouseleave`, which runs the same handler. */
    method HandleMouseUp(clientX: real)
      requires Valid()
      modifies this, images, dots
      ensures Valid()
      ensures !Truthy(old(mouseStartX)) || !old(isDragging) ==>
                currentSlide == old(currentSlide) && mouseStartX == old(mouseStartX) && isDragging == old(isDragging) &&
                images[..] == old(images[..]) && dots[..] == old(dots[..])
      ensures Truthy(old(mouseStartX)) && old(isDragging) ==>
                currentSlide == AfterSwipe(old(currentSlide), totalSlides, old(mouseStartX).x - clientX) &&
                mouseStartX == NoAnchor && !isDragging
      ensures Truthy(old(mouseStartX)) && old(isDragging) && SwipeStep(old(mouseStartX).x - clientX) != 0 ==>
                images[..] == ActiveFlags(currentSlide, images.Length) && dots[..] == ActiveFlags(currentSlide, dots.Length)
      ensures Truthy(old(mouseStartX)) && old(isDragging) && SwipeStep(old(mouseStartX).x - clientX) == 0 ==>
                images[..] == old(images[..]) && dots[..] == old(dots[..])
      ensures mouseStartY == old(mouseStartY) && touchStartX == old(touchStartX) && touchStartY == old(touchStartY)
    {
      if !Truthy(mouseStartX) || !isDragging {
        return;
      }
      var diffX := mouseStartX.x - clientX;
      Swipe(diffX);
      mouseStartX := NoAnchor;
      isDragging := false;
    }
  }
}
