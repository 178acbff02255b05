/**
 * The benefit stepper (`initBenefitSection`).
 *
 * The section is pinned while the page offset lies in a range that starts one
 * viewport above its wrapper and is three and a half viewports long. Inside it
 * the offset relative to the start picks the active item with deliberately
 * uneven breakpoints: up to 50% of the range the first item, up to 75% the
 * middle one, beyond that the last. The item and its paired image carry
 * `active`. While pinned, every upward move, and every downward move past the
 * start, hides the navigation bar.
 */
module Benefit {
  import Navbar
  import opened Dom

  /** Length of the pinned range, in viewport heights. */
  const RangeFactor: real := 3.5
  /** Breakpoints, as fractions of the pinned range. */
  const FirstBreak: real := 0.5
  const SecondBreak: real := 0.75

  /** The quantised progress `adjustedProgress`: 0, 0.5 or 1. */
  function AdjustedProgress(relativeScroll: real, scrollRange: real): (a: real)
    ensures a == 0.0 || a == 0.5 || a == 1.0
    ensures a == 0.0 <==> relativeScroll <= 0.0 || relativeScroll <= scrollRange * FirstBreak
    ensures a == 1.0 <==> relativeScroll > 0.0 && relativeScroll > scrollRange * SecondBreak
  {
    if relativeScroll <= 0.0 then 0.0
    else if relativeScroll <= scrollRange * FirstBreak then 0.0
    else if relativeScroll <= scrollRange * SecondBreak then 0.5
    else 1.0
  }

  lemma HalfFloor(m: nat)
    ensures (0.5 * m as real).Floor == m / 2
  {
    var q := m / 2;
    assert m == 2 * q + m % 2;
    assert 0.5 * m as real == q as real + 0.5 * (m % 2) as real;
  }

  /**
   * The index of the active item among `n`, for an offset `relativeScroll` past
   * the start of a pinned range `scrollRange` long.
   */
  function ActiveIndex(relativeScroll: real, scrollRange: real, n: nat): (k: nat)
    requires n > 0
    ensures k < n
    ensures relativeScroll <= 0.0 || relativeScroll <= FirstBreak * scrollRange ==> k == 0
    ensures 0.0 < relativeScroll && FirstBreak * scrollRange < relativeScroll <= SecondBreak * scrollRange ==>
              k == (n - 1) / 2
    ensures 0.0 < relativeScroll && SecondBreak * scrollRange < relativeScroll ==> k == n - 1
  {
    var a := AdjustedProgress(relativeScroll, scrollRange);
    HalfFloor(n - 1);
    var newIndex := (a * (n - 1) as real).Floor;
    if newIndex < n - 1 then newIndex else n - 1
  }

  /** Scrolling further into the section never steps back to an earlier item. */
  lemma ActiveIndexMonotone(r1: real, r2: real, scrollRange: real, n: nat)
    requires n > 0 && r1 <= r2
    ensures ActiveIndex(r1, scrollRange, n) <= ActiveIndex(r2, scrollRange, n)
  {
  }

  /** At the start of the range the first item is active, at its end the last. */
  lemma ActiveIndexEnds(scrollRange: real, n: nat)
    requires n > 0 && scrollRange > 0.0
    ensures ActiveIndex(0.0, scrollRange, n) == 0
    ensures ActiveIndex(scrollRange, scrollRange, n) == n - 1
  {
  }

  /** Whether the section is pinned at page offset `scrollTop`. */
  predicate Pinned(stickyStart: real, scrollRange: real, scrollTop: real) {
    stickyStart <= scrollTop <= stickyStart + scrollRange
  }

  /** Whether a frame at `scrollTop`, after one at `lastScrollTop`, hides the navigation bar. */
  function HidesNavbar(stickyStart: real, scrollRange: real, lastScrollTop: real, scrollTop: real): (h: bool)
    ensures scrollTop < lastScrollTop ==> (h <==> Pinned(stickyStart, scrollRange, scrollTop))
    ensures scrollTop > lastScrollTop ==> (h <==> Pinned(stickyStart, scrollRange, scrollTop) && scrollTop > stickyStart)
    ensures scrollTop == lastScrollTop ==> !h
  {
    Pinned(stickyStart, scrollRange, scrollTop) &&
    ((scrollTop > lastScrollTop && scrollTop > stickyStart) || scrollTop < lastScrollTop)
  }

  /** The `active` flags after moving `active` from item `from` to item `to` (a no-op when they agree). */
  function Reactivate(flags: seq<bool>, from: nat, to: nat): (r: seq<bool>)
    requires from < |flags| && to < |flags|
    ensures |r| == |flags|
    ensures from == to ==> r == flags
    ensures from != to ==> r[to] && !r[from]
    ensures forall j :: 0 <= j < |flags| && j != from && j != to ==> r[j] == flags[j]
  {
    if from == to then flags else flags[from := false][to := true]
  }

  lemma ReactivateKeepsOnlyActive(flags: seq<bool>, from: nat, to: nat)
    requires from < |flags| && to < |flags| && OnlyActive(flags, from)
    ensures OnlyActive(Reactivate(flags, from, to), to)
  {
  }

  class BenefitSection {
    /** Whether each `.benefit-item` carries `active`. */
    const items: array<bool>
    /** Whether each `.benefit-image` carries `active`. */
    const images: array<bool>
    /** The `.navbar` element, when the page has one. */
    const navbar: Navbar.NavbarElement?
    const stickyStart: real
    const scrollRange: real
    var currentIndex: nat
    var lastScrollTop: real
    /**
     * Whether a frame callback has failed on a missing `.benefit-image` (a page
     * with fewer images than items). The failure leaves `isScrolling` set, so
     * no later scroll event requests another frame of this handler.
     */
    var stalled: bool

    ghost predicate Valid()
      reads this
    {
      items != images && 0 < items.Length && 0 < images.Length &&
      currentIndex < items.Length && (stalled <==> images.Length <= currentIndex)
    }

    /** Installation: the first item and image are activated. */
    constructor (items: array<bool>, images: array<bool>, navbar: Navbar.NavbarElement?, wrapperTop: real, innerHeight: real)
      requires items != images && items.Length > 0 && images.Length > 0
      modifies items, images
      ensures Valid() && !stalled
      ensures this.items == items && this.images == images && this.navbar == navbar
      ensures stickyStart == wrapperTop - innerHeight && scrollRange == innerHeight * RangeFactor
      ensures currentIndex == 0 && lastScrollTop == 0.0
      ensures items[..] == old(items[..])[0 := true] && images[..] == old(images[..])[0 := true]
    {
      this.items := items;
      this.images := images;
      this.navbar := navbar;
      stickyStart := wrapperTop - innerHeight;
      scrollRange := innerHeight * RangeFactor;
      currentIndex := 0;
      lastScrollTop := 0.0;
      stalled := false;
      new;
      items[0] := true;
      images[0] := true;
    }

    /** The animation-frame callback of the scroll listener. */
    method HandleFrame(scrollTop: real)
      requires Valid()
      modifies this, items, images, navbar
      ensures Valid()
      ensures old(stalled) ==> unchanged(this, items, images)
      ensures old(stalled) && navbar != null ==> unchanged(navbar)
      ensures !old(stalled) ==> lastScrollTop == scrollTop
      ensures !old(stalled) ==>
                currentIndex == if Pinned(stickyStart, scrollRange, scrollTop)
                                then ActiveIndex(scrollTop - stickyStart, scrollRange, items.Length)
                                else old(currentIndex)
      ensures !old(stalled) ==> items[..] == Reactivate(old(items[..]), old(currentIndex), currentIndex)
      ensures !stalled ==> images[..] == Reactivate(old(images[..]), old(currentIndex), currentIndex)
      ensures !old(stalled) && stalled ==> images[..] == old(images[..])[old(currentIndex) := false]
      ensures !old(stalled) && OnlyActive(old(items[..]), old(currentIndex)) ==> OnlyActive(items[..], currentIndex)
      ensures !stalled && OnlyActive(old(images[..]), old(currentIndex)) ==> OnlyActive(images[..], currentIndex)
      ensures navbar != null ==> navbar.scrolled == old(navbar.scrolled)
      ensures !old(stalled) && navbar != null && HidesNavbar(stickyStart, scrollRange, old(lastScrollTop), scrollTop) ==>
                navbar.scrollDown && !navbar.scrollUp
      ensures navbar != null && (old(stalled) || !HidesNavbar(stickyStart, scrollRange, old(lastScrollTop), scrollTop)) ==>
                navbar.Classes() == old(navbar.Classes())
    {
      if stalled {
        return;
      }
      var isSticky := stickyStart <= scrollTop <= stickyStart + scrollRange;
      UpdateNavbar(scrollTop);
      lastScrollTop := scrollTop;
      ghost var itemsBefore, imagesBefore := items[..], images[..];
      if isSticky {
        var newIndex := ActiveIndex(scrollTop - stickyStart, scrollRange, items.Length);
        if newIndex != currentIndex {
          MoveTo(newIndex);
        }
      }
      if OnlyActive(itemsBefore, old(currentIndex)) {
        ReactivateKeepsOnlyActive(itemsBefore, old(currentIndex), currentIndex);
      }
      if !stalled && OnlyActive(imagesBefore, old(currentIndex)) {
        ReactivateKeepsOnlyActive(imagesBefore, old(currentIndex), currentIndex);
      }
    }

    /** The frame's write to the navigation bar, made before `lastScrollTop` moves on. */
    method UpdateNavbar(scrollTop: real)
      modifies navbar
      ensures navbar != null ==> navbar.scrolled == old(navbar.scrolled)
      ensures navbar != null && HidesNavbar(stickyStart, scrollRange, lastScrollTop, scrollTop) ==>
                navbar.scrollDown && !navbar.scrollUp
      ensures navbar != null && !HidesNavbar(stickyStart, scrollRange, lastScrollTop, scrollTop) ==>
                navbar.Classes() == old(navbar.Classes())
    {
      var isSticky := stickyStart <= scrollTop <= stickyStart + scrollRange;
      if navbar != null {
        if isSticky {
          if scrollTop > lastScrollTop && scrollTop > stickyStart {
            navbar.scrollDown := true;
            navbar.scrollUp := false;
          } else if scrollTop < lastScrollTop {
            navbar.scrollDown := true;
            navbar.scrollUp := false;
          }
        }
      }
    }

    /**
     * Moves `active` from the current item and image to item `newIndex`; when
     * image `newIndex` does not exist, the frame throws there and the handler stalls.
     */
    method MoveTo(newIndex: nat)
      requires Valid() && !stalled && newIndex < items.Length && newIndex != currentIndex
      modifies this, items, images
      ensures Valid() && currentIndex == newIndex && lastScrollTop == old(lastScrollTop)
      ensures items[..] == old(items[..])[old(currentIndex) := false][newIndex := true]
      ensures stalled <==> images.Length <= newIndex
      ensures !stalled ==> images[..] == old(images[..])[old(currentIndex) := false][newIndex := true]
      ensures stalled ==> images[..] == old(images[..])[old(currentIndex) := false]
    {
      items[currentIndex] := false;
      images[currentIndex] := false;
      currentIndex := newIndex;
      items[currentIndex] := true;
      if currentIndex < images.Length {
        images[currentIndex] := true;
      } else {
        // `images[currentIndex]` is undefined: reading its class list throws.
        stalled := true;
      }
    }
  }

  /**
   * `initBenefitSection`: with no `.benefit-item` or no `.benefit-image` nothing
   * is installed; otherwise the stepper starts on the first item.
   */
  method InitBenefitSection(items: array<bool>, images: array<bool>, navbar: Navbar.NavbarElement?, wrapperTop: real, innerHeight: real)
    returns (b: BenefitSection?)
    requires items != images
    modifies items, images
    ensures b == null <==> items.Length == 0 || images.Length == 0
    ensures b == null ==> items[..] == old(items[..]) && images[..] == old(images[..])
    ensures b != null ==> fresh(b) && b.Valid() && !b.stalled && b.items == items && b.images == images && b.navbar == navbar
    ensures b != null ==> b.currentIndex == 0 && items[..] == old(items[..])[0 := true] && images[..] == old(images[..])[0 := true]
  {
    if items.Length == 0 || images.Length == 0 {
      return null;
    }
    b := new BenefitSection(items, images, navbar, wrapperTop, innerHeight);
  }
}
