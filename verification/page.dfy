/**
 * The three scroll handlers that `init` installs, run in one animation frame in
 * the order their listeners were registered: the navigation-bar detector, the
 * brand-story scroller, then the benefit stepper. The detector and the stepper
 * write the class list of the same `.navbar` element, so within a frame the
 * stepper has the last word: while it is pinned it keeps the bar hidden,
 * whatever the detector decided.
 */
module Page {
  import Navbar
  import BrandStory
  import Benefit

  /** The navigation bar's classes at the end of a frame at `scrollTop`. */
  function FrameBar(d: Navbar.Detector, stickyStart: real, scrollRange: real, benefitLast: real, scrollTop: real): (bar: Navbar.BarClasses)
    ensures bar.scrolled <==> scrollTop > Navbar.ScrollThreshold
    ensures Benefit.HidesNavbar(stickyStart, scrollRange, benefitLast, scrollTop) ==> bar.scrollDown && !bar.scrollUp
    ensures !Benefit.HidesNavbar(stickyStart, scrollRange, benefitLast, scrollTop) ==> bar == Navbar.OnFrame(d, scrollTop).bar
  {
    var bar := Navbar.OnFrame(d, scrollTop).bar;
    if Benefit.HidesNavbar(stickyStart, scrollRange, benefitLast, scrollTop) then bar.(scrollDown := true, scrollUp := false) else bar
  }

  /**
   * Even the second counted upward move, which on its own shows the bar, leaves
   * it hidden while the benefit section is pinned.
   */
  lemma PinnedBenefitOverridesReveal(d: Navbar.Detector, stickyStart: real, scrollRange: real, benefitLast: real, scrollTop: real)
    requires Navbar.IsUpMove(d.lastScrollTop, scrollTop) && d.scrollUpCount + 1 >= Navbar.RevealCount
    requires Benefit.Pinned(stickyStart, scrollRange, scrollTop) && scrollTop < benefitLast
    ensures Navbar.OnFrame(d, scrollTop).bar.scrollUp
    ensures !FrameBar(d, stickyStart, scrollRange, benefitLast, scrollTop).scrollUp
  {
  }

  /** A frame never leaves the bar both hidden and shown. */
  lemma FrameBarExclusive(d: Navbar.Detector, stickyStart: real, scrollRange: real, benefitLast: real, scrollTop: real)
    requires Navbar.Inv(d)
    ensures var bar := FrameBar(d, stickyStart, scrollRange, benefitLast, scrollTop);
            !(bar.scrollDown && bar.scrollUp)
  {
    Navbar.StepKeepsInv(d, Navbar.Frame(scrollTop));
  }

  class ScrollHandlers {
    const navbarScroll: Navbar.NavbarScroll
    const brandStory: BrandStory.BrandStoryScroller
    const benefit: Benefit.BenefitSection

    ghost predicate Valid()
      reads this, benefit
    {
      benefit.Valid() && benefit.navbar == navbarScroll.navbar
    }

    constructor (navbarScroll: Navbar.NavbarScroll, brandStory: BrandStory.BrandStoryScroller, benefit: Benefit.BenefitSection)
      requires benefit.Valid() && benefit.navbar == navbarScroll.navbar
      ensures Valid()
      ensures this.navbarScroll == navbarScroll && this.brandStory == brandStory && this.benefit == benefit
    {
      this.navbarScroll := navbarScroll;
      this.brandStory := brandStory;
      this.benefit := benefit;
    }

    /** One animation frame at page offset `scrollTop`. */
    method AnimationFrame(scrollTop: real, heroBottom: real, windowHeight: real)
      requires Valid()
      modifies navbarScroll, navbarScroll.navbar, brandStory, benefit, benefit.items, benefit.images
      ensures Valid()
      ensures !old(benefit.stalled) ==>
                navbarScroll.navbar.Classes() ==
                FrameBar(old(navbarScroll.View()), benefit.stickyStart, benefit.scrollRange, old(benefit.lastScrollTop), scrollTop)
      ensures old(benefit.stalled) ==> navbarScroll.navbar.Classes() == Navbar.OnFrame(old(navbarScroll.View()), scrollTop).bar
      ensures var d := Navbar.OnFrame(old(navbarScroll.View()), scrollTop);
              navbarScroll.lastScrollTop == d.lastScrollTop && navbarScroll.scrollUpCount == d.scrollUpCount &&
              navbarScroll.resetPending == d.resetPending
      ensures brandStory.sticky == BrandStory.StickyMapping(scrollTop, heroBottom, windowHeight, brandStory.maxScroll).isSticky
      ensures brandStory.scrollProgress ==
                BrandStory.StickyMapping(scrollTop, heroBottom, windowHeight, brandStory.maxScroll).scrollProgress
      ensures brandStory.isDragging == (old(brandStory.isDragging) && (brandStory.sticky || !old(brandStory.sticky)))
      ensures brandStory.maxScroll == old(brandStory.maxScroll) && brandStory.startX == old(brandStory.startX)
      ensures brandStory.startScrollProgress == old(brandStory.startScrollProgress)
      ensures brandStory.pendingUnstick == old(brandStory.pendingUnstick)
      ensures !old(benefit.stalled) ==> benefit.lastScrollTop == scrollTop
      ensures !old(benefit.stalled) ==>
                benefit.currentIndex ==
                if Benefit.Pinned(benefit.stickyStart, benefit.scrollRange, scrollTop)
                then Benefit.ActiveIndex(scrollTop - benefit.stickyStart, benefit.scrollRange, benefit.items.Length)
                else old(benefit.currentIndex)
      ensures old(benefit.stalled) ==> benefit.stalled && unchanged(benefit, benefit.items, benefit.images)
      ensures !old(benefit.stalled) ==>
                benefit.items[..] == Benefit.Reactivate(old(benefit.items[..]), old(benefit.currentIndex), benefit.currentIndex)
      ensures !benefit.stalled ==>
                benefit.images[..] == Benefit.Reactivate(old(benefit.images[..]), old(benefit.currentIndex), benefit.currentIndex)
      ensures !old(benefit.stalled) && benefit.stalled ==>
                benefit.images[..] == old(benefit.images[..])[old(benefit.currentIndex) := false]
    {
      navbarScroll.HandleFrame(scrollTop);
      brandStory.HandleFrame(scrollTop, heroBottom, windowHeight);
      benefit.HandleFrame(scrollTop);
    }
  }
}
