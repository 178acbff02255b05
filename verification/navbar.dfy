/**
 * The scroll-direction detector of the top navigation bar (`initNavbarScroll`).
 *
 * Once per animation frame the handler compares the page offset with the offset
 * of the previous frame. Past 100px the bar gets its `scrolled` background; a
 * downward move that ends past 100px hides it (`scroll-down`) and resets the
 * counter of upward moves; an upward move of at least 10px that ends past 100px
 * increments that counter, and the bar is shown again (`scroll-up`) only from
 * the second such move on. A
 * two-second timer, re-armed by every counted upward move and cancelled by a
 * downward one, resets the counter; here its expiry is the event `ResetTimer`.
 */
module Navbar {

  /** Offset past which the bar has its `scrolled` background. */
  const ScrollThreshold: real := 100.0
  /** Smallest upward move that is counted. */
  const MinScrollDistance: real := 10.0
  /** Number of counted upward moves after which the bar is shown again. */
  const RevealCount: nat := 2

  /** The `.navbar` element's three presentation classes. */
  class NavbarElement {
    var scrolled: bool
    var scrollDown: bool
    var scrollUp: bool

    constructor ()
      ensures Classes() == BarClasses(false, false, false)
    {
      scrolled, scrollDown, scrollUp := false, false, false;
    }

    function Classes(): BarClasses
      reads this
    {
      BarClasses(scrolled, scrollDown, scrollUp)
    }
  }

  datatype BarClasses = BarClasses(scrolled: bool, scrollDown: bool, scrollUp: bool)

  /**
   * Everything the detector reads and writes: its closure variables, whether the
   * counter-reset timer is pending, and the bar's classes.
   */
  datatype Detector = Detector(lastScrollTop: real, scrollUpCount: nat, resetPending: bool, bar: BarClasses)

  /** A move that hides the bar: downwards, ending past 100px. */
  predicate IsDownMove(lastScrollTop: real, scrollTop: real) {
    scrollTop > lastScrollTop && scrollTop > ScrollThreshold
  }

  /** A move that is counted: upwards by at least the minimum distance, ending past 100px. */
  predicate IsUpMove(lastScrollTop: real, scrollTop: real) {
    scrollTop < lastScrollTop && lastScrollTop - scrollTop >= MinScrollDistance && scrollTop > ScrollThreshold
  }

  /** The effect of one animation frame at page offset `scrollTop`. */
  function OnFrame(s: Detector, scrollTop: real): (r: Detector)
    ensures r.lastScrollTop == scrollTop
    ensures r.bar.scrolled <==> scrollTop > ScrollThreshold
    ensures IsDownMove(s.lastScrollTop, scrollTop) ==>
              r.bar.scrollDown && !r.bar.scrollUp && r.scrollUpCount == 0 && !r.resetPending
    ensures IsUpMove(s.lastScrollTop, scrollTop) ==>
              r.scrollUpCount == s.scrollUpCount + 1 && r.resetPending
    ensures IsUpMove(s.lastScrollTop, scrollTop) && r.scrollUpCount >= RevealCount ==>
              r.bar.scrollUp && !r.bar.scrollDown
    ensures IsUpMove(s.lastScrollTop, scrollTop) && r.scrollUpCount < RevealCount ==>
              r.bar.scrollDown == s.bar.scrollDown && r.bar.scrollUp == s.bar.scrollUp
    ensures r.bar.scrollUp && !s.bar.scrollUp ==>
              IsUpMove(s.lastScrollTop, scrollTop) && r.scrollUpCount >= RevealCount
    ensures !IsDownMove(s.lastScrollTop, scrollTop) && !IsUpMove(s.lastScrollTop, scrollTop) ==>
              r.scrollUpCount == s.scrollUpCount && r.resetPending == s.resetPending &&
              r.bar.scrollDown == s.bar.scrollDown && r.bar.scrollUp == s.bar.scrollUp
  {
    var scrolled := scrollTop > ScrollThreshold;
    if IsDownMove(s.lastScrollTop, scrollTop) then
      Detector(scrollTop, 0, false, BarClasses(scrolled, true, false))
    else if IsUpMove(s.lastScrollTop, scrollTop) then
      var count := s.scrollUpCount + 1;
      var bar := if count >= RevealCount then BarClasses(scrolled, false, true) else s.bar.(scrolled := scrolled);
      Detector(scrollTop, count, true, bar)
    else
      s.(lastScrollTop := scrollTop, bar := s.bar.(scrolled := scrolled))
  }

  /** The counter-reset timer expires; with no timer pending nothing can fire. */
  function OnResetTimer(s: Detector): (r: Detector)
    ensures r.bar == s.bar && r.lastScrollTop == s.lastScrollTop && !r.resetPending
    ensures r.scrollUpCount == if s.resetPending then 0 else s.scrollUpCount
  {
    if s.resetPending then s.(scrollUpCount := 0, resetPending := false) else s
  }

  /** The detector's state when the page has just loaded. */
  function Initial(bar: BarClasses): Detector {
    Detector(0.0, 0, false, bar)
  }

  datatype Event = Frame(scrollTop: real) | ResetTimer

  function Step(s: Detector, e: Event): Detector {
    match e
    case Frame(top) => OnFrame(s, top)
    case ResetTimer => OnResetTimer(s)
  }

  function Run(s: Detector, events: seq<Event>): Detector
    decreases |events|
  {
    if events == [] then s else Run(Step(s, events[0]), events[1..])
  }

  /**
   * What holds between any two events: the counter is non-zero exactly while a
   * reset is pending, and the bar is never both hidden and shown.
   */
  predicate Inv(s: Detector) {
    (s.resetPending <==> s.scrollUpCount > 0) && !(s.bar.scrollDown && s.bar.scrollUp)
  }

  lemma StepKeepsInv(s: Detector, e: Event)
    requires Inv(s)
    ensures Inv(Step(s, e))
  {
  }

  /** Every sequence of frames and timer expiries keeps `Inv`. */
  lemma {:induction false} RunKeepsInv(s: Detector, events: seq<Event>)
    requires Inv(s)
    ensures Inv(Run(s, events))
    decreases |events|
  {
    if events != [] {
      StepKeepsInv(s, events[0]);
      RunKeepsInv(Step(s, events[0]), events[1..]);
    }
  }

  /** Two counted upward moves in a row, with no timer expiry between them, show the bar. */
  lemma TwoUpMovesReveal(s: Detector, top1: real, top2: real)
    requires IsUpMove(s.lastScrollTop, top1) && IsUpMove(top1, top2)
    ensures OnFrame(OnFrame(s, top1), top2).bar.scrollUp
    ensures !OnFrame(OnFrame(s, top1), top2).bar.scrollDown
  {
  }

  /** One counted upward move after a reset (or a downward move) does not show a hidden bar. */
  lemma OneUpMoveDoesNotReveal(s: Detector, top: real)
    requires s.scrollUpCount == 0 && !s.bar.scrollUp
    ensures !OnFrame(s, top).bar.scrollUp
    ensures s.bar.scrollDown ==> OnFrame(s, top).bar.scrollDown
  {
  }

  /**
   * A timer expiry between two upward moves means the second one counts as the
   * first again: the hidden bar stays hidden.
   */
  lemma ExpiryBetweenUpMovesKeepsHidden(s: Detector, top1: real, top2: real)
    requires Inv(s) && s.scrollUpCount == 0 && !s.bar.scrollUp
    ensures !OnFrame(OnResetTimer(OnFrame(s, top1)), top2).bar.scrollUp
    ensures s.bar.scrollDown ==> OnFrame(OnResetTimer(OnFrame(s, top1)), top2).bar.scrollDown
  {
    var a := OnFrame(s, top1);
    OneUpMoveDoesNotReveal(s, top1);
    var b := OnResetTimer(a);
    StepKeepsInv(s, Frame(top1));
    assert b.scrollUpCount == 0;
    OneUpMoveDoesNotReveal(b, top2);
  }

  /** The detector installed by `initNavbarScroll` on a page that has a `.navbar`. */
  class NavbarScroll {
    var lastScrollTop: real
    var scrollUpCount: nat
    /** Whether the two-second counter-reset timer is pending. */
    var resetPending: bool
    const navbar: NavbarElement

    constructor (navbar: NavbarElement)
      ensures this.navbar == navbar
      ensures View() == Initial(navbar.Classes())
    {
      this.navbar := navbar;
      lastScrollTop, scrollUpCount, resetPending := 0.0, 0, false;
    }

    function View(): Detector
      reads this, navbar
    {
      Detector(lastScrollTop, scrollUpCount, resetPending, navbar.Classes())
    }

    /** The animation-frame callback of the scroll listener. */
    method HandleFrame(scrollTop: real)
      modifies this, navbar
      ensures View() == OnFrame(old(View()), scrollTop)
    {
      if scrollTop > ScrollThreshold {
        navbar.scrolled := true;
      } else {
        navbar.scrolled := false;
      }
      if scrollTop > lastScrollTop && scrollTop > ScrollThreshold {
        navbar.scrollDown := true;
        navbar.scrollUp := false;
        scrollUpCount := 0;
        resetPending := false;
      } else if scrollTop < lastScrollTop && lastScrollTop - scrollTop >= MinScrollDistance && scrollTop > ScrollThreshold {
        scrollUpCount := scrollUpCount + 1;
        if scrollUpCount >= RevealCount {
          navbar.scrollUp := true;
          navbar.scrollDown := false;
        }
        resetPending := true;
      }
      lastScrollTop := scrollTop;
    }

    /** The two-second timer set by a counted upward move expires. */
    method ResetTimerFired()
      modifies this
      ensures View() == OnResetTimer(old(View()))
    {
      if resetPending {
        scrollUpCount := 0;
        resetPending := false;
      }
    }
  }
}
