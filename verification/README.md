# Scroll-driven controllers and UI widgets of the a.foresty marketing page

This project models the client-side behaviour of the a.foresty marketing page in Dafny and proves properties of that model. The behaviour is a set of small sequential state machines driven by scroll, pointer, wheel, key and click events:

- **Navbar** models the navigation bar's direction detector (`initNavbarScroll`). Above 100px the bar gets `scrolled`. A downward move that ends above 100px hides it and resets the counter of upward moves. Upward moves of at least 10px that end past 100px are counted, and the bar is shown again only from the second one on. A two-second timer resets the counter.
- **Hero** models the hero background rotator (`initHeroCarousel`). On each three-second tick the `active` class moves one slide on, cyclically.
- **BrandStory** models the sticky horizontal scroller of the first brand-story section (`initBrandStorySection01`):
  - the pure mapping from page offset to pinning and strip translation, with a 20% hold-back and a linear ramp;
  - the drag, touch and wheel handlers, all clamped to `[0, maxScroll]`;
  - the 100 ms release timer.
- **Benefit** models the benefit stepper (`initBenefitSection`). It maps the offset inside its pinned range to the active item, with breakpoints at 50% and 75%. While pinned it keeps the navigation bar hidden.
- **Slider** models `UnitSlider`: the cyclic slide index, `updateSlider`, and the touch and mouse swipe gesture machine.
- **IconButtons** models `IconButton`: hover, click notification, Enter/Space activation, and `setDisabled`, `toggle` and `setAllDisabled`.
- **PrevNextControl** models `PrevNext`: option defaults, click gating of the two callbacks, and the disable setters.
- **Page** runs the three scroll handlers of one animation frame in registration order. The detector and the stepper write the same `.navbar` element, so the stepper's override is stated on their composition.
- **Dom** holds the button element state shared by the widgets and the "exactly one element is `active`" predicate. **Modular** holds a fact about Euclidean division used by the cyclic indices. **Wrappers** holds an `Option` type.

Each component whose source mutates closure variables or object fields is a `class` with those fields. Pure functions specify its methods: each method's postcondition equates the new state with a function of the old state, such as `View() == OnFrame(old(View()), scrollTop)`. The lemmas are stated about those functions. Pixel quantities are exact `real`s. Timers are explicit event methods (`ResetTimerFired`, `Tick`, `UnstickTimerFired`). Layout readings are parameters (hero bottom, viewport height, strip and container widths, wrapper offset).

Behaviour of the code worth knowing:

- The navbar counter is reset only by a downward move that ends at an offset above 100px, not by every downward move (js/main.js:75).
- The scroller's translation is not kept inside `[0, maxScroll]` at all times:
  - a resize recomputes `maxScroll` without re-clamping;
  - a negative `maxScroll` makes the scroll mapping return a negative translation.
  The model proves the bound only where the code gives it. That is after every scroll frame and drag move when `maxScroll >= 0`, and the wheel handler preserves it.
- The scroller holds the strip still for the first 20% of its pinned range and accepts drags only while the section carries `sticky`. The stepper changes item at 50% and at 75% of its range.
- A scroll frame outside the pinned range clears `isDragging` only if the `sticky` class was still present (js/main.js:223-227).
- The stepper indexes `.benefit-image` by the item index. Extra images are never touched. With fewer images than items, the first frame that reaches a missing image throws after moving the item's `active` class. `isScrolling` then stays set, so the stepper never runs again (js/main.js:387, 446-452, 458 and 461). The model carries this as `stalled`.

## Model

| member | source | states |
|---|---|---|
| Navbar.OnFrame | js/main.js:63-100 | After a frame, `scrolled` holds exactly when the offset is above 100, and `lastScrollTop` is the new offset. A downward move past the line sets `scroll-down`, clears `scroll-up`, zeroes the counter and cancels the timer. A counted upward move increments the counter and arms the timer. While the counter stays below 2 it leaves both direction classes as they were. The bar is newly shown only by a counted upward move that brings the counter to at least 2. Any other frame leaves the counter, the timer and the direction classes alone. |
| Navbar.OnResetTimer | js/main.js:93-97 | The pending two-second timer zeroes the counter and the bar's classes are untouched. With no timer pending nothing changes. |
| Navbar.StepKeepsInv | js/main.js:74-100 | One frame or timer expiry keeps the invariant: the counter is non-zero exactly while a reset is pending, and the bar is never both `scroll-down` and `scroll-up`. |
| Navbar.RunKeepsInv | js/main.js:60-105 | Every sequence of frames and timer expiries keeps that invariant (proved by induction over the sequence). |
| Navbar.TwoUpMovesReveal | js/main.js:81-91 | Two counted upward moves in a row, with no timer expiry between them, leave the bar shown and not hidden. |
| Navbar.OneUpMoveDoesNotReveal | js/main.js:85-91 | From a zero counter, no single frame adds `scroll-up` or removes `scroll-down`, so a hidden bar stays hidden. |
| Navbar.ExpiryBetweenUpMovesKeepsHidden | js/main.js:85-97 | A timer expiry between two frames resets the count, so from a zero counter the second frame neither adds `scroll-up` nor removes `scroll-down`: a hidden bar stays hidden. |
| Navbar.NavbarScroll.constructor | js/main.js:51-55 | The detector starts at offset 0 with a zero counter and no pending timer. |
| Navbar.NavbarScroll.HandleFrame | js/main.js:60-105 | The frame callback changes the detector's fields and the bar's classes exactly as `OnFrame` says. |
| Navbar.NavbarScroll.ResetTimerFired | js/main.js:95-97 | The timer callback changes the detector exactly as `OnResetTimer` says. |
| Hero.NextIndex | js/main.js:127 | The next slide index is below `n`. For an index in range it is the successor, wrapping from `n - 1` to 0. |
| Hero.AdvanceIsModular | js/main.js:122-133 | `k` ticks from slide `i` land on slide `(i + k) mod n` (proved by induction on `k`). |
| Hero.FullCycle | js/main.js:122-133 | After `n` ticks the rotation is back at its starting slide, and no fewer ticks (but at least one) bring it back. |
| Hero.MoveKeepsOnlyActive | js/main.js:124-130 | Moving `active` from the current slide to the next one keeps exactly one slide active. |
| Hero.HeroCarousel.constructor | js/main.js:112-114 | The rotator starts at slide 0 over a non-empty slide list. |
| Hero.HeroCarousel.Tick | js/main.js:122-133 | A tick advances the index cyclically and removes `active` from the old slide. It then adds `active` to the new slide and touches no other slide, so a single active slide stays single. |
| Hero.InitHeroCarousel | js/main.js:111-119 | With no slides nothing is installed. Otherwise a rotator at slide 0 is. |
| BrandStory.Clamp | js/main.js:269 | `max(0, min(maxScroll, x))` lies in `[0, maxScroll]` when `maxScroll >= 0`. It is `x` inside that range, `maxScroll` above it, and 0 below it or when `maxScroll <= 0`. |
| BrandStory.StickyMapping | js/main.js:172-231 | The section is pinned exactly in `[stickyStart, stickyStart + windowHeight]`. Outside that range the translation is 0. Up to the 20% hold-back point it is 0. Beyond it the translation is the linear ramp `d / (0.8 windowHeight) * maxScroll`, where the `min(1, …)` cap never bites inside the range. The translation lies in `[0, maxScroll]` when `maxScroll >= 0`. |
| BrandStory.ProgressMonotone | js/main.js:201-210 | Within the pinned range, the translation never decreases as the offset grows. |
| BrandStory.EndOfRangeShowsEnd | js/main.js:185-210 | At the bottom of a non-empty pinned range the strip is translated by exactly `maxScroll`. |
| BrandStory.DragProgress | js/main.js:268-269 | A drag sets the translation to `startProgress - deltaX` when that lies in `[0, maxScroll]`. It is 0 below that range or when `maxScroll <= 0`, and `maxScroll` above it. It always lies in the range when `maxScroll >= 0`. |
| BrandStory.DragMonotone | js/main.js:268-269 | Dragging further left never decreases the translation. |
| BrandStory.WheelDelta | js/main.js:316 | The delta is the horizontal one when that is non-zero, and the vertical one otherwise, so it is zero only when both are. |
| BrandStory.WheelStep | js/main.js:318-335 | A wheel event passes through to the page exactly when it is at the start moving left or at the end moving right. Otherwise it is consumed: the translation becomes `clamp(progress + 0.36 delta)`, stays in range, and moves in the direction of the delta. |
| BrandStory.BrandStoryScroller.constructor | js/main.js:150-163 | The scroller starts unpinned, untranslated and not dragging, with `maxScroll` = list width minus container width. |
| BrandStory.BrandStoryScroller.CalculateMaxScroll | js/main.js:155-159 | A resize recomputes `maxScroll` and changes nothing else; in particular the translation is not re-clamped. |
| BrandStory.BrandStoryScroller.HandleFrame | js/main.js:169-237 | A frame sets `sticky` and the translation from `StickyMapping`. It clears `isDragging` only when the section stops being pinned. |
| BrandStory.BrandStoryScroller.PointerDown | js/main.js:248-256 | A press starts a drag only while pinned, recording the pointer and the current translation; `touchstart` (282-289) behaves the same. |
| BrandStory.BrandStoryScroller.PointerMove | js/main.js:258-274 | A move while dragging and pinned sets the translation to `DragProgress`. A move while dragging but unpinned stops the drag. Without a drag a move changes nothing. `touchmove` (291-307) behaves the same. |
| BrandStory.BrandStoryScroller.PointerUp | js/main.js:276-279 | A release ends any drag and changes nothing else; `touchend` (309-311) behaves the same. |
| BrandStory.BrandStoryScroller.Wheel | js/main.js:314-348 | When unpinned the wheel is ignored. When pinned it acts as `WheelStep` says, and a consumed event that reaches the end starts a release timer. An in-range translation stays in range. |
| BrandStory.BrandStoryScroller.UnstickTimerFired | js/main.js:343-345 | A pending release timer removes `sticky` and leaves the translation and the drag state alone. |
| Benefit.AdjustedProgress | js/main.js:421-437 | The quantised progress is one of 0, 0.5 and 1. It is 0 exactly up to the 50% breakpoint (or at a non-positive offset), and 1 exactly past the 75% breakpoint. |
| Benefit.ActiveIndex | js/main.js:415-441 | The index lies in `[0, n)`. It is 0 up to 50% of the range and `floor((n - 1) / 2)` up to 75%. Beyond 75% it is `n - 1`. |
| Benefit.ActiveIndexMonotone | js/main.js:423-441 | The index never decreases as the relative offset grows. |
| Benefit.ActiveIndexEnds | js/main.js:423-441 | At the start of a non-empty range the first item is active, at its end the last. |
| Benefit.HidesNavbar | js/main.js:395-411 | An unchanged offset never hides the bar. An upward move hides it exactly while pinned. A downward move hides it exactly while pinned and strictly past the start, so a downward move onto the start does not. |
| Benefit.Reactivate | js/main.js:444-452 | When the new position differs from the old one, moving `active` sets the new one and clears the old one. When they agree nothing changes. Every other position is left as it was. |
| Benefit.ReactivateKeepsOnlyActive | js/main.js:444-452 | Moving `active` from the old item to the new one keeps exactly one item active. |
| Benefit.BenefitSection.constructor | js/main.js:357-383 | Installation over non-empty item and image lists, of any lengths, activates the first item and image. It places the pinned range one viewport above the wrapper, 3.5 viewports long. |
| Benefit.InitBenefitSection | js/main.js:357-369 | With no items or no images nothing is installed and nothing changes. Otherwise a stepper on the first item is installed. |
| Benefit.BenefitSection.HandleFrame | js/main.js:386-462 | While pinned a frame sets the index to `ActiveIndex`, and outside the range the index is unchanged. The item is re-activated, keeping a single active item single. The image is re-activated too, unless it does not exist. In that case the old image loses `active` and the stepper stalls: every later frame changes nothing. The bar gets `scroll-down` and loses `scroll-up` exactly when `HidesNavbar` holds and is untouched otherwise. `lastScrollTop` is updated. |
| Benefit.BenefitSection.UpdateNavbar | js/main.js:398-411 | The stepper's navbar write adds `scroll-down` and removes `scroll-up` exactly when `HidesNavbar` holds for the previous and the new offset. Otherwise, and always for `scrolled`, the classes are unchanged. |
| Benefit.BenefitSection.MoveTo | js/main.js:444-455 | Moving to a different item clears `active` on the old item and image and sets it on the new item. It sets it on the new image when that exists. Otherwise the frame throws there and the stepper is stalled. |
| Slider.Next | js/components/unit-slider.js:57-60 | The next index is in `[0, totalSlides)`, the successor wrapping to 0. It is `NaN` without slides. |
| Slider.Prev | js/components/unit-slider.js:52-55 | The previous index is in `[0, totalSlides)`, the predecessor wrapping to `n - 1`. It is `NaN` without slides. |
| Slider.NextPrevInverse | js/components/unit-slider.js:52-60 | `nextSlide` then `prevSlide`, or the reverse, restores any index in range. |
| Slider.SwipeStep | js/components/unit-slider.js:107-113 | A release steps forward exactly when `diffX > 50`, backward exactly when `diffX < -50`, and not otherwise. |
| Slider.AfterSwipe | js/components/unit-slider.js:107-113 | A release with `diffX > 50` applies `Next` once and one with `diffX < -50` applies `Prev` once. Otherwise the index is kept. |
| Slider.ActiveFlags | js/components/unit-slider.js:67-77 | Exactly the element at `currentSlide` is flagged `active`. |
| Slider.UnitSlider.constructor | js/components/unit-slider.js:3-23 | A new slider shows slide 0 with no gesture in progress. |
| Slider.UnitSlider.UpdateSlider | js/components/unit-slider.js:67-77 | After the two loops, exactly the image and the dot at `currentSlide` carry `active`. |
| Slider.UnitSlider.PrevSlide | js/components/unit-slider.js:52-55 | The index becomes `Prev` of the old one and the flags are refreshed. |
| Slider.UnitSlider.NextSlide | js/components/unit-slider.js:57-60 | The index becomes `Next` of the old one and the flags are refreshed. |
| Slider.UnitSlider.GoToSlide | js/components/unit-slider.js:62-65 | The index becomes the dot's index, with no bounds check, and the flags are refreshed. |
| Slider.UnitSlider.Swipe | js/components/unit-slider.js:107-113 | The release step moves the index as `AfterSwipe` says. It refreshes the flags only when it moved. |
| Slider.UnitSlider.HandleTouchStart | js/components/unit-slider.js:80-84 | A touch start records the start point and clears `isDragging`. |
| Slider.UnitSlider.HandleTouchMove | js/components/unit-slider.js:86-99 | `isDragging` is latched only from a truthy start point (a start at x = 0 counts as none), and only when `abs(diffX) > abs(diffY)` and `abs(diffX) > 50`. Otherwise it is unchanged. |
| Slider.UnitSlider.HandleTouchEnd | js/components/unit-slider.js:101-117 | Without a truthy start or a latched drag nothing changes. Otherwise the index steps as `AfterSwipe` says, the start point is cleared and `isDragging` is false. |
| Slider.UnitSlider.HandleMouseDown | js/components/unit-slider.js:120-125 | A mouse press records the start point and clears `isDragging`. |
| Slider.UnitSlider.HandleMouseMove | js/components/unit-slider.js:127-139 | Latches `isDragging` under the same rule as the touch move. |
| Slider.UnitSlider.HandleMouseUp | js/components/unit-slider.js:141-157 | Same as the touch release, over the mouse start point; `mouseleave` runs it too. |
| IconButtons.MouseEnter | js/components/icon-button.js:36-44 | Hover is added only to an enabled button. Nothing else changes. |
| IconButtons.MouseLeave | js/components/icon-button.js:46-51 | Hover is always removed. Nothing else changes. |
| IconButtons.WithDisabled | js/components/icon-button.js:101-114 | `disabled` becomes `d` and the `icon-button--disabled` class is present exactly when `d` holds. Hover is untouched. |
| IconButtons.Toggled | js/components/icon-button.js:117-126 | `disabled` flips, the class follows it, and hover is untouched. |
| IconButtons.WithDisabledIdempotent | js/components/icon-button.js:101-114 | Setting the same disabled state twice is the same as once. |
| IconButtons.ToggleTwice | js/components/icon-button.js:117-126 | Toggling twice restores `disabled`. When the class already agrees with `disabled`, it restores the whole state. |
| IconButtons.ClickNotifications | js/components/icon-button.js:53-69 | A disabled button emits nothing. An enabled one emits exactly one notification carrying the button, its `data-icon-button` and its `aria-label`. |
| IconButtons.KeyNotifications | js/components/icon-button.js:71-82 | A key emits at most one notification. It emits one exactly for Enter or Space on an enabled button, and that one is what a click emits. |
| IconButtons.IconButton.constructor | js/components/icon-button.js:7-34 | The handlers are bound to the document's `.icon-button` elements and nothing has been emitted. |
| IconButtons.IconButton.HandleMouseEnter | js/components/icon-button.js:36-44 | The button's state changes as `MouseEnter` says. |
| IconButtons.IconButton.HandleMouseLeave | js/components/icon-button.js:46-51 | The button's state changes as `MouseLeave` says. |
| IconButtons.IconButton.HandleClick | js/components/icon-button.js:53-69 | The log grows by `ClickNotifications`. |
| IconButtons.IconButton.HandleKeyDown | js/components/icon-button.js:71-82 | The log grows by `KeyNotifications`, through one call of the click handler. |
| IconButtons.IconButton.SetDisabled | js/components/icon-button.js:101-114 | A resolved button's state becomes `WithDisabled`. An unresolved selector changes nothing. |
| IconButtons.IconButton.Toggle | js/components/icon-button.js:117-126 | A resolved button's state becomes `Toggled`. An unresolved selector changes nothing. |
| IconButtons.IconButton.SetAllDisabled | js/components/icon-button.js:129-134 | After the loop every button is `WithDisabled(d)` of its old state. |
| PrevNextControl.WithDefaults | js/components/prev-next.js:6-12 | Both disabled flags default to false and the callbacks default to none. Every key the caller supplies overrides its default. |
| PrevNextControl.ClickInvocations | js/components/prev-next.js:54-65 | A prev click invokes `onPrev` exactly once when prev is enabled and `onPrev` is set, and otherwise nothing. It never invokes `onNext`. A next click behaves symmetrically. |
| PrevNextControl.DisablingIsPerSide | js/components/prev-next.js:69-82 | Changing one direction's disabled flag leaves the other direction's clicks exactly as they were. |
| PrevNextControl.PrevNext.constructor | js/components/prev-next.js:4-15 | The options are the caller's merged over the defaults. Nothing has been invoked. |
| PrevNextControl.PrevNext.ClickPrev | js/components/prev-next.js:54-58 | With listeners bound, the log grows by `ClickInvocations(options, prev)`. Without them nothing happens. |
| PrevNextControl.PrevNext.ClickNext | js/components/prev-next.js:61-65 | With listeners bound, the log grows by `ClickInvocations(options, next)`. Without them nothing happens. |
| PrevNextControl.PrevNext.SetPrevDisabled | js/components/prev-next.js:69-74 | `disabledPrev` and the prev button's `disabled` become `d`. The next side is untouched. |
| PrevNextControl.PrevNext.SetNextDisabled | js/components/prev-next.js:77-82 | `disabledNext` and the next button's `disabled` become `d`. The prev side is untouched. |
| PrevNextControl.PrevNext.SetDisabled | js/components/prev-next.js:85-88 | Both flags and both buttons become `d`. |
| Page.FrameBar | js/main.js:20-29 | In a frame, `scrolled` follows the detector. When the stepper hides the bar, the bar is hidden whatever the detector decided; otherwise the bar is exactly the detector's result. |
| Page.PinnedBenefitOverridesReveal | js/main.js:402-410 | A second counted upward move would show the bar on its own, but while the stepper is pinned it leaves the bar hidden. |
| Page.FrameBarExclusive | js/main.js:75-91 | The composed frame never leaves the bar both hidden and shown. |
| Page.ScrollHandlers.constructor | js/main.js:12-33 | The detector and the stepper share the page's `.navbar` element; the scroller never touches it. |
| Page.ScrollHandlers.AnimationFrame | js/main.js:60-462 | One frame runs the detector (60-105), the scroller (169-237) and the stepper (386-462) in registration order. The bar ends as `FrameBar` says, or as the detector alone says once the stepper has stalled. The detector's fields follow `OnFrame`. The scroller's `sticky` and translation follow `StickyMapping`, its drag is cleared only on leaving the pinned range, and its other fields are unchanged. The stepper's index, items, images and `stalled` flag change as `BenefitSection.HandleFrame` says. |

## Left out

- Animation-frame coalescing (the `isScrolling` flags of js/main.js:53, 150 and 371): each frame is one call of a `HandleFrame` method.
- Timer scheduling (`setTimeout`, `setInterval`, `clearTimeout`): each timer's expiry is an explicit event method, and arming or cancelling a timer is a pending flag or count.
- DOM querying and layout. Elements are passed in as objects. Offsets, heights and widths are parameters. The "missing element" early returns are modelled only for the hero rotator (no slides), the benefit stepper (no items or no images) and `PrevNext` (no buttons, no listeners).
- Rendering: `style.transform` strings, cursor styles, `console.log` output, and the synthesized markup of `PrevNext.render` (its buttons are constructor arguments).
- `preventDefault` calls, except the wheel handler's. Whether it consumes the event is the `consumed` result of `Wheel`.
- IEEE-754 behaviour of the factors 0.2, 0.36, 0.5, 0.75 and 3.5: the model uses exact reals. JavaScript `NaN` inputs (wheel deltas, coordinates) are not modelled. The one `NaN` that matters, the slide index after `% 0`, is.
- `handleResponsive`, `setupEventListeners`, `initBackToTop`, `handleFocus`, `handleBlur` and the module export and auto-initialisation code: logging, a `window.scrollTo` call, and inline outline styles.
- Benefit.InitBenefitSection: requires the item and image lists to be distinct arrays. An element carrying both `benefit-item` and `benefit-image` would be one shared flag, and that aliasing is not modelled. The exception a missing image raises is modelled only by its effect, the stalled handler; the console error is not.
- IconButtons.IconButton.SetAllDisabled: uses the buttons found when the handlers were bound. The source queries `.icon-button` again at call time, so buttons added to the page later are not modelled.
- The browser's own suppression of events on disabled `<button>` elements is not modelled. Only the handlers' own `disabled` checks gate behaviour.
- Slider.UnitSlider.HandleTouchMove, Slider.UnitSlider.HandleMouseMove: `touchStartY` and `mouseStartY` start at 0 rather than `undefined`. Each is only read after the matching start point (`touchStartX`, `mouseStartX`) has been recorded, so the difference is never observable.
- PrevNextControl.PrevNext.ClickPrev, PrevNextControl.PrevNext.ClickNext: the caller's `onPrev` and `onNext` are modelled as entries appended to a log, with no effects of their own. In the source they are foreign code, called with `this` bound to the options object (js/components/prev-next.js:56, 63), so they could change the options or the buttons. `options == old(options)` holds only under that abstraction.
- IconButtons.IconButton.HandleClick: the `iconButtonClick` broadcast is modelled as an entry appended to a log. `document.dispatchEvent` runs the page's listeners synchronously (js/components/icon-button.js:68), and their effects are not modelled.
