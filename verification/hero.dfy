/**
 * The hero background rotator (`initHeroCarousel`): every three seconds the
 * active class moves from the current slide to the next one, cyclically. With
 * no slides nothing is installed. The interval timer is the event `Tick`.
 */
module Hero {
  import opened Modular
  import opened Dom

  /** The slide after `i` among `n`. */
  function NextIndex(i: nat, n: nat): (j: nat)
    requires n > 0
    ensures j < n
    ensures i < n ==> j == if i == n - 1 then 0 else i + 1
  {
    (i + 1) % n
  }

  /** The slide shown after `k` ticks from slide `i`. */
  function Advance(i: nat, n: nat, k: nat): nat
    requires n > 0
    decreases k
  {
    if k == 0 then i else NextIndex(Advance(i, n, k - 1), n)
  }

  lemma ModSucc(a: nat, n: nat)
    requires n > 0
    ensures (a + 1) % n == if a % n == n - 1 then 0 else a % n + 1
  {
    var q, r := a / n, a % n;
    if r == n - 1 {
      DivModUnique(a + 1, n, q + 1, 0);
    } else {
      DivModUnique(a + 1, n, q, r + 1);
    }
  }

  /** The slide after `a mod n` is `(a + 1) mod n`. */
  lemma NextIndexOfMod(a: nat, n: nat)
    requires n > 0
    ensures NextIndex(a % n, n) == (a + 1) % n
  {
    ModSucc(a, n);
  }

  /** `k` ticks from slide `i` land on slide `(i + k) mod n`. */
  lemma {:induction false} AdvanceIsModular(i: nat, n: nat, k: nat)
    requires 0 < n && i < n
    ensures Advance(i, n, k) == (i + k) % n
    decreases k
  {
    if k > 0 {
      AdvanceIsModular(i, n, k - 1);
      NextIndexOfMod(i + k - 1, n);
    }
  }

  /** After `n` ticks the rotation is back at the slide it started from. */
  lemma FullCycle(i: nat, n: nat)
    requires 0 < n && i < n
    ensures Advance(i, n, n) == i
    ensures forall k :: 0 < k < n ==> Advance(i, n, k) != i
  {
    AdvanceIsModular(i, n, n);
    DivModUnique(i + n, n, 1, i);
    forall k | 0 < k < n
      ensures Advance(i, n, k) != i
    {
      AdvanceIsModular(i, n, k);
      if i + k < n {
        DivModUnique(i + k, n, 0, i + k);
      } else {
        DivModUnique(i + k, n, 1, i + k - n);
      }
    }
  }

  /** Moving `active` from slide `i` to slide `j` keeps exactly one slide active. */
  lemma MoveKeepsOnlyActive(flags: seq<bool>, i: nat, j: nat)
    requires i < |flags| && j < |flags| && OnlyActive(flags, i)
    ensures OnlyActive(flags[i := false][j := true], j)
  {
  }

  class HeroCarousel {
    /** Whether each `.hero-bg-slide` carries `active`. */
    const slides: array<bool>
    var currentSlide: nat

    ghost predicate Valid()
      reads this
    {
      currentSlide < slides.Length
    }

    constructor (slides: array<bool>)
      requires slides.Length > 0
      ensures Valid() && this.slides == slides && currentSlide == 0
    {
      this.slides := slides;
      currentSlide := 0;
    }

    /** One firing of the three-second interval. */
    method Tick()
      requires Valid()
      modifies this, slides
      ensures Valid()
      ensures currentSlide == NextIndex(old(currentSlide), slides.Length)
      ensures slides[..] == old(slides[..])[old(currentSlide) := false][currentSlide := true]
      ensures OnlyActive(old(slides[..]), old(currentSlide)) ==> OnlyActive(slides[..], currentSlide)
    {
      ghost var before := slides[..];
      slides[currentSlide] := false;
      currentSlide := (currentSlide + 1) % slides.Length;
      slides[currentSlide] := true;
      if OnlyActive(before, old(currentSlide)) {
        MoveKeepsOnlyActive(before, old(currentSlide), currentSlide);
      }
    }
  }

  /** `initHeroCarousel`: no rotator when the page has no slides. */
  method InitHeroCarousel(slides: array<bool>) returns (c: HeroCarousel?)
    ensures c == null <==> slides.Length == 0
    ensures c != null ==> fresh(c) && c.Valid() && c.slides == slides && c.currentSlide == 0
  {
    if slides.Length == 0 {
      c := null;
    } else {
      c := new HeroCarousel(slides);
    }
  }
}
