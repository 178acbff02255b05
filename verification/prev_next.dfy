/**
 * The prev/next control (`PrevNext`): two buttons whose clicks call the
 * caller's `onPrev` and `onNext` callbacks unless that direction is disabled.
 * Options default to no callbacks and both directions enabled; the caller's
 * options override the defaults key by key. Callback invocations append to
 * the log `invoked`.
 */
module PrevNextControl {
  import opened Wrappers
  import opened Dom

  /** A caller-supplied callback, identified by name. */
  datatype Callback = Callback(name: string)

  datatype Side = PrevSide | NextSide

  datatype Invocation = Invoked(side: Side, callback: Callback)

  /** `this.options` after merging. */
  datatype Options = Options(onPrev: Option<Callback>, onNext: Option<Callback>, disabledPrev: bool, disabledNext: bool)

  /** The options object a caller passes; `None` is a key the caller left out. */
  datatype SuppliedOptions = SuppliedOptions(
    onPrev: Option<Option<Callback>>, onNext: Option<Option<Callback>>,
    disabledPrev: Option<bool>, disabledNext: Option<bool>)

  /** `{ onPrev: null, onNext: null, disabledPrev: false, disabledNext: false, ...options }`. */
  function WithDefaults(supplied: SuppliedOptions): (o: Options)
    ensures supplied.disabledPrev.None? ==> !o.disabledPrev
    ensures supplied.disabledNext.None? ==> !o.disabledNext
    ensures supplied.onPrev.None? ==> o.onPrev.None?
    ensures supplied.onNext.None? ==> o.onNext.None?
    ensures supplied.disabledPrev.Some? ==> o.disabledPrev == supplied.disabledPrev.value
    ensures supplied.disabledNext.Some? ==> o.disabledNext == supplied.disabledNext.value
    ensures supplied.onPrev.Some? ==> o.onPrev == supplied.onPrev.value
    ensures supplied.onNext.Some? ==> o.onNext == supplied.onNext.value
  {
    Options(supplied.onPrev.GetOr(None), supplied.onNext.GetOr(None),
            supplied.disabledPrev.GetOr(false), supplied.disabledNext.GetOr(false))
  }

  /** The callback invocations one click on the `side` button makes. */
  function ClickInvocations(o: Options, side: Side): (calls: seq<Invocation>)
    ensures |calls| <= 1
    ensures side == PrevSide ==> (|calls| == 1 <==> !o.disabledPrev && o.onPrev.Some?)
    ensures side == NextSide ==> (|calls| == 1 <==> !o.disabledNext && o.onNext.Some?)
    ensures forall c :: c in calls ==> c.side == side
    ensures side == PrevSide && calls != [] ==> calls[0].callback == o.onPrev.value
    ensures side == NextSide && calls != [] ==> calls[0].callback == o.onNext.value
  {
    match side
    case PrevSide => if !o.disabledPrev && o.onPrev.Some? then [Invoked(PrevSide, o.onPrev.value)] else []
    case NextSide => if !o.disabledNext && o.onNext.Some? then [Invoked(NextSide, o.onNext.value)] else []
  }

  /** Disabling one direction leaves the other's clicks exactly as they were. */
  lemma DisablingIsPerSide(o: Options, d: bool)
    ensures ClickInvocations(o.(disabledPrev := d), NextSide) == ClickInvocations(o, NextSide)
    ensures ClickInvocations(o.(disabledNext := d), PrevSide) == ClickInvocations(o, PrevSide)
  {
  }

  class PrevNext {
    var options: Options
    /** The prev and next buttons found or rendered in the container; `null` without a container. */
    const prevButton: ButtonElement?
    const nextButton: ButtonElement?
    /** Every callback invocation made so far, oldest first. */
    var invoked: seq<Invocation>

    /** Whether `bindEvents` attached the click listeners. */
    predicate Bound()
      reads this
    {
      prevButton != null && nextButton != null
    }

    constructor (prevButton: ButtonElement?, nextButton: ButtonElement?, supplied: SuppliedOptions)
      ensures options == WithDefaults(supplied)
      ensures this.prevButton == prevButton && this.nextButton == nextButton && invoked == []
    {
      options := WithDefaults(supplied);
      this.prevButton := prevButton;
      this.nextButton := nextButton;
      invoked := [];
    }

    /** A click on the prev button; without listeners nothing runs. */
    method ClickPrev()
      modifies this
      ensures options == old(options)
      ensures invoked == old(invoked) + (if Bound() then ClickInvocations(options, PrevSide) else [])
    {
      if Bound() && !options.disabledPrev && options.onPrev.Some? {
        invoked := invoked + [Invoked(PrevSide, options.onPrev.value)];
      }
    }

    /** A click on the next button; without listeners nothing runs. */
    method ClickNext()
      modifies this
      ensures options == old(options)
      ensures invoked == old(invoked) + (if Bound() then ClickInvocations(options, NextSide) else [])
    {
      if Bound() && !options.disabledNext && options.onNext.Some? {
        invoked := invoked + [Invoked(NextSide, options.onNext.value)];
      }
    }

    method SetPrevDisabled(disabled: bool)
      modifies this, prevButton
      ensures options == old(options).(disabledPrev := disabled) && invoked == old(invoked)
      ensures prevButton != null ==> prevButton.disabled == disabled
      ensures prevButton != null ==> prevButton.hover == old(prevButton.hover) &&
                                     prevButton.disabledClass == old(prevButton.disabledClass)
    {
      options := options.(disabledPrev := disabled);
      if prevButton != null {
        prevButton.disabled := disabled;
      }
    }

    method SetNextDisabled(disabled: bool)
      modifies this, nextButton
      ensures options == old(options).(disabledNext := disabled) && invoked == old(invoked)
      ensures nextButton != null ==> nextButton.disabled == disabled
      ensures nextButton != null ==> nextButton.hover == old(nextButton.hover) &&
                                     nextButton.disabledClass == old(nextButton.disabledClass)
    {
      options := options.(disabledNext := disabled);
      if nextButton != null {
        nextButton.disabled := disabled;
      }
    }

    method SetDisabled(disabled: bool)
      modifies this, prevButton, nextButton
      ensures options == old(options).(disabledPrev := disabled, disabledNext := disabled) && invoked == old(invoked)
      ensures prevButton != null ==> prevButton.disabled == disabled
      ensures nextButton != null ==> nextButton.disabled == disabled
      ensures prevButton != null ==> prevButton.hover == old(prevButton.hover) &&
                                     prevButton.disabledClass == old(prevButton.disabledClass)
      ensures nextButton != null ==> nextButton.hover == old(nextButton.hover) &&
                                     nextButton.disabledClass == old(nextButton.disabledClass)
    {
      SetPrevDisabled(disabled);
      SetNextDisabled(disabled);
    }
  }
}
