/**
 * The icon-button behaviour (`IconButton`): hover styling, click notification,
 * keyboard activation and programmatic enabling and disabling of every
 * `.icon-button` element. A disabled button ignores hover, clicks and keys. A
 * click on an enabled button broadcasts one `iconButtonClick` notification
 * carrying the button, its `data-icon-button` and its `aria-label`; here the
 * broadcast appends to the log `dispatched`.
 */
module IconButtons {
  import opened Wrappers
  import opened Dom

  /** `handleMouseEnter`: hover is added only to an enabled button. */
  function MouseEnter(s: ButtonState): (r: ButtonState)
    ensures r.hover <==> s.hover || !s.disabled
    ensures r.disabled == s.disabled && r.disabledClass == s.disabledClass
  {
    if s.disabled then s else s.(hover := true)
  }

  /** `handleMouseLeave`: hover is always removed. */
  function MouseLeave(s: ButtonState): (r: ButtonState)
    ensures !r.hover && r.disabled == s.disabled && r.disabledClass == s.disabledClass
  {
    s.(hover := false)
  }

  /** `setDisabled(button, disabled)` on a resolved button. */
  function WithDisabled(s: ButtonState, disabled: bool): (r: ButtonState)
    ensures r.disabled == disabled && r.disabledClass == disabled && r.hover == s.hover
  {
    s.(disabled := disabled, disabledClass := disabled)
  }

  /** `toggle(button)` on a resolved button. */
  function Toggled(s: ButtonState): (r: ButtonState)
    ensures r.disabled == !s.disabled && r.disabledClass == r.disabled && r.hover == s.hover
  {
    WithDisabled(s, !s.disabled)
  }

  /** Setting the same disabled state twice is the same as setting it once. */
  lemma WithDisabledIdempotent(s: ButtonState, disabled: bool)
    ensures WithDisabled(WithDisabled(s, disabled), disabled) == WithDisabled(s, disabled)
  {
  }

  /**
   * Toggling twice restores the disabled state; on a button whose class
   * already agrees with its `disabled` property it restores everything.
   */
  lemma ToggleTwice(s: ButtonState)
    ensures Toggled(Toggled(s)).disabled == s.disabled
    ensures s.disabledClass == s.disabled ==> Toggled(Toggled(s)) == s
  {
  }

  /** Enter and Space activate a button from the keyboard. */
  predicate IsActivationKey(key: string) {
    key == "Enter" || key == " "
  }

  datatype Notification = IconButtonClick(button: ButtonElement, dataIconButton: Option<string>, ariaLabel: Option<string>)

  /** The notifications one click broadcasts, given the button's `disabled` property at the time. */
  function ClickNotifications(b: ButtonElement, disabled: bool): (ns: seq<Notification>)
    ensures disabled ==> ns == []
    ensures !disabled ==> |ns| == 1 && ns[0].button == b
    ensures !disabled ==> ns[0].dataIconButton == b.dataIconButton && ns[0].ariaLabel == b.ariaLabel
  {
    if disabled then [] else [IconButtonClick(b, b.dataIconButton, b.ariaLabel)]
  }

  /** The notifications one key press broadcasts. */
  function KeyNotifications(b: ButtonElement, disabled: bool, key: string): (ns: seq<Notification>)
    ensures |ns| <= 1
    ensures |ns| == 1 <==> !disabled && IsActivationKey(key)
    ensures ns != [] ==> ns == ClickNotifications(b, disabled)
  {
    if !disabled && IsActivationKey(key) then ClickNotifications(b, disabled) else []
  }

  class IconButton {
    /** The `.icon-button` elements of the document. */
    const buttons: seq<ButtonElement>
    /** Every `iconButtonClick` notification broadcast so far, oldest first. */
    var dispatched: seq<Notification>

    constructor (buttons: seq<ButtonElement>)
      ensures this.buttons == buttons && dispatched == []
    {
      this.buttons := buttons;
      dispatched := [];
    }

    method HandleMouseEnter(b: ButtonElement)
      requires b in buttons
      modifies b
      ensures b.State() == MouseEnter(old(b.State()))
    {
      if b.disabled {
        return;
      }
      b.hover := true;
    }

    method HandleMouseLeave(b: ButtonElement)
      requires b in buttons
      modifies b
      ensures b.State() == MouseLeave(old(b.State()))
    {
      b.hover := false;
    }

    method HandleClick(b: ButtonElement)
      requires b in buttons
      modifies this
      ensures dispatched == old(dispatched) + ClickNotifications(b, b.disabled)
    {
      if b.disabled {
        return;
      }
      dispatched := dispatched + [IconButtonClick(b, b.dataIconButton, b.ariaLabel)];
    }

    /** `keydown`; Enter or Space on an enabled button runs `button.click()`, which reaches `HandleClick`. */
    method HandleKeyDown(b: ButtonElement, key: string)
      requires b in buttons
      modifies this
      ensures dispatched == old(dispatched) + KeyNotifications(b, b.disabled, key)
    {
      if b.disabled {
        return;
      }
      if key == "Enter" || key == " " {
        HandleClick(b);
      }
    }

    /** `setDisabled`; `b` is the element or the selector's match, `null` when it matched nothing. */
    method SetDisabled(b: ButtonElement?, disabled: bool)
      modifies b
      ensures b != null ==> b.State() == WithDisabled(old(b.State()), disabled)
    {
      if b != null {
        b.disabled := disabled;
        if disabled {
          b.disabledClass := true;
        } else {
          b.disabledClass := false;
        }
      }
    }

    method Toggle(b: ButtonElement?)
      modifies b
      ensures b != null ==> b.State() == Toggled(old(b.State()))
    {
      if b != null {
        var isDisabled := b.disabled;
        SetDisabled(b, !isDisabled);
      }
    }

    method SetAllDisabled(disabled: bool)
      modifies set b | b in buttons
      ensures forall b :: b in buttons ==> b.State() == WithDisabled(old(b.State()), disabled)
    {
      var i := 0;
      while i < |buttons|
        invariant 0 <= i <= |buttons|
        invariant forall j :: 0 <= j < i ==> buttons[j].State() == WithDisabled(old(buttons[j].State()), disabled)
        invariant forall j :: i <= j < |buttons| && buttons[j] !in buttons[..i] ==>
                    buttons[j].State() == old(buttons[j].State())
      {
        SetDisabled(buttons[i], disabled);
        i := i + 1;
      }
    }
  }
}
