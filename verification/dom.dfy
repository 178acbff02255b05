/**
 * The parts of a DOM `<button>` element that the widgets read and write:
 * its `disabled` property, the two presentation classes the icon-button
 * script toggles, and the two attributes it reports on click; and the
 * `active` class that the carousels and the stepper keep on one element of a list.
 */
module Dom {
  import opened Wrappers

  /** Exactly the element at `k` of a list carries `active`. */
  predicate OnlyActive(flags: seq<bool>, k: nat) {
    forall j :: 0 <= j < |flags| ==> flags[j] == (j == k)
  }

  /** The state of a button that the widgets change. */
  datatype ButtonState = ButtonState(disabled: bool, hover: bool, disabledClass: bool)

  class ButtonElement {
    /** The element's `disabled` property. */
    var disabled: bool
    /** Whether `icon-button--hover` is in the class list. */
    var hover: bool
    /** Whether `icon-button--disabled` is in the class list. */
    var disabledClass: bool
    /** `getAttribute('data-icon-button')`; `None` when the attribute is absent. */
    const dataIconButton: Option<string>
    /** `getAttribute('aria-label')`; `None` when the attribute is absent. */
    const ariaLabel: Option<string>

    constructor (disabled: bool, disabledClass: bool, dataIconButton: Option<string>, ariaLabel: Option<string>)
      ensures State() == ButtonState(disabled, false, disabledClass)
      ensures this.dataIconButton == dataIconButton && this.ariaLabel == ariaLabel
    {
      this.disabled := disabled;
      this.hover := false;
      this.disabledClass := disabledClass;
      this.dataIconButton := dataIconButton;
      this.ariaLabel := ariaLabel;
    }

    function State(): ButtonState
      reads this
    {
      ButtonState(disabled, hover, disabledClass)
    }
  }
}
