/** `UICheckbox`: a boolean that a click toggles. */
module Checkboxes {
  import opened Callbacks

  /** The texture `_update_sprite` chooses. */
  function CheckboxSprite(checked: bool): (name: string)
    ensures name == "Checkbox_Checked" <==> checked
    ensures !checked <==> name == "Checkbox_Default"
  {
    if checked then "Checkbox_Checked" else "Checkbox_Default"
  }

  class Checkbox {
    const registry: CallbackRegistry
    var checked: bool
    var sprite: string

    /** The sprite always shows the current state. */
    ghost predicate Valid()
      reads this
    {
      sprite == CheckboxSprite(checked)
    }

    constructor (checked: bool)
      ensures Valid() && this.checked == checked
      ensures fresh(registry) && registry.Valid() && registry.callbacks == []
    {
      registry := new CallbackRegistry();
      this.checked := checked;
      sprite := CheckboxSprite(checked);
    }

    /** `on_click`: flips the state and notifies every observer once with the new state. */
    method OnClick(log: NotificationLog)
      modifies this, log
      ensures Valid() && checked == !old(checked)
      ensures log.entries == old(log.entries) + Broadcast(registry.callbacks, this, Flag(checked))
    {
      checked := !checked;
      registry.Trigger(log, this, Flag(checked));
      UpdateSprite();
    }

    /** `set_checked`: sets the state; it is given no log, so it notifies nobody. */
    method SetChecked(checked: bool)
      modifies this
      ensures Valid() && this.checked == checked
    {
      this.checked := checked;
      UpdateSprite();
    }

    /** `_update_sprite`: makes the sprite show the current state. */
    method UpdateSprite()
      modifies this
      ensures Valid() && checked == old(checked)
    {
      sprite := CheckboxSprite(checked);
    }
  }
}
