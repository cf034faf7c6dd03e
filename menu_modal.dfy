/**
 * The menu item modal's two pieces of state: the order quantity, changed
 * by the `+` and `-` buttons through updater callbacks, and the image
 * zoom flag, flipped by a click on the image.
 */
module MenuModal {

  /** `prev => prev + 1`. */
  function Incremented(prev: int): int {
    prev + 1
  }

  /** `prev => Math.max(1, prev - 1)`. */
  function Decremented(prev: int): int {
    if 1 > prev - 1 then 1 else prev - 1
  }

  /** `!isZoomed`. */
  function Toggled(zoomed: bool): bool {
    !zoomed
  }

  /** Clicking the image twice restores the zoom state. */
  lemma ToggleTwice(zoomed: bool)
    ensures Toggled(Toggled(zoomed)) == zoomed
  {
  }

  datatype Button = Plus | Minus

  /** The quantity after a sequence of button presses. */
  function Pressed(quantity: int, buttons: seq<Button>): int
    decreases |buttons|
  {
    if buttons == [] then quantity
    else Pressed(if buttons[0] == Plus then Incremented(quantity) else Decremented(quantity), buttons[1..])
  }

  /** `-` from 1 stays at 1, from any larger quantity takes one off. */
  lemma DecrementFloor(q: int)
    requires q >= 1
    ensures Decremented(q) >= 1
    ensures q == 1 ==> Decremented(q) == 1
    ensures q > 1 ==> Decremented(q) == q - 1
  {
  }

  /** `-` after `+` gives back the quantity shown before. */
  lemma DecrementUndoesIncrement(q: int)
    requires q >= 1
    ensures Decremented(Incremented(q)) == q
  {
  }

  /** From a quantity of at least one, no sequence of presses goes below one. */
  lemma {:induction false} PressesKeepQuantityPositive(q: int, buttons: seq<Button>)
    requires q >= 1
    ensures Pressed(q, buttons) >= 1
    decreases |buttons|
  {
    if buttons != [] {
      var next := if buttons[0] == Plus then Incremented(q) else Decremented(q);
      PressesKeepQuantityPositive(next, buttons[1..]);
    }
  }

  class Modal {
    var quantity: int
    var isZoomed: bool

    ghost predicate Valid()
      reads this
    {
      quantity >= 1
    }

    /** `useState(1)` and `useState(false)`. */
    constructor ()
      ensures Valid() && quantity == 1 && !isZoomed
    {
      quantity := 1;
      isZoomed := false;
    }

    method Increment()
      requires Valid()
      modifies this
      ensures Valid()
      ensures quantity == Incremented(old(quantity)) && isZoomed == old(isZoomed)
    {
      quantity := Incremented(quantity);
    }

    method Decrement()
      requires Valid()
      modifies this
      ensures Valid()
      ensures quantity == Decremented(old(quantity)) && isZoomed == old(isZoomed)
    {
      quantity := Decremented(quantity);
    }

    method ToggleZoom()
      modifies this
      ensures isZoomed == Toggled(old(isZoomed)) && quantity == old(quantity)
    {
      isZoomed := Toggled(isZoomed);
    }
  }
}
