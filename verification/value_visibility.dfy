/**
 * The hide/show switch for money amounts. The shared provider starts with
 * amounts shown; the stand-alone hook starts with them hidden. While hidden,
 * every formatted amount is replaced by a fixed mask.
 */
module ValueVisibility {
  import opened Wrappers
  import opened Js

  /** What a hidden amount shows instead of its value. */
  const MASK := Str("••••••")

  /** The error `useValueVisibility` throws outside a provider. */
  const NO_PROVIDER := "useValueVisibility must be used within a ValueVisibilityProvider"

  /** The identity, the formatter used when none is given. */
  function Identity(v: Value): Value {
    v
  }

  /** The visibility state of a provider or of a stand-alone hook. */
  class Visibility {
    var isHidden: bool

    /** `ValueVisibilityProvider`: amounts start shown. */
    constructor Provider()
      ensures !isHidden
    {
      isHidden := false;
    }

    /** `useLocalValueVisibility`: amounts start hidden. */
    constructor Local()
      ensures isHidden
    {
      isHidden := true;
    }

    /** `toggleVisibility`: flips the state. */
    method ToggleVisibility()
      modifies this`isHidden
      ensures isHidden == !old(isHidden)
    {
      isHidden := !isHidden;
    }

    /** `formatValue(value, formatter)`: the mask while hidden, the formatted value while shown. */
    function FormatValue(value: Value, formatter: Value -> Value): (r: Value)
      reads this
      ensures isHidden ==> r == MASK
      ensures !isHidden ==> r == formatter(value)
    {
      if isHidden then MASK else formatter(value)
    }

    /** `formatValue(value)` with the default formatter. */
    function FormatPlain(value: Value): (r: Value)
      reads this
      ensures !isHidden ==> r == value
      ensures isHidden ==> r == MASK
    {
      FormatValue(value, Identity)
    }
  }

  /** While hidden, the output does not depend on the value or the formatter: nothing leaks. */
  lemma HiddenRevealsNothing(v: Visibility, a: Value, b: Value, f: Value -> Value, g: Value -> Value)
    requires v.isHidden
    ensures v.FormatValue(a, f) == v.FormatValue(b, g) == MASK
  {
  }

  /** While shown, distinct values stay distinct under the default formatter. */
  lemma ShownKeepsValues(v: Visibility, a: Value, b: Value)
    requires !v.isHidden
    ensures v.FormatPlain(a) == v.FormatPlain(b) <==> a == b
  {
  }

  /** Two toggles restore the state, and with it what every amount shows. */
  method ToggleTwice(v: Visibility, value: Value, formatter: Value -> Value)
    modifies v
    ensures v.isHidden == old(v.isHidden)
    ensures v.FormatValue(value, formatter) == old(v.FormatValue(value, formatter))
  {
    v.ToggleVisibility();
    v.ToggleVisibility();
  }

  /** `useValueVisibility`: the provider's state, or the error when there is no provider. */
  function UseValueVisibility(context: Option<Visibility>): (r: Result<Visibility>)
    ensures r.Ok? <==> context.Some?
    ensures r.Ok? ==> r.value == context.value
    ensures r.Err? ==> r.message == NO_PROVIDER
  {
    if context.None? then Err(NO_PROVIDER) else Ok(context.value)
  }
}
