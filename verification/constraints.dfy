/**
 * The browser's constraint validation of a `<form>`. Before it fires the
 * form's submit event, the browser checks every control's `required`,
 * `min`, `max` and `step`; while one of them fails, the submit event is not
 * fired and the page's submit handler does not run.
 */
module Constraints {
  import opened Wrappers
  import opened Js

  /** Ten to the power `k`. */
  function Pow10(k: nat): (r: nat)
    ensures r >= 1
  {
    if k == 0 then 1 else 10 * Pow10(k - 1)
  }

  /** A number text taken apart: the sign, the digits before the point and those after it. */
  datatype Numeral = Numeral(negative: bool, whole: string, fraction: string)

  /**
   * Reads `s` as a valid floating-point number of HTML without an exponent:
   * an optional '-', then digits, or digits (possibly none) followed by a
   * '.' and at least one digit.
   */
  function ReadNumeral(s: string): (r: Option<Numeral>)
    ensures r.Some? ==> AllDigits(r.value.whole, 10) && AllDigits(r.value.fraction, 10)
    ensures r.Some? ==> |r.value.whole| + |r.value.fraction| >= 1
    ensures s == "" ==> r.None?
  {
    var negative := |s| >= 1 && s[0] == '-';
    var body := if negative then s[1..] else s;
    var k := DigitRun(body, 10);
    if k == |body| then
      (if k == 0 then None else Some(Numeral(negative, body, "")))
    else if body[k] == '.' && |body| > k + 1 && DigitRun(body[k + 1..], 10) == |body| - k - 1 then
      Some(Numeral(negative, body[..k], body[k + 1..]))
    else
      None
  }

  /** The number a numeral denotes. */
  function NumeralValue(m: Numeral): real
    requires AllDigits(m.whole, 10) && AllDigits(m.fraction, 10)
  {
    var magnitude := DigitsValue(m.whole, 10) as real + DigitsValue(m.fraction, 10) as real / Pow10(|m.fraction|) as real;
    if m.negative then -magnitude else magnitude
  }

  /** The numeral of an integer is read back as that integer. */
  lemma {:induction false} ReadIntegerNumeral(n: int)
    ensures ReadNumeral(IntToString(n)).Some?
    ensures NumeralValue(ReadNumeral(IntToString(n)).value) == n as real
  {
    var m: nat := if n < 0 then -n else n;
    var digits := NatToString(m);
    NatToStringDigits(m);
    NatToStringValue(m);
    DigitRunAll(digits, 10);
    assert DigitsValue("", 10) == 0;
    var s := IntToString(n);
    if n < 0 {
      assert s[1..] == digits;
      assert ReadNumeral(s) == Some(Numeral(true, digits, ""));
    } else {
      assert s == digits;
      assert s[0] != '-' by {
        assert IsDigit(s[0], 10);
      }
      assert ReadNumeral(s) == Some(Numeral(false, digits, ""));
    }
    assert Pow10(0) == 1;
  }

  /**
   * The constraints of an `<input type="number">`: `required`, `min`,
   * `max`, and the `step`, counted in hundredths (the default step 1 is
   * 100, `step="0.01"` is 1). Steps are counted from `min`, or from 0.
   */
  datatype NumberConstraint = NumberConstraint(required: bool, min: Option<int>, max: Option<int>, stepHundredths: nat)

  /** Whether `x` lies a whole number of steps away from `start`. */
  predicate OnStep(x: real, start: int, stepHundredths: nat)
    requires stepHundredths > 0
  {
    var steps := (x - start as real) * 100.0 / stepHundredths as real;
    steps.Floor as real == steps
  }

  /**
   * Whether a number input showing `text` satisfies `c`. An empty input is
   * missing, which only `required` refuses; a number must lie within `min`
   * and `max` and on a step.
   */
  predicate NumberValid(text: string, c: NumberConstraint)
    requires c.stepHundredths > 0
  {
    var m := ReadNumeral(text);
    if m.None? then !c.required
    else
      var x := NumeralValue(m.value);
      && (c.min.Some? ==> c.min.value as real <= x)
      && (c.max.Some? ==> x <= c.max.value as real)
      && OnStep(x, if c.min.Some? then c.min.value else 0, c.stepHundredths)
  }

  /**
   * The text a number input shows for the React `value` it is given: a
   * number as its numeral, a string that is a valid number as written;
   * anything else (NaN, the empty string, other text, null, undefined) is
   * sanitised to the empty text.
   */
  function NumberInputText(v: Value): (r: string)
    ensures r == "" || ReadNumeral(r).Some?
    ensures r != "" ==> v.Int? || v.Str?
  {
    match v
    case Int(n) =>
      ReadIntegerNumeral(n);
      IntToString(n)
    case Str(s) => if ReadNumeral(s).Some? then s else ""
    case _ => ""
  }

  /** The text a text or date input shows for the React `value` it is given: null and undefined show nothing. */
  function TextInputText(v: Value): (r: string)
    ensures v.Str? ==> r == v.s
    ensures v.Undefined? || v.Null? ==> r == ""
  {
    if v.Undefined? || v.Null? then "" else ToString(v)
  }

  /** Whether a text or date input showing `text` satisfies `required`. */
  predicate TextValid(text: string, required: bool) {
    !(required && text == "")
  }

  /** An integer lies a whole number of steps of 1 or 0.01 away from any integer. */
  lemma IntegerOnStep(n: int, start: int, stepHundredths: nat)
    requires stepHundredths == 1 || stepHundredths == 100
    ensures OnStep(n as real, start, stepHundredths)
  {
    var steps := (n as real - start as real) * 100.0 / stepHundredths as real;
    if stepHundredths == 1 {
      assert steps == ((n - start) * 100) as real;
    } else {
      assert steps == (n - start) as real;
    }
  }

  /**
   * An input showing an integer, with a step of 1 or 0.01, is valid
   * exactly when the integer lies within `min` and `max`; an empty one
   * exactly when it is not required.
   */
  lemma IntegerInputValid(n: int, c: NumberConstraint)
    requires c.stepHundredths == 1 || c.stepHundredths == 100
    ensures NumberValid(NumberInputText(Int(n)), c) <==>
              (c.min.Some? ==> c.min.value <= n) && (c.max.Some? ==> n <= c.max.value)
    ensures NumberValid(NumberInputText(Str("")), c) <==> !c.required
  {
    ReadIntegerNumeral(n);
    var m := ReadNumeral(IntToString(n));
    assert NumeralValue(m.value) == n as real;
    IntegerOnStep(n, if c.min.Some? then c.min.value else 0, c.stepHundredths);
  }
}
