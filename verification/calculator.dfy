/**
 * The calculator (assets/components/apps/CalculatorApp.tsx): the display
 * text, the stored left operand, the pending operator, and whether the next
 * key starts a new operand.
 *
 * Numbers are `real`s. The source's float arithmetic is not modelled: the
 * value of the display (`parseFloat`), the result of the operator switch
 * and its rendering (`String(number)`) are supplied by the caller.
 */
module Calculator {
  import opened Wrappers
  import opened Text

  /** The operator keys, spelled as in the source file. */
  const Plus := "+"
  const Minus := "-"
  const Times := "\U{00C3}\U{2014}"
  const Divide := "\U{00C3}\U{00B7}"
  const EqualsKey := "="

  // -------------------------------------------------------------------------
  // The display text

  /** A digit key without a pending new operand: a lone "0" is replaced, anything else extended. */
  function DigitStep(display: string, digit: char): (r: string)
    ensures display == "0" ==> r == [digit]
    ensures display != "0" ==> r == display + [digit]
  {
    if display == "0" then [digit] else display + [digit]
  }

  /** The display after typing `digits` one by one, starting from `display`. */
  function Typed(display: string, digits: string): (r: string)
    ensures |display| > 0 && display != "0" ==> r == display + digits
    ensures |digits| > 0 ==> |r| > 0 && r[|r| - 1] == digits[|digits| - 1]
    decreases |digits|
  {
    if |digits| == 0 then display
    else DigitStep(Typed(display, digits[..|digits| - 1]), digits[|digits| - 1])
  }

  /** `digits` without its leading zeros. */
  function DropLeadingZeros(digits: string): (r: string)
    ensures |r| > 0 ==> r[0] != '0'
    ensures |r| <= |digits| && r == digits[|digits| - |r|..]
    decreases |digits|
  {
    if |digits| > 0 && digits[0] == '0' then
      var r := DropLeadingZeros(digits[1..]);
      assert digits[1..][|digits| - 1 - |r|..] == digits[|digits| - |r|..];
      r
    else digits
  }

  /** Appending a digit to a number extends its significant digits, unless it is a leading zero. */
  lemma {:induction false} DropLeadingZerosAppend(digits: string, d: char)
    ensures DropLeadingZeros(digits + [d]) ==
      if DropLeadingZeros(digits) == [] then (if d == '0' then [] else [d]) else DropLeadingZeros(digits) + [d]
    decreases |digits|
  {
    if |digits| == 0 {
      assert digits + [d] == [d];
      assert ([d])[1..] == [];
    } else {
      assert (digits + [d])[0] == digits[0];
      assert (digits + [d])[1..] == digits[1..] + [d];
      if digits[0] == '0' {
        DropLeadingZerosAppend(digits[1..], d);
      }
    }
  }

  /**
   * Typing digits after a clear shows them without leading zeros, or a
   * single "0" when they are all zeros.
   */
  lemma {:induction false} TypedAfterClear(digits: string)
    ensures Typed("0", digits) == if DropLeadingZeros(digits) == [] then "0" else DropLeadingZeros(digits)
    decreases |digits|
  {
    if |digits| > 0 {
      var init := digits[..|digits| - 1];
      var d := digits[|digits| - 1];
      assert digits == init + [d];
      TypedAfterClear(init);
      DropLeadingZerosAppend(init, d);
    }
  }

  /** The number of decimal points in `s`. */
  function Dots(s: string): (n: nat)
    ensures n <= |s|
    ensures n == 0 <==> '.' !in s
    decreases |s|
  {
    if |s| == 0 then 0
    else
      assert s == [s[0]] + s[1..];
      (if s[0] == '.' then 1 else 0) + Dots(s[1..])
  }

  lemma {:induction false} DotsAppend(a: string, b: string)
    ensures Dots(a + b) == Dots(a) + Dots(b)
    decreases |a|
  {
    if |a| > 0 {
      assert (a + b)[0] == a[0];
      assert (a + b)[1..] == a[1..] + b;
      DotsAppend(a[1..], b);
    } else {
      assert a + b == b;
    }
  }

  /** The decimal key without a pending new operand: a point is added only when there is none. */
  function DecimalStep(display: string): (r: string)
    ensures Dots(display) <= 1 ==> Dots(r) <= 1
    ensures '.' in display ==> r == display
    ensures '.' !in display ==> r == display + "." && Dots(r) == 1
  {
    if '.' in display then display
    else
      DotsAppend(display, ".");
      display + "."
  }

  /** The +/- key: a leading minus is removed, otherwise one is added. */
  function Negated(display: string): (r: string)
    ensures |display| > 0 && display[0] == '-' ==> r == display[1..]
    ensures !(|display| > 0 && display[0] == '-') ==> r == "-" + display
  {
    if |display| > 0 && display[0] == '-' then display[1..] else "-" + display
  }

  /** The +/- key neither adds nor removes a decimal point. */
  lemma NegatedKeepsDots(display: string)
    ensures Dots(Negated(display)) == Dots(display)
  {
    if !(|display| > 0 && display[0] == '-') {
      DotsAppend("-", display);
    }
  }

  /**
   * Pressing +/- twice restores the display, unless it starts with two minus
   * signs (which no key produces).
   */
  lemma NegatedTwice(display: string)
    requires |display| < 2 || display[..2] != "--"
    ensures Negated(Negated(display)) == display
  {
    if |display| > 0 && display[0] == '-' {
      assert display == "-" + display[1..];
    }
  }

  // -------------------------------------------------------------------------
  // The component

  class CalculatorApp {
    var display: string
    var previousValue: Option<real>
    var operator: Option<string>
    var waitingForOperand: bool

    /** The display never holds more than one decimal point of its own making. */
    ghost predicate Valid()
      reads this
    {
      Dots(display) <= 1
    }

    constructor ()
      ensures Valid()
      ensures display == "0" && previousValue == None && operator == None && !waitingForOperand
    {
      display := "0";
      previousValue := None;
      operator := None;
      waitingForOperand := false;
    }

    method ClearAll()
      modifies this
      ensures Valid()
      ensures display == "0" && previousValue == None && operator == None && !waitingForOperand
    {
      display := "0";
      previousValue := None;
      operator := None;
      waitingForOperand := false;
    }

    /** A digit starts a new operand when one is pending, and otherwise extends the display. */
    method InputDigit(digit: char)
      requires Valid() && IsDigit(digit)
      modifies this
      ensures Valid() && !waitingForOperand
      ensures old(waitingForOperand) ==> display == [digit]
      ensures !old(waitingForOperand) ==> display == DigitStep(old(display), digit)
      ensures previousValue == old(previousValue) && operator == old(operator)
    {
      if waitingForOperand {
        display := [digit];
        waitingForOperand := false;
      } else {
        DotsAppend(display, [digit]);
        display := if display == "0" then [digit] else display + [digit];
      }
    }

    /** The decimal key starts "0." when a new operand is pending, and otherwise adds a point only once. */
    method InputDecimal()
      requires Valid()
      modifies this
      ensures Valid() && !waitingForOperand
      ensures old(waitingForOperand) ==> display == "0."
      ensures !old(waitingForOperand) ==> display == DecimalStep(old(display))
      ensures previousValue == old(previousValue) && operator == old(operator)
    {
      if waitingForOperand {
        display := "0.";
        waitingForOperand := false;
      } else if '.' !in display {
        display := DecimalStep(display);
      }
    }

    method ToggleSign()
      requires Valid()
      modifies this
      ensures Valid()
      ensures display == Negated(old(display))
      ensures previousValue == old(previousValue) && operator == old(operator)
      ensures waitingForOperand == old(waitingForOperand)
    {
      NegatedKeepsDots(display);
      display := if |display| > 0 && display[0] == '-' then display[1..] else "-" + display;
    }

    /**
     * An operator key. `inputValue` is the display's value, `result` what the
     * pending operator makes of the stored value and `inputValue`, and
     * `rendered` that result as text (`String` of a number writes at most
     * one decimal point). The first operator only stores the
     * value; later ones store and show the result. Either way a new operand
     * is awaited and `nextOperator` is pending.
     */
    method PerformOperation(nextOperator: string, inputValue: real, result: real, rendered: string)
      requires Valid() && Dots(rendered) <= 1
      modifies this
      ensures Valid()
      ensures old(previousValue).None? ==> previousValue == Some(inputValue) && display == old(display)
      ensures old(previousValue).Some? && Truthy(old(operator)) ==> previousValue == Some(result) && display == rendered
      ensures old(previousValue).Some? && !Truthy(old(operator)) ==> previousValue == old(previousValue) && display == old(display)
      ensures waitingForOperand && operator == Some(nextOperator)
    {
      if previousValue.None? {
        previousValue := Some(inputValue);
      } else if Truthy(operator) {
        previousValue := Some(result);
        display := rendered;
      }
      waitingForOperand := true;
      operator := Some(nextOperator);
    }

    /** Equals applies the pending operator when there is one and a stored value, and then clears the operator. */
    method HandleEquals(inputValue: real, result: real, rendered: string)
      requires Valid() && Dots(rendered) <= 1
      modifies this
      ensures Valid()
      ensures !Truthy(old(operator)) || old(previousValue).None? ==>
        display == old(display) && previousValue == old(previousValue)
        && operator == old(operator) && waitingForOperand == old(waitingForOperand)
      ensures Truthy(old(operator)) && old(previousValue).Some? ==>
        previousValue == Some(result) && display == rendered && waitingForOperand && operator == None
    {
      if !Truthy(operator) || previousValue.None? {
        return;
      }
      PerformOperation(EqualsKey, inputValue, result, rendered);
      operator := None;
    }
  }

  /**
   * "1 + 2 =" with the sum and its text supplied as the arithmetic would
   * give them: the first operand is stored, the supplied result replaces it
   * and is shown, and nothing stays pending.
   */
  method OnePlusTwo(c: CalculatorApp)
    modifies c
    ensures c.Valid() && c.previousValue == Some(3.0) && c.display == "3" && c.operator == None
    ensures c.waitingForOperand
  {
    c.ClearAll();
    c.InputDigit('1');
    c.PerformOperation(Plus, 1.0, 1.0, "1");
    c.InputDigit('2');
    c.HandleEquals(2.0, 3.0, "3");
  }
}
