/** The verdicts of the assertion helpers on `Gerbil.prototype`, and the part
    of `assert_equal` that dispatches on the first operand's constructor. The
    helpers themselves update the runner's `assertions` counter and live in
    the class `Runner.Gerbil`. */
module Assertions {
  import opened JsValues

  /** Why an assertion failed; the text of the message is not modelled. */
  datatype Failure =
    | AssertionFailed                               // assert
    | NotRaised                                     // assert_throw: fn returned normally
    | SameTypeRaised(raised: JsValue)               // assert_throw: typeof matched expected_error
    | TypeErrorRaised                               // a property of undefined or null was read
    | UndefinedOperand(first: JsValue, second: JsValue)
    | DifferentType(firstType: string, secondType: string)
    | DifferentLengths
    | ItemsNotEqual(left: JsValue, right: JsValue)
    | NotEqual(left: JsValue, right: JsValue)

  /** An assertion either passes or raises a failure. */
  datatype Check = Passed | Failed(failure: Failure)

  /** What the user's `fn` does when `assert_throw` calls it. */
  datatype Effect = Returns | Throws(value: JsValue)

  /** The TypeError instance raised by reading a property of undefined or
      null; it is an object, and its identity plays no part here. */
  const TypeErrorInstance := Obj(0)

  /** The verdict of the constructor switch of `assert_equal`. An array is
      compared with an operand that has no `length` (a plain object) as of
      different length; an array of the same length fails at its first
      unequal element; a number fails when unequal. `case String, Number:`
      evaluates the comma operator, so only `Number` is a case label and two
      strings, like every other kind, pass. */
  ghost predicate Compared(first: JsValue, second: JsValue, c: Check)
    requires !Nullish(first)
  {
    match ConstructorOf(first)
    case ArrayCtor =>
      if !second.Arr? || |first.items| != |second.items| then
        c == Failed(DifferentLengths)
      else
        (c == Passed <==> first.items == second.items)
        && (c != Passed ==>
              exists i :: 0 <= i < |first.items|
                          && first.items[..i] == second.items[..i]
                          && first.items[i] != second.items[i]
                          && c == Failed(ItemsNotEqual(first.items[i], second.items[i])))
    case NumberCtor =>
      c == if first == second then Passed else Failed(NotEqual(first, second))
    case _ =>
      c == Passed
  }

  /** `switch (first.constructor)` in `assert_equal`, reached only after both
      operands were found defined and of the same `typeof`. */
  method CompareByConstructor(first: JsValue, second: JsValue) returns (c: Check)
    requires !Nullish(first) && !Nullish(second) && TypeOf(first) == TypeOf(second)
    ensures Compared(first, second, c)
  {
    match ConstructorOf(first)
    case ArrayCtor =>
      if !second.Arr? || |first.items| != |second.items| {
        return Failed(DifferentLengths);
      }
      var a, b := first.items, second.items;
      for i := 0 to |a|
        invariant a[..i] == b[..i]
      {
        if a[i] != b[i] {
          return Failed(ItemsNotEqual(a[i], b[i]));
        }
        assert a[..i + 1] == a[..i] + [a[i]] && b[..i + 1] == b[..i] + [b[i]];
      }
      assert a == a[..|a|] && b == b[..|b|];
      return Passed;
    case NumberCtor =>
      if first != second {
        return Failed(NotEqual(first, second));
      }
      return Passed;
    case _ =>
      return Passed;
  }
}
