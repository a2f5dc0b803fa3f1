/** The `ValueError`s the circular-motion engine raises, and the result type
    that carries either a value or one of them. */
module Errors {

  /** What a raised `ValueError` is about. */
  datatype Error =
      /** `Units(s)` found no member whose value is the string `s`. */
    | NotAValidUnit(value: string)
      /** `Units.toenum` was given an object that is neither a member nor a
          string; `repr` is that object's `repr()`. */
    | CannotConvert(repr: string)
      /** The operation `op` has no branch for the unit whose value string is
          `value`; `op` is the name the message starts with (`Eq.T`, `Eq.v`,
          `Eq.w`, `Eq.a` or `rotation_properties`). */
    | Unsupported(op: string, value: string)

  /** The text of the `ValueError`. */
  function Message(e: Error): string {
    match e
    case NotAValidUnit(v) => "'" + v + "' is not a valid Units"
    case CannotConvert(r) => "'" + r + "' cannot be converted to enum"
    case Unsupported(op, v) => op + "(): '" + v + "' units not supported"
  }

  /** The messages the test tables expect: an unsupported unit names the
      operation and the unit's value, an unknown string is quoted. */
  lemma MessageExamples()
    ensures Message(Unsupported("Eq.T", "kg")) == "Eq.T(): 'kg' units not supported"
    ensures Message(NotAValidUnit("anon")) == "'anon' is not a valid Units"
  {
    assert "Eq.T" + "(): '" + "kg" + "' units not supported" == "Eq.T(): 'kg' units not supported";
    assert "'" + "anon" + "' is not a valid Units" == "'anon' is not a valid Units";
  }

  /** The message `rotation_properties` raises for a unit it has no branch
      for, here the frequency unit that `Eq.T` accepts. */
  lemma RotationMessageExample()
    ensures Message(Unsupported("rotation_properties", "hz")) == "rotation_properties(): 'hz' units not supported"
  {
    assert "rotation_properties" + "(): '" + "hz" + "' units not supported" == "rotation_properties(): 'hz' units not supported";
  }

  /** A value, or the error that was raised instead; failure-compatible, so
      `:-` propagates an error the way an uncaught exception does. */
  datatype Result<+T> = Ok(value: T) | Err(error: Error) {

    predicate IsFailure() {
      Err?
    }

    function PropagateFailure<U>(): Result<U>
      requires Err?
    {
      Err(error)
    }

    function Extract(): T
      requires Ok?
    {
      value
    }
  }
}
