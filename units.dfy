/** The `Units` enumeration and its two normalisers, `toenum` and `tovalue`. */
module Units {
  import opened Errors

  /** The distinct members of the enumeration. The class body declares fifteen
      names, but a name whose value an earlier name already has becomes an
      alias of that earlier member, so there are twelve members; the aliases
      are the constants below. */
  datatype Unit =
    | SI        // 'si'    international system of units
    | LEN       // 'm'     meters
    | TIME      // 's'     seconds
    | MASS      // 'kg'    kilograms
    | V         // 'm/s'   velocity
    | W         // 'rad/s' angular velocity
    | V_ANG_DEG // 'deg/s' angular velocity in degrees
    | A         // 'm/s^2' acceleration
    | G         // 'g'     acceleration in standard g's
    | HZ        // 'hz'    frequency
    | RPM       // 'rpm'   rotations per minute
    | KPH       // 'kph'   kilometers per hour

  /** `Units.V_LIN` is declared with `V`'s value, so it is `V`. */
  const V_LIN: Unit := V
  /** `Units.V_ANG` is declared with `W`'s value, so it is `W`. */
  const V_ANG: Unit := W
  /** `Units.T` (rotational period) is declared with `TIME`'s value, so it is `TIME`. */
  const T: Unit := TIME

  /** A member's `.value`. */
  function Value(u: Unit): string {
    match u
    case SI => "si"
    case LEN => "m"
    case TIME => "s"
    case MASS => "kg"
    case V => "m/s"
    case W => "rad/s"
    case V_ANG_DEG => "deg/s"
    case A => "m/s^2"
    case G => "g"
    case HZ => "hz"
    case RPM => "rpm"
    case KPH => "kph"
  }

  /** No two members share a value: this is what the aliasing guarantees. */
  lemma ValueInjective(u1: Unit, u2: Unit)
    requires Value(u1) == Value(u2)
    ensures u1 == u2
  {
  }

  /** `Units(s)`: look a member up by its value. */
  function FromValue(s: string): (r: Result<Unit>)
    ensures r.Ok? ==> Value(r.value) == s
    ensures r.Err? ==> r.error == NotAValidUnit(s) && forall u :: Value(u) != s
  {
    if s == "si" then Ok(SI)
    else if s == "m" then Ok(LEN)
    else if s == "s" then Ok(TIME)
    else if s == "kg" then Ok(MASS)
    else if s == "m/s" then Ok(V)
    else if s == "rad/s" then Ok(W)
    else if s == "deg/s" then Ok(V_ANG_DEG)
    else if s == "m/s^2" then Ok(A)
    else if s == "g" then Ok(G)
    else if s == "hz" then Ok(HZ)
    else if s == "rpm" then Ok(RPM)
    else if s == "kph" then Ok(KPH)
    else Err(NotAValidUnit(s))
  }

  /** What a caller may pass where a unit is expected: a member, a string,
      or any other object, given by its `str()` and `repr()` renderings. */
  datatype Obj =
    | Member(unit: Unit)
    | Str(s: string)
    | Other(text: string, repr: string)

  /** `Units.toenum`. */
  function ToEnum(obj: Obj): (r: Result<Unit>)
    ensures obj.Member? ==> r == Ok(obj.unit)
    ensures obj.Str? && r.Ok? ==> Value(r.value) == obj.s
    ensures obj.Str? && r.Err? ==> r.error == NotAValidUnit(obj.s) && forall u :: Value(u) != obj.s
    ensures obj.Other? ==> r == Err(CannotConvert(obj.repr))
  {
    match obj
    case Member(u) => Ok(u)
    case Str(s) => FromValue(s)
    case Other(_, repr) => Err(CannotConvert(repr))
  }

  /** A string names a member exactly when it is that member's value, so
      `toenum` on strings is the inverse of `.value`. */
  lemma ToEnumString(s: string, u: Unit)
    ensures ToEnum(Str(s)) == Ok(u) <==> Value(u) == s
  {
    if Value(u) == s {
      var r := ToEnum(Str(s));
      assert r.Ok?;
      ValueInjective(r.value, u);
    }
  }

  /** `Units.tovalue`: total; the value of a member, the string itself, or
      the object's `str()`. */
  function ToValue(obj: Obj): (s: string)
    ensures ToEnum(obj).Ok? ==> s == Value(ToEnum(obj).value)
    ensures obj.Str? ==> s == obj.s
    ensures obj.Other? ==> s == obj.text
  {
    match obj
    case Member(u) => Value(u)
    case Str(s) => s
    case Other(text, _) => text
  }

  /** `toenum` leaves a member unchanged and `tovalue` then gives back the
      string it came from. */
  lemma ToEnumToValue(obj: Obj)
    requires ToEnum(obj).Ok?
    ensures ToEnum(Member(ToEnum(obj).value)) == ToEnum(obj)
    ensures ToEnum(Str(ToValue(obj))) == ToEnum(obj)
  {
    ToEnumString(ToValue(obj), ToEnum(obj).value);
  }

  /** `obj` normalises to the member `u`. */
  predicate ResolvesTo(obj: Obj, u: Unit) {
    ToEnum(obj) == Ok(u)
  }

  /** `obj` normalises to one of `us`. */
  predicate ResolvesIn(obj: Obj, us: set<Unit>) {
    ToEnum(obj).Ok? && ToEnum(obj).value in us
  }

  /** `res` is what an operation named `op` whose branches are exactly those
      for `accepted` returns for the unit argument `obj`: `toenum`'s own
      error, a value for an accepted member, and for any other member the
      "units not supported" error naming `op` and the member's value. */
  predicate Dispatches<X>(op: string, accepted: set<Unit>, obj: Obj, res: Result<X>) {
    match ToEnum(obj)
    case Err(e) => res.Err? && res.error == e
    case Ok(u) => if u in accepted then res.Ok? else res.Err? && res.error == Unsupported(op, Value(u))
  }

  /** The string cases the equation tests feed to `toenum`. */
  lemma ToEnumExamples()
    ensures ToEnum(Str("s")) == Ok(T) && T == TIME
    ensures ToEnum(Str("m/s")) == Ok(V_LIN) && V_LIN == V
    ensures ToEnum(Str("hz")) == Ok(HZ)
    ensures ToEnum(Str("m/s^2")) == Ok(A)
    ensures ToEnum(Str("anon")) == Err(NotAValidUnit("anon"))
    ensures ToEnum(Str("atom")) == Err(NotAValidUnit("atom"))
    ensures ToEnum(Str("palm/s")) == Err(NotAValidUnit("palm/s"))
  {
  }
}
