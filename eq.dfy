/** The `Eq` equations of uniform circular motion. Each function that takes a
    unit first normalises it with `Units.toenum` and then has one branch per
    unit it supports; any other member raises "units not supported".
    Python's `ZeroDivisionError` and `math.sqrt` domain error are
    preconditions, stated for exactly the branches that divide or take a
    root. */
module Eq {
  import opened PyMath
  import opened Errors
  import Units

  /** Standard gravity `g_n` (Earth's surface gravity), m/s^2. */
  const G_N: real := 9.80665

  /** The units each dispatching equation has a branch for. */
  const T_UNITS: set<Units.Unit> := {Units.HZ, Units.V_ANG, Units.RPM}
  const V_UNITS: set<Units.Unit> := {Units.V_ANG, Units.A, Units.T}
  const W_UNITS: set<Units.Unit> := {Units.V_LIN, Units.A}
  const A_UNITS: set<Units.Unit> := {Units.V_LIN, Units.V_ANG, Units.T}

  /** `Eq.stdg`: an acceleration in m/s^2 as a number of standard g's. */
  function Stdg(a: real): (g: real)
    ensures g * G_N == a
  {
    a / G_N
  }

  /** `Eq.accel`: a number of standard g's as an acceleration in m/s^2. */
  function Accel(g: real): (a: real)
    ensures a / G_N == g
  {
    g * G_N
  }

  lemma StdgAccel(g: real)
    ensures Stdg(Accel(g)) == g
  {
  }

  lemma AccelStdg(a: real)
    ensures Accel(Stdg(a)) == a
  {
  }

  /** `Eq.T`: the rotation period from a frequency (Hz), an angular velocity
      (rad/s) or a rotation rate (rpm). */
  function T(x: real, xunits: Units.Obj): (p: Result<real>)
    requires Units.ResolvesIn(xunits, T_UNITS) ==> x != 0.0
    ensures Units.Dispatches("Eq.T", T_UNITS, xunits, p)
    ensures Units.ResolvesTo(xunits, Units.HZ) ==> p.value * x == 1.0
    ensures Units.ResolvesTo(xunits, Units.V_ANG) ==> p.value * x == TAU
    ensures Units.ResolvesTo(xunits, Units.RPM) ==> p.value * x == 60.0
  {
    var u :- Units.ToEnum(xunits);
    if u == Units.HZ then Ok(1.0 / x)
    else if u == Units.V_ANG then Ok(TAU / x)
    else if u == Units.RPM then Ok(60.0 / x)
    else Err(Unsupported("Eq.T", Units.ToValue(Units.Member(u))))
  }

  /** `Eq.hz`: the frequency of one rotation every `t` seconds. */
  function Hz(t: real): (f: real)
    requires t != 0.0
    ensures f * t == 1.0
  {
    1.0 / t
  }

  /** `Eq.rpm`: rotations per minute at one rotation every `t` seconds. */
  function Rpm(t: real): (n: real)
    requires t != 0.0
    ensures n * t == 60.0
  {
    60.0 / t
  }

  /** `Eq.omega`: the angular velocity of one turn every `t` seconds. */
  function Omega(t: real): (w: real)
    requires t != 0.0
    ensures w * t == TAU
  {
    TAU / t
  }

  /** `Eq.T` undoes each of the three rate functions. */
  lemma PeriodFromRates(p: real)
    requires p != 0.0
    ensures T(Hz(p), Units.Member(Units.HZ)) == Ok(p)
    ensures T(Rpm(p), Units.Member(Units.RPM)) == Ok(p)
    ensures T(Omega(p), Units.Member(Units.V_ANG)) == Ok(p)
  {
    CancelFactor(T(Hz(p), Units.Member(Units.HZ)).value, p, Hz(p));
    CancelFactor(T(Rpm(p), Units.Member(Units.RPM)).value, p, Rpm(p));
    CancelFactor(T(Omega(p), Units.Member(Units.V_ANG)).value, p, Omega(p));
  }

  /** `Eq.T_rv`: the period of a rotation of radius `r` at tangential
      velocity `v`: one circumference per period. */
  function TRv(r: real, v: real): (p: real)
    requires v != 0.0
    ensures p * v == TAU * r
  {
    (TAU * r) / v
  }

  /** `Eq.kph`: meters per second as kilometers per hour. */
  function Kph(v: real): (k: real)
    ensures k * 1000.0 == v * 3600.0
  {
    v * 3600.0 / 1000.0
  }

  /** `Eq.v`: the tangential velocity from an angular velocity, a
      centripetal acceleration or a period. */
  ghost function V(r: real, x: real, xunits: Units.Obj): (v: Result<real>)
    requires Units.ResolvesTo(xunits, Units.A) ==> x * r >= 0.0
    requires Units.ResolvesTo(xunits, Units.T) ==> x != 0.0
    ensures Units.Dispatches("Eq.v", V_UNITS, xunits, v)
    ensures Units.ResolvesTo(xunits, Units.V_ANG) ==> v.value == x * r
    ensures Units.ResolvesTo(xunits, Units.A) ==>
      v.value >= 0.0 && (x * r > 0.0 ==> v.value > 0.0) && (HasSqrt(x * r) ==> v.value * v.value == x * r)
    ensures Units.ResolvesTo(xunits, Units.T) ==> v.value * x == TAU * r
  {
    var u :- Units.ToEnum(xunits);
    if u == Units.V_ANG then Ok(x * r)
    else if u == Units.A then Ok(Sqrt(x * r))
    else if u == Units.T then Ok((TAU * r) / x)
    else Err(Unsupported("Eq.v", Units.ToValue(Units.Member(u))))
  }

  /** `Eq.w`: the angular velocity from a tangential velocity or a
      centripetal acceleration. The acceleration branch computes
      `x / sqrt(x * r)`, that is `a / v` with `v = sqrt(a * r)`. */
  ghost function W(r: real, x: real, xunits: Units.Obj): (w: Result<real>)
    requires Units.ResolvesTo(xunits, Units.V_LIN) ==> r != 0.0
    requires Units.ResolvesTo(xunits, Units.A) ==> x * r > 0.0
    ensures Units.Dispatches("Eq.w", W_UNITS, xunits, w)
    ensures Units.ResolvesTo(xunits, Units.V_LIN) ==> w.value * r == x
    ensures Units.ResolvesTo(xunits, Units.A) ==> w.value * Sqrt(x * r) == x
    ensures Units.ResolvesTo(xunits, Units.A) && HasSqrt(x * r) ==> w.value * w.value * r == x
  {
    var u :- Units.ToEnum(xunits);
    if u == Units.V_LIN then Ok(x / r)
    else if u == Units.A then
      var s := Sqrt(x * r);
      assert HasSqrt(x * r) ==> s * s == x * r;
      QuotientByRoot(x, r, s);
      Ok(x / s)
    else Err(Unsupported("Eq.w", Units.ToValue(Units.Member(u))))
  }

  /** `Eq.a`: the centripetal acceleration from a tangential velocity, an
      angular velocity or a period. */
  function A(r: real, x: real, xunits: Units.Obj): (a: Result<real>)
    requires Units.ResolvesTo(xunits, Units.V_LIN) ==> r != 0.0
    requires Units.ResolvesTo(xunits, Units.T) ==> x != 0.0
    ensures Units.Dispatches("Eq.a", A_UNITS, xunits, a)
    ensures Units.ResolvesTo(xunits, Units.V_ANG) ==> a.value == x * x * r
    ensures Units.ResolvesTo(xunits, Units.V_LIN) ==> a.value * r == x * x
    ensures Units.ResolvesTo(xunits, Units.T) ==> a.value * (x * x) == TAU * TAU * r
  {
    var u :- Units.ToEnum(xunits);
    if u == Units.V_LIN then Ok((x * x) / r)
    else if u == Units.V_ANG then Ok(x * x * r)
    else if u == Units.T then Ok((TAU * TAU) / (x * x) * r)
    else Err(Unsupported("Eq.a", Units.ToValue(Units.Member(u))))
  }

  /** Through the tangential velocity, an angular velocity gives the same
      centripetal acceleration as the direct angular-velocity branch. */
  lemma AccelViaVelocityFromOmega(r: real, w: real)
    requires r != 0.0
    ensures A(r, w, Units.Member(Units.V_ANG)) == A(r, V(r, w, Units.Member(Units.V_ANG)).value, Units.Member(Units.V_LIN))
  {
    var v := V(r, w, Units.Member(Units.V_ANG)).value;
    var direct := A(r, w, Units.Member(Units.V_ANG));
    var via := A(r, v, Units.Member(Units.V_LIN));
    assert v == w * r && direct == Ok(w * w * r);
    assert via.value * r == (w * w * r) * r;
    CancelFactor(via.value, direct.value, r);
  }

  /** Through the tangential velocity, a period gives the same centripetal
      acceleration as the direct period branch. */
  lemma AccelViaVelocityFromPeriod(r: real, p: real)
    requires r != 0.0 && p != 0.0
    ensures A(r, p, Units.Member(Units.T)) == A(r, V(r, p, Units.Member(Units.T)).value, Units.Member(Units.V_LIN))
  {
    var v := V(r, p, Units.Member(Units.T)).value;
    var direct := A(r, p, Units.Member(Units.T)).value;
    var via := A(r, v, Units.Member(Units.V_LIN)).value;
    assert v * p == TAU * r;
    assert direct * (p * p) == TAU * TAU * r;
    assert via * r == v * v;
    assert via * (r * (p * p)) == (v * p) * (v * p);
    assert direct * (r * (p * p)) == (TAU * TAU * r) * r;
    CancelFactor(via, direct, r * (p * p));
  }

  /** Through the tangential velocity `sqrt(a * r)`, an acceleration gives
      the same angular velocity as the direct acceleration branch. */
  lemma OmegaViaVelocityFromAccel(r: real, a: real)
    requires a * r > 0.0 && HasSqrt(a * r)
    ensures W(r, a, Units.Member(Units.A)) == W(r, V(r, a, Units.Member(Units.A)).value, Units.Member(Units.V_LIN))
  {
    var v := V(r, a, Units.Member(Units.A)).value;
    var direct := W(r, a, Units.Member(Units.A)).value;
    var via := W(r, v, Units.Member(Units.V_LIN)).value;
    assert v == Sqrt(a * r) && v * v == a * r && v > 0.0;
    assert direct == a / v;
    assert via * r == v;
    assert via * (v * r) == a * r;
    assert direct * (v * r) == a * r;
    CancelFactor(via, direct, v * r);
  }

  /** `Eq.T_rv` recovers the period from the velocity `Eq.v` derives from it. */
  lemma PeriodViaVelocity(r: real, p: real)
    requires r != 0.0 && p != 0.0
    ensures V(r, p, Units.Member(Units.T)).value != 0.0
    ensures TRv(r, V(r, p, Units.Member(Units.T)).value) == p
  {
  }

  /** The unit arguments of the equation test table for `Eq.T`: accepted
      strings are normalised first, unknown strings fail in `toenum`, and
      members without a branch raise the operation's own error. */
  lemma PeriodTestUnits()
    ensures T(5.0, Units.Str("hz")) == Ok(0.2)
    ensures T(42.0, Units.Member(Units.MASS)) == Err(Unsupported("Eq.T", "kg"))
    ensures T(10.0, Units.Str("anon")) == Err(NotAValidUnit("anon"))
  {
  }

  /** The same for `Eq.v`. */
  lemma VelocityTestUnits()
    ensures V(100.0, 30.0, Units.Str("s")) == V(100.0, 30.0, Units.Member(Units.T))
    ensures V(50.0, 42.0, Units.Member(Units.LEN)) == Err(Unsupported("Eq.v", "m"))
    ensures V(10.0, 33.9, Units.Str("atom")) == Err(NotAValidUnit("atom"))
  {
  }

  /** The same for `Eq.w`. */
  lemma OmegaTestUnits()
    ensures W(25.0, 4.903325, Units.Str("m/s^2")) == W(25.0, 4.903325, Units.Member(Units.A))
    ensures W(100.0, 30.0, Units.Member(Units.T)) == Err(Unsupported("Eq.w", "s"))
    ensures W(50.0, 42.0, Units.Member(Units.MASS)) == Err(Unsupported("Eq.w", "kg"))
  {
  }

  /** The numeric rows of the equation test tables whose expected values are
      exact rationals: `Eq.T` from 0.25 Hz and from 3 rpm, `Eq.hz` and
      `Eq.rpm` of their two periods each, `Eq.w` from 10 m/s at 50 m and
      `Eq.a` from 10 m/s at 50 m. */
  lemma NumericTestValues()
    ensures T(0.25, Units.Member(Units.HZ)) == Ok(4.0)
    ensures T(3.0, Units.Member(Units.RPM)) == Ok(20.0)
    ensures Hz(0.25) == 4.0 && Hz(4.0) == 0.25
    ensures Rpm(10.0) == 6.0 && Rpm(3.0) == 20.0
    ensures W(50.0, 10.0, Units.Member(Units.V_LIN)) == Ok(0.2)
    ensures A(50.0, 10.0, Units.Member(Units.V_LIN)) == Ok(2.0)
  {
  }

  /** The same for `Eq.a`. */
  lemma AccelTestUnits()
    ensures A(50.0, 42.0, Units.Member(Units.MASS)) == Err(Unsupported("Eq.a", "kg"))
    ensures A(50.0, 42.0, Units.Str("palm/s")) == Err(NotAValidUnit("palm/s"))
  {
  }
}
