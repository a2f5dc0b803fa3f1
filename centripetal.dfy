/** `rotation_properties`: the full set of uniform-circular-motion quantities
    from a radius and one driving quantity in any of seven units. */
module Centripetal {
  import opened PyMath
  import opened Errors
  import Units
  import opened Eq

  /** The dictionary `{'r', 'a', 'v', 'w', 'T'}` the orchestrator returns:
      radius (m), centripetal acceleration (m/s^2), tangential velocity
      (m/s), angular velocity (rad/s) and rotation period (s). */
  datatype Props = Props(r: real, a: real, v: real, w: real, T: real)

  /** The units `rotation_properties` has a branch for. */
  const ROTATION_UNITS: set<Units.Unit> :=
    {Units.G, Units.A, Units.V_LIN, Units.V_ANG, Units.V_ANG_DEG, Units.T, Units.RPM}

  /** The relations of uniform circular motion that every bundle satisfies,
      whichever quantity drove it: `v = w r`, `a = v^2 / r = w^2 r = v w`
      and `T = 2 pi / w = 2 pi r / v`, the quotients written as products
      with the (non-zero) divisor. */
  ghost predicate Consistent(p: Props) {
    && p.r != 0.0 && p.v != 0.0 && p.w != 0.0
    && p.v == p.w * p.r
    && p.a * p.r == p.v * p.v
    && p.a == p.w * p.w * p.r
    && p.a == p.v * p.w
    && p.T * p.w == TAU
    && p.T * p.v == TAU * p.r
  }

  /** The quotient forms the equations compute: `a = v^2 / r`,
      `T = 2 pi / w` and `T = 2 pi r / v`. */
  lemma ConsistentQuotients(p: Props)
    requires Consistent(p)
    ensures p.a == p.v * p.v / p.r
    ensures p.T == TAU / p.w
    ensures p.T == TAU * p.r / p.v
  {
    CancelFactor(p.a, p.v * p.v / p.r, p.r);
    CancelFactor(p.T, TAU / p.w, p.w);
    CancelFactor(p.T, TAU * p.r / p.v, p.v);
  }

  /** Every quantity of the bundle is positive. */
  ghost predicate Positive(p: Props) {
    p.r > 0.0 && p.a > 0.0 && p.v > 0.0 && p.w > 0.0 && p.T > 0.0
  }

  /** Three relations (`a r = v^2`, one circumference per period, one turn
      per period) give all the others. */
  lemma ConsistentFrom(p: Props)
    requires p.r != 0.0 && p.v != 0.0 && p.T != 0.0
    requires p.a * p.r == p.v * p.v && p.T * p.v == TAU * p.r && p.w * p.T == TAU
    ensures Consistent(p)
  {
    assert p.v * p.T == (p.w * p.r) * p.T;
    CancelFactor(p.v, p.w * p.r, p.T);
    assert p.w != 0.0;
    assert p.a * p.r == (p.w * p.w * p.r) * p.r;
    CancelFactor(p.a, p.w * p.w * p.r, p.r);
    assert p.a * p.r == (p.v * p.w) * p.r;
    CancelFactor(p.a, p.v * p.w, p.r);
  }

  /** A bundle with a positive radius, speed and acceleration and one
      circumference and one turn per period is positive throughout. */
  lemma PositiveFrom(p: Props)
    requires p.r > 0.0 && p.v > 0.0 && p.a > 0.0
    requires p.T * p.v == TAU * p.r && p.w * p.T == TAU
    ensures Positive(p)
  {
    PositiveProduct(TAU, p.r);
    PositiveFactor(p.T, p.v);
    PositiveFactor(p.w, p.T);
  }

  /** A consistent bundle with a positive radius and a positive angular
      velocity is positive throughout. */
  lemma ConsistentPositive(p: Props)
    requires Consistent(p) && p.r > 0.0 && p.w > 0.0
    ensures Positive(p)
  {
    PositiveProduct(p.w, p.r);
    PositiveProduct(p.v, p.w);
    PositiveFactor(p.T, p.w);
  }

  /** The chain shared by the `G` and `A` branches, from the acceleration
      `a`: `v = Eq.v(r, a, A)`, `T = Eq.T_rv(r, v)`, `w = Eq.omega(T)`. */
  ghost function FromAccel(r: real, a: real): (p: Props)
    requires a * r > 0.0
    ensures p.r == r && p.a == a
    ensures HasSqrt(a * r) ==> Consistent(p)
    ensures r > 0.0 && a > 0.0 ==> Positive(p)
  {
    var v := V(r, a, Units.Member(Units.A)).value;
    var T := TRv(r, v);
    var w := Omega(T);
    var p := Props(r, a, v, w, T);
    assert v > 0.0;
    if HasSqrt(a * r) then ConsistentFrom(p); p
    else if r > 0.0 && a > 0.0 then PositiveFrom(p); p
    else p
  }

  /** The `V_LIN` branch: `a = Eq.a(r, v, V_LIN)`, `T = Eq.T_rv(r, v)`,
      `w = Eq.omega(T)`. */
  ghost function FromVelocity(r: real, v: real): (p: Props)
    requires r != 0.0 && v != 0.0
    ensures p.r == r && p.v == v
    ensures Consistent(p)
    ensures r > 0.0 && v > 0.0 ==> Positive(p)
  {
    var a := A(r, v, Units.Member(Units.V_LIN)).value;
    var T := TRv(r, v);
    var w := Omega(T);
    var p := Props(r, a, v, w, T);
    ConsistentFrom(p);
    p
  }

  /** The `V_ANG` branch, and the `V_ANG_DEG` one after converting to
      radians: `v = Eq.v(r, w, V_ANG)`, `a = Eq.a(r, v, V_LIN)`,
      `T = Eq.T_rv(r, v)`. */
  ghost function FromOmega(r: real, w: real): (p: Props)
    requires r != 0.0 && w != 0.0
    ensures p.r == r && p.w == w
    ensures Consistent(p)
    ensures r > 0.0 && w > 0.0 ==> Positive(p)
  {
    var v := V(r, w, Units.Member(Units.V_ANG)).value;
    var a := A(r, v, Units.Member(Units.V_LIN)).value;
    var T := TRv(r, v);
    var p := Props(r, a, v, w, T);
    assert T * w * r == TAU * r;
    CancelFactor(w * T, TAU, r);
    ConsistentFrom(p);
    if r > 0.0 && w > 0.0 then ConsistentPositive(p); p else p
  }

  /** The `T` branch: `v = Eq.v(r, T, T)`, `a = Eq.a(r, v, V_LIN)`,
      `w = Eq.omega(T)`. */
  ghost function FromPeriod(r: real, T: real): (p: Props)
    requires r != 0.0 && T != 0.0
    ensures p.r == r && p.T == T
    ensures Consistent(p)
    ensures r > 0.0 && T > 0.0 ==> Positive(p)
  {
    var v := V(r, T, Units.Member(Units.T)).value;
    var a := A(r, v, Units.Member(Units.V_LIN)).value;
    var w := Omega(T);
    var p := Props(r, a, v, w, T);
    ConsistentFrom(p);
    p
  }

  /** The `RPM` branch: `T = Eq.T(n, RPM)`, then `v = 2 pi r / T` written out,
      `a = Eq.a(r, v, V_LIN)`, `w = Eq.omega(T)`. */
  ghost function FromRpm(r: real, n: real): (p: Props)
    requires r != 0.0 && n != 0.0
    ensures p.r == r && p.T * n == 60.0
    ensures Consistent(p)
    ensures r > 0.0 && n > 0.0 ==> Positive(p)
  {
    var T := Eq.T(n, Units.Member(Units.RPM)).value;
    var v := (TAU * r) / T;
    var a := A(r, v, Units.Member(Units.V_LIN)).value;
    var w := Omega(T);
    var p := Props(r, a, v, w, T);
    ConsistentFrom(p);
    p
  }

  /** Where the branch for the member `u` neither divides by zero nor takes
      the root of a negative number. */
  predicate DefinedFor(r: real, x: real, u: Units.Unit) {
    if u == Units.G then Accel(x) * r > 0.0
    else if u == Units.A then x * r > 0.0
    else u in ROTATION_UNITS ==> r != 0.0 && x != 0.0
  }

  predicate Defined(r: real, x: real, xunits: Units.Obj) {
    Units.ToEnum(xunits).Ok? ==> DefinedFor(r, x, Units.ToEnum(xunits).value)
  }

  /** The square root the acceleration branches take exists. */
  ghost predicate RootExists(r: real, x: real, u: Units.Unit) {
    && (u == Units.G ==> HasSqrt(Accel(x) * r))
    && (u == Units.A ==> HasSqrt(x * r))
  }

  /** The dispatch of `rotation_properties` on the normalised unit `u`. */
  ghost function Derive(r: real, x: real, u: Units.Unit): (p: Result<Props>)
    requires DefinedFor(r, x, u)
    ensures p.Ok? <==> u in ROTATION_UNITS
    ensures p.Err? ==> p.error == Unsupported("rotation_properties", Units.Value(u))
    ensures p.Ok? ==> p.value.r == r
    ensures u == Units.G ==> p.value.a == Accel(x)
    ensures u == Units.A ==> p.value.a == x
    ensures u == Units.V_LIN ==> p.value.v == x
    ensures u == Units.V_ANG ==> p.value.w == x
    ensures u == Units.V_ANG_DEG ==> p.value.w == Radians(x)
    ensures u == Units.T ==> p.value.T == x
    ensures u == Units.RPM ==> p.value.T * x == 60.0
  {
    if u == Units.G then Ok(FromAccel(r, Accel(x)))
    else if u == Units.A then Ok(FromAccel(r, x))
    else if u == Units.V_LIN then Ok(FromVelocity(r, x))
    else if u == Units.V_ANG then Ok(FromOmega(r, x))
    else if u == Units.V_ANG_DEG then Ok(FromOmega(r, Radians(x)))
    else if u == Units.T then Ok(FromPeriod(r, x))
    else if u == Units.RPM then Ok(FromRpm(r, x))
    else Err(Unsupported("rotation_properties", Units.ToValue(Units.Member(u))))
  }

  /** `rotation_properties(r, x, xunits)`: normalise the unit, then run its
      branch. */
  ghost function RotationProperties(r: real, x: real, xunits: Units.Obj): (p: Result<Props>)
    requires Defined(r, x, xunits)
    ensures Units.Dispatches("rotation_properties", ROTATION_UNITS, xunits, p)
    ensures p.Ok? ==> p.value.r == r
  {
    var u :- Units.ToEnum(xunits);
    Derive(r, x, u)
  }

  /** Whatever branch produced it, a bundle is consistent. */
  lemma BundleConsistent(r: real, x: real, xunits: Units.Obj)
    requires Defined(r, x, xunits) && Units.ResolvesIn(xunits, ROTATION_UNITS)
    requires RootExists(r, x, Units.ToEnum(xunits).value)
    ensures RotationProperties(r, x, xunits).Ok?
    ensures Consistent(RotationProperties(r, x, xunits).value)
  {
    var u := Units.ToEnum(xunits).value;
    if u == Units.A {
      assert HasSqrt(x * r);
      assert Consistent(FromAccel(r, x));
    }
    assert RotationProperties(r, x, xunits) == Derive(r, x, u);
    if u == Units.G {
      assert HasSqrt(Accel(x) * r);
    }
  }

  /** With a positive radius and a positive driving quantity, every branch
      is defined and every quantity of its bundle is positive. */
  lemma BundlePositive(r: real, x: real, xunits: Units.Obj)
    requires r > 0.0 && x > 0.0 && Units.ResolvesIn(xunits, ROTATION_UNITS)
    ensures Defined(r, x, xunits)
    ensures RotationProperties(r, x, xunits).Ok?
    ensures Positive(RotationProperties(r, x, xunits).value)
  {
    var u := Units.ToEnum(xunits).value;
    assert Accel(x) > 0.0;
    assert Accel(x) * r > 0.0 && x * r > 0.0;
    assert RotationProperties(r, x, xunits) == Derive(r, x, u);
    if u == Units.V_ANG_DEG {
      assert Radians(x) > 0.0;
    } else if u == Units.RPM {
      assert FromRpm(r, x).T > 0.0;
    }
  }

  /** A consistent bundle is fixed by its radius and its velocity. */
  lemma SameBundle(p: Props, q: Props)
    requires Consistent(p) && Consistent(q) && p.r == q.r && p.v == q.v
    ensures p == q
  {
    CancelFactor(p.w, q.w, p.r);
    CancelFactor(p.T, q.T, p.w);
  }

  /** The seven (quantity, unit) pairs the equivalence test re-enters a
      bundle with: its acceleration in m/s^2 and in g's, its velocity, its
      angular velocity in rad/s and in deg/s, its period, and its rpm. */
  function Views(p: Props): (vs: seq<(real, Units.Obj)>)
    requires p.T != 0.0
    ensures |vs| == 7
  {
    [ (p.a, Units.Member(Units.A)), (Stdg(p.a), Units.Member(Units.G)),
      (p.v, Units.Member(Units.V_LIN)),
      (p.w, Units.Member(Units.V_ANG)), (Degrees(p.w), Units.Member(Units.V_ANG_DEG)),
      (p.T, Units.Member(Units.T)),
      (Rpm(p.T), Units.Member(Units.RPM)) ]
  }

  /** Re-deriving a bundle from any one of its views gives it back. */
  lemma Rederive(p: Props)
    requires Consistent(p) && Positive(p)
    ensures forall i :: 0 <= i < |Views(p)| ==>
      Defined(p.r, Views(p)[i].0, Views(p)[i].1) &&
      RotationProperties(p.r, Views(p)[i].0, Views(p)[i].1) == Ok(p)
  {
    forall i | 0 <= i < |Views(p)|
      ensures Defined(p.r, Views(p)[i].0, Views(p)[i].1)
      ensures RotationProperties(p.r, Views(p)[i].0, Views(p)[i].1) == Ok(p)
    {
      RederiveView(p, i);
    }
  }

  lemma RederiveView(p: Props, i: nat)
    requires Consistent(p) && Positive(p) && i < 7
    ensures Defined(p.r, Views(p)[i].0, Views(p)[i].1)
    ensures RotationProperties(p.r, Views(p)[i].0, Views(p)[i].1) == Ok(p)
  {
    if i < 4 {
      RederiveAccelOrSpeed(p, i);
    } else {
      RederiveTurnRate(p, i);
    }
  }

  /** The views by acceleration (m/s^2 and g's), by velocity and by angular
      velocity in rad/s. */
  lemma RederiveAccelOrSpeed(p: Props, i: nat)
    requires Consistent(p) && Positive(p) && i < 4
    ensures Defined(p.r, Views(p)[i].0, Views(p)[i].1)
    ensures RotationProperties(p.r, Views(p)[i].0, Views(p)[i].1) == Ok(p)
  {
    var r := p.r;
    if i == 0 {
      RederiveFromAccel(p);
      assert RotationProperties(r, p.a, Units.Member(Units.A)) == Ok(FromAccel(r, p.a));
    } else if i == 1 {
      RederiveFromAccel(p);
      AccelStdg(p.a);
      assert RotationProperties(r, Stdg(p.a), Units.Member(Units.G)) == Ok(FromAccel(r, Accel(Stdg(p.a))));
    } else if i == 2 {
      RederiveFromVelocity(p);
      assert RotationProperties(r, p.v, Units.Member(Units.V_LIN)) == Ok(FromVelocity(r, p.v));
    } else {
      RederiveFromOmega(p);
      assert RotationProperties(r, p.w, Units.Member(Units.V_ANG)) == Ok(FromOmega(r, p.w));
    }
  }

  /** The views by angular velocity in deg/s, by period and by rpm. */
  lemma RederiveTurnRate(p: Props, i: nat)
    requires Consistent(p) && Positive(p) && 4 <= i < 7
    ensures Defined(p.r, Views(p)[i].0, Views(p)[i].1)
    ensures RotationProperties(p.r, Views(p)[i].0, Views(p)[i].1) == Ok(p)
  {
    var r := p.r;
    if i == 4 {
      RederiveFromOmega(p);
      RadiansDegrees(p.w);
      assert Degrees(p.w) != 0.0;
      assert RotationProperties(r, Degrees(p.w), Units.Member(Units.V_ANG_DEG))
          == Ok(FromOmega(r, Radians(Degrees(p.w))));
    } else if i == 5 {
      RederiveFromPeriod(p);
      assert RotationProperties(r, p.T, Units.Member(Units.T)) == Ok(FromPeriod(r, p.T));
    } else {
      RederiveFromRpm(p);
      assert Rpm(p.T) != 0.0;
      assert RotationProperties(r, Rpm(p.T), Units.Member(Units.RPM)) == Ok(FromRpm(r, Rpm(p.T)));
    }
  }

  lemma RederiveFromAccel(p: Props)
    requires Consistent(p) && Positive(p)
    ensures p.a * p.r > 0.0 && FromAccel(p.r, p.a) == p
  {
    ConsistentProducts(p);
    SpeedFromSquare(p.r, p.a, p.v);
    SameBundle(FromAccel(p.r, p.a), p);
  }

  /** The acceleration chain recovers a positive speed from its square. */
  lemma SpeedFromSquare(r: real, a: real, v: real)
    requires r > 0.0 && a > 0.0 && v > 0.0 && a * r == v * v
    ensures a * r > 0.0
    ensures HasSqrt(a * r)
    ensures FromAccel(r, a).v == v
  {
    SqrtOfSquare(v);
    PositiveProduct(a, r);
    assert V(r, a, Units.Member(Units.A)) == Ok(Sqrt(a * r));
  }

  /** The three product relations of a consistent bundle that the chains
      are proved against. A solver hint: it brings just these conjuncts of
      `Consistent` into scope where unfolding all of it is too costly. */
  lemma ConsistentProducts(p: Props)
    requires Consistent(p)
    ensures p.a * p.r == p.v * p.v && p.T * p.v == TAU * p.r && p.w * p.T == TAU
  {
  }

  lemma RederiveFromVelocity(p: Props)
    requires Consistent(p)
    ensures FromVelocity(p.r, p.v) == p
  {
    SameBundle(FromVelocity(p.r, p.v), p);
  }

  lemma RederiveFromOmega(p: Props)
    requires Consistent(p)
    ensures FromOmega(p.r, p.w) == p
  {
    SameBundle(FromOmega(p.r, p.w), p);
  }

  lemma RederiveFromPeriod(p: Props)
    requires Consistent(p) && Positive(p)
    ensures FromPeriod(p.r, p.T) == p
  {
    var q := FromPeriod(p.r, p.T);
    assert q.v * p.T == TAU * p.r;
    assert p.v * p.T == TAU * p.r;
    CancelFactor(q.v, p.v, p.T);
    SameBundle(q, p);
  }

  lemma RederiveFromRpm(p: Props)
    requires Consistent(p) && Positive(p)
    ensures FromRpm(p.r, Rpm(p.T)) == p
  {
    var n := Rpm(p.T);
    var q := FromRpm(p.r, n);
    CancelFactor(q.T, p.T, n);
    assert q.v * p.T == TAU * p.r;
    assert p.v * p.T == TAU * p.r;
    CancelFactor(q.v, p.v, p.T);
    SameBundle(q, p);
  }

  /** The equivalence test: the bundle for `g` standard g's at radius `r`
      is reproduced from each of its seven views. */
  lemma PropsEquivalence(r: real, g: real)
    requires r > 0.0 && g > 0.0 && HasSqrt(Accel(g) * r)
    ensures Defined(r, g, Units.Member(Units.G))
    ensures RotationProperties(r, g, Units.Member(Units.G)).Ok?
    ensures var p := RotationProperties(r, g, Units.Member(Units.G)).value;
      forall i :: 0 <= i < |Views(p)| ==>
        Defined(r, Views(p)[i].0, Views(p)[i].1) &&
        RotationProperties(r, Views(p)[i].0, Views(p)[i].1) == Ok(p)
  {
    BundlePositive(r, g, Units.Member(Units.G));
    BundleConsistent(r, g, Units.Member(Units.G));
    Rederive(RotationProperties(r, g, Units.Member(Units.G)).value);
  }

  /** An angular velocity in degrees per second gives the same bundle as the
      same angular velocity in radians per second. */
  lemma DegreesRadiansEquivalence(r: real, w: real)
    requires r != 0.0 && w != 0.0
    ensures Degrees(w) != 0.0
    ensures RotationProperties(r, Degrees(w), Units.Member(Units.V_ANG_DEG))
         == RotationProperties(r, w, Units.Member(Units.V_ANG))
  {
    RadiansDegrees(w);
  }

  /** Units the equations know but the orchestrator has no branch for are
      rejected, even `HZ`, which `Eq.T` accepts. */
  lemma RotationRejects(r: real, x: real)
    ensures Units.HZ in T_UNITS && Units.HZ !in ROTATION_UNITS
    ensures RotationProperties(r, x, Units.Member(Units.HZ)) == Err(Unsupported("rotation_properties", "hz"))
    ensures RotationProperties(r, x, Units.Member(Units.KPH)) == Err(Unsupported("rotation_properties", "kph"))
    ensures RotationProperties(r, x, Units.Member(Units.MASS)) == Err(Unsupported("rotation_properties", "kg"))
    ensures RotationProperties(r, x, Units.Member(Units.LEN)) == Err(Unsupported("rotation_properties", "m"))
  {
  }

  /** A 100 m radius turning once every 30 s. */
  lemma PeriodScenario(r: real, x: real)
    requires r == 100.0 && x == 30.0
    ensures Defined(r, x, Units.Member(Units.T))
    ensures RotationProperties(r, x, Units.Member(Units.T)).Ok?
    ensures var p := RotationProperties(r, x, Units.Member(Units.T)).value;
      && p.r == 100.0 && p.T == 30.0
      && 20.943 < p.v < 20.944 && 4.386 < p.a < 4.387 && 0.2094 < p.w < 0.2095
  {
    PeriodBranch(r, x);
    var p := FromPeriod(r, x);
    ConsistentProducts(p);
    PeriodBounds(p);
    assert RotationProperties(r, x, Units.Member(Units.T)) == Ok(p);
  }

  /** The `T` branch is the period chain. */
  lemma PeriodBranch(r: real, x: real)
    requires r != 0.0 && x != 0.0
    ensures RotationProperties(r, x, Units.Member(Units.T)) == Ok(FromPeriod(r, x))
  {
  }

  lemma PeriodBounds(p: Props)
    requires p.r == 100.0 && p.T == 30.0
    requires p.a * p.r == p.v * p.v && p.T * p.v == TAU * p.r && p.w * p.T == TAU
    ensures 20.943 < p.v < 20.944 && 4.386 < p.a < 4.387 && 0.2094 < p.w < 0.2095
  {
    Tighten(p.v, p.T, 628.3185307179586, 20.943, 20.944);
    SquareBetween(p.v, 20.943, 20.944);
    Tighten(p.a, p.r, p.v * p.v, 4.386, 4.387);
    Tighten(p.w, p.T, TAU, 0.2094, 0.2095);
  }

  /** One standard g at a 50 m radius, where `v` is the root of `accel(1) * 50`. */
  lemma GravityScenario(r: real, g: real, v: real)
    requires r == 50.0 && g == 1.0 && IsSqrt(Accel(g) * r, v)
    ensures Defined(r, g, Units.Member(Units.G))
    ensures RotationProperties(r, g, Units.Member(Units.G)).Ok?
    ensures var p := RotationProperties(r, g, Units.Member(Units.G)).value;
      && p.r == 50.0 && p.a == 9.80665 && p.v == v
      && 22.143 < p.v < 22.144 && 14.187 < p.T < 14.188 && 0.4428 < p.w < 0.4429
  {
    assert Accel(g) == 9.80665;
    AccelChainBounds(r, Accel(g), v, 22.143, 22.144, 14.187, 14.188, 0.4428, 0.4429);
    GravityBranch(r, g);
  }

  /** The acceleration chain's speed is the root of `a * r`, and the bundle
      satisfies the product forms of its relations. */
  lemma AccelChainRoot(r: real, a: real, v: real)
    requires a * r > 0.0 && IsSqrt(a * r, v)
    ensures var p := FromAccel(r, a);
      && p.r == r && p.a == a && p.v == v && v > 0.0
      && v * v == a * r && p.T * v == TAU * r && p.w * p.T == TAU
  {
    SqrtUnique(a * r, v);
    ConsistentProducts(FromAccel(r, a));
  }

  /** Bounds for a speed, a period and an angular velocity with `v * v == s`
      and `t * v == c`: the speed bounds bracket the root of `s`, and the
      period and angular velocity bounds the quotients the speed and period
      bounds give. */
  predicate Brackets(s: real, c: real, vlo: real, vhi: real, tlo: real, thi: real, wlo: real, whi: real) {
    && 0.0 < vlo && 0.0 < vhi && vlo * vlo < s < vhi * vhi
    && 0.0 < tlo && tlo * vhi <= c <= thi * vlo
    && 0.0 < wlo && wlo * thi <= TAU <= whi * tlo
  }

  /** `v`, `t` and `w` lie strictly inside their bounds. */
  predicate Within(v: real, t: real, w: real, vlo: real, vhi: real, tlo: real, thi: real, wlo: real, whi: real) {
    vlo < v < vhi && tlo < t < thi && wlo < w < whi
  }

  /** Bounds on the acceleration chain's speed, period and angular velocity
      from bounds on `a * r`. */
  lemma AccelChainBounds(r: real, a: real, v: real,
                         vlo: real, vhi: real, tlo: real, thi: real, wlo: real, whi: real)
    requires a * r > 0.0 && IsSqrt(a * r, v)
    requires Brackets(a * r, TAU * r, vlo, vhi, tlo, thi, wlo, whi)
    ensures FromAccel(r, a).v == v
    ensures Within(FromAccel(r, a).v, FromAccel(r, a).T, FromAccel(r, a).w, vlo, vhi, tlo, thi, wlo, whi)
  {
    AccelChainRoot(r, a, v);
    var p := FromAccel(r, a);
    BoundsFromProducts(a * r, TAU * r, v, p.T, p.w, vlo, vhi, tlo, thi, wlo, whi);
  }

  /** The arithmetic behind `AccelChainBounds`, for `v * v == s`,
      `t * v == c` and `w * t == TAU` with positive `v`. */
  lemma BoundsFromProducts(s: real, c: real, v: real, t: real, w: real,
                           vlo: real, vhi: real, tlo: real, thi: real, wlo: real, whi: real)
    requires v > 0.0 && v * v == s && t * v == c && w * t == TAU
    requires Brackets(s, c, vlo, vhi, tlo, thi, wlo, whi)
    ensures Within(v, t, w, vlo, vhi, tlo, thi, wlo, whi)
  {
    RootBetween(v, vlo, vhi);
    PositiveProduct(tlo, vhi - v);
    PositiveProduct(thi, v - vlo);
    Tighten(t, v, c, tlo, thi);
    PositiveProduct(wlo, thi - t);
    PositiveProduct(whi, t - tlo);
    Tighten(w, t, TAU, wlo, whi);
  }

  /** The `G` branch is the acceleration chain on `accel(g)`. */
  lemma GravityBranch(r: real, g: real)
    requires Accel(g) * r > 0.0
    ensures RotationProperties(r, g, Units.Member(Units.G)) == Ok(FromAccel(r, Accel(g)))
  {
  }
}
