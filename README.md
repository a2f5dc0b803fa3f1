# Centripetal motion: units, equations and `rotation_properties`

A Dafny model of the uniform-circular-motion engine in
`src/python/necker/physics/centripetal.py`, with proofs about it. The engine
has three layers, and the model has one module for each, plus two support
modules:

- `Units` (`units.dfy`): the `Units` enumeration and its normalisers `toenum`
  and `tovalue`.
  - The class body declares fifteen names. A name declared with a value that
    an earlier name already has is an alias of that earlier member, so there
    are twelve members.
  - `V_LIN` is `V`, `V_ANG` is `W` and `T` is `TIME`. The model writes these
    as constants.
  - Units can be passed as a member, as a string, or as any other object. The
    datatype `Obj` covers all three.
- `Eq` (`eq.dfy`): the equations.
  - Straight-line conversions: `stdg`, `accel`, `hz`, `rpm`, `omega`, `T_rv`
    and `kph`.
  - Four equations that dispatch on a unit tag: `T`, `v`, `w` and `a`. Each
    normalises its unit and runs the branch for it; any other member raises
    "units not supported".
- `Centripetal` (`centripetal.dfy`): `rotation_properties`. It normalises the
  unit, then runs one of seven derivation chains through `Eq`, and returns the
  bundle `{r, a, v, w, T}` (the datatype `Props`).
- `Errors` (`errors.dfy`): the three kinds of `ValueError` and their messages,
  and a `Result` type. With `:-`, a `Result` propagates the error the way an
  uncaught exception does.
- `PyMath` (`pymath.dfy`): the parts of Python's `math` module that are used
  (`tau`, `pi`, `sqrt`, `radians`, `degrees`), over exact reals.

The proofs cover the following:

- **`toenum`**: left inverse of `.value` on strings, identity on members, and
  its errors.
- **`tovalue`**: totality.
- **`stdg` and `accel`**: mutual inverses.
- **Dispatching equations**: each accepts exactly its units and names itself
  in the error for every other unit.
- **Inversions**: `Eq.T` inverts `hz`, `rpm` and `omega`.
- **Derivation paths**: different paths through the equations agree.
- **The bundle**: every bundle satisfies the relations of circular motion,
  and is positive for positive inputs.
- **Round trip**: each of the seven views of a bundle (as in
  `test_props_equiv`) re-derives that same bundle.
- **Worked cases**: the test tables, and two numeric scenarios.

Quantities are Dafny `real`s, not doubles:

- `math.tau` is the decimal Python prints, 6.283185307179586, and `pi` is
  half of it.
- Standard gravity is 9.80665.
- Python's `ZeroDivisionError` and the `math.sqrt` domain error become
  preconditions. Each is stated for exactly the branch that divides or takes
  the root. For example, `Eq.T` needs `x != 0` only when the unit is one it
  accepts: for any other unit, the source raises "units not supported" before
  it divides.

## Model

| member | source | states |
|---|---|---|
| Units.Value | src/python/necker/physics/centripetal.py:46-60 | each of the twelve members carries the value string its declaration gives it ('si', 'm', 's', 'kg', 'm/s', 'rad/s', 'deg/s', 'm/s^2', 'g', 'hz', 'rpm', 'kph'); aliases carry their member's value |
| Units.ValueInjective | src/python/necker/physics/centripetal.py:44-60 | no two distinct members share a value, which is what the alias declarations leave: twelve members, with V_LIN, V_ANG and T as the constants V, W and TIME |
| Units.FromValue | src/python/necker/physics/centripetal.py:68 | looking up a string finds a member whose value is that string, or fails with "not a valid Units" exactly when no member has that value |
| Units.ToEnum | src/python/necker/physics/centripetal.py:63-70 | a member is returned unchanged; a string resolves to a member with that value or fails with NotAValidUnit when none has it; any other object fails with CannotConvert carrying its repr |
| Units.ToEnumString | src/python/necker/physics/centripetal.py:63-70 | a string resolves to member u if and only if it is u's value |
| Units.ToValue | src/python/necker/physics/centripetal.py:73-80 | total: the value of what the object resolves to, the string itself, or the object's str |
| Units.ToEnumToValue | src/python/necker/physics/centripetal.py:63-80 | re-normalising a resolved member gives it back, and resolving the tovalue string gives the same member |
| Units.ToEnumExamples | src/python/necker/physics/centripetal.py:301-387 | 's' resolves to T (= TIME) and 'm/s' to V_LIN (= V); 'hz' and 'm/s^2' resolve; 'anon', 'atom' and 'palm/s' fail with NotAValidUnit |
| Eq.Stdg | src/python/necker/physics/centripetal.py:87-97 | the result in g's times g_n = 9.80665 is the acceleration |
| Eq.Accel | src/python/necker/physics/centripetal.py:100-110 | the acceleration divided by g_n is the number of g's |
| Eq.StdgAccel | src/python/necker/physics/centripetal.py:87-110 | stdg(accel(g)) == g |
| Eq.AccelStdg | src/python/necker/physics/centripetal.py:87-110 | accel(stdg(a)) == a |
| Eq.T | src/python/necker/physics/centripetal.py:113-132 | accepts exactly HZ, V_ANG and RPM and otherwise passes on toenum's error or raises "Eq.T(): '<value>' units not supported"; the period times the rate is 1, tau and 60 respectively |
| Eq.Hz | src/python/necker/physics/centripetal.py:135-137 | frequency times period is one |
| Eq.Rpm | src/python/necker/physics/centripetal.py:140-142 | rpm times period is sixty |
| Eq.Omega | src/python/necker/physics/centripetal.py:145-147 | angular velocity times period is one turn, tau |
| Eq.PeriodFromRates | src/python/necker/physics/centripetal.py:125-147 | for a non-zero period P: T(hz(P), HZ) == T(rpm(P), RPM) == T(omega(P), V_ANG) == P |
| Eq.TRv | src/python/necker/physics/centripetal.py:150-152 | period times velocity is one circumference, tau r |
| Eq.Kph | src/python/necker/physics/centripetal.py:154-156 | k * 1000 == v * 3600: one m/s is 3.6 km/h |
| Eq.V | src/python/necker/physics/centripetal.py:159-180 | accepts exactly V_ANG, A and T and otherwise passes on toenum's error or raises the "Eq.v" error; from V_ANG v == w r; from A the speed is a non-negative root of x r, positive when x r is; from T the speed times the period is tau r |
| Eq.W | src/python/necker/physics/centripetal.py:183-202 | accepts exactly V_LIN and A and otherwise raises the "Eq.w" error; from V_LIN w r == v; from A the result times sqrt(x r) is x, so it has the sign of x, and w^2 r == a wherever x r has a root |
| Eq.A | src/python/necker/physics/centripetal.py:205-226 | accepts exactly V_LIN, V_ANG and T and otherwise raises the "Eq.a" error; from V_LIN a r == v^2; from V_ANG a == w^2 r; from T a T^2 == tau^2 r |
| Eq.AccelViaVelocityFromOmega | src/python/necker/physics/centripetal.py:173-222 | a(r, w, V_ANG) == a(r, v(r, w, V_ANG), V_LIN) |
| Eq.AccelViaVelocityFromPeriod | src/python/necker/physics/centripetal.py:177-224 | a(r, P, T) == a(r, v(r, P, T), V_LIN) |
| Eq.OmegaViaVelocityFromAccel | src/python/necker/physics/centripetal.py:175-200 | w(r, a, A) == w(r, v(r, a, A), V_LIN) |
| Eq.PeriodViaVelocity | src/python/necker/physics/centripetal.py:150-178 | the speed derived from a period is non-zero and T_rv(r, v(r, P, T)) == P |
| Eq.PeriodTestUnits | src/python/necker/physics/centripetal.py:301-302 | T(5, 'hz') == 0.2; T(42, MASS) raises "Eq.T(): 'kg' units not supported"; T(10, 'anon') fails in toenum |
| Eq.VelocityTestUnits | src/python/necker/physics/centripetal.py:358-360 | v with 's' is v with T; LEN raises the "Eq.v" error naming 'm'; 'atom' fails in toenum |
| Eq.OmegaTestUnits | src/python/necker/physics/centripetal.py:371-373 | w with 'm/s^2' is w with A; T and MASS raise the "Eq.w" error naming 's' and 'kg' |
| Eq.NumericTestValues | src/python/necker/physics/centripetal.py:300-386 | T(0.25, HZ) == 4, T(3, RPM) == 20, hz(0.25) == 4, hz(4) == 0.25, rpm(10) == 6, rpm(3) == 20, w(50, 10, V_LIN) == 0.2 and a(50, 10, V_LIN) == 2 |
| Eq.AccelTestUnits | src/python/necker/physics/centripetal.py:385-387 | a with MASS raises the "Eq.a" error naming 'kg'; 'palm/s' fails in toenum |
| Errors.Message | src/python/necker/physics/centripetal.py:70-84 | the texts of the three ValueErrors: "'<s>' is not a valid Units", "'<repr>' cannot be converted to enum" and "<op>(): '<value>' units not supported" |
| Errors.MessageExamples | src/python/necker/physics/centripetal.py:125-132 | Eq.T on 'kg' gives "Eq.T(): 'kg' units not supported", and 'anon' gives "'anon' is not a valid Units" |
| Errors.RotationMessageExample | src/python/necker/physics/centripetal.py:277-279 | rotation_properties on 'hz' gives "rotation_properties(): 'hz' units not supported" |
| PyMath.Sqrt | src/python/necker/physics/centripetal.py:176 | non-negative, positive for a positive argument, and a root of its argument wherever one exists |
| PyMath.SqrtUnique | src/python/necker/physics/centripetal.py:176 | sqrt returns the only non-negative root |
| PyMath.SqrtOfSquare | src/python/necker/physics/centripetal.py:176 | every square has a root, and sqrt(v * v) == v for v >= 0 |
| PyMath.Radians | src/python/necker/physics/centripetal.py:263 | radians times 180 is degrees times pi |
| PyMath.Degrees | src/python/necker/physics/centripetal.py:413 | degrees times pi is radians times 180 |
| PyMath.RadiansDegrees | src/python/necker/physics/centripetal.py:262-266 | radians and degrees are mutual inverses |
| Centripetal.Consistent | src/python/necker/physics/centripetal.py:4-7 | the key equations of uniform circular motion as one invariant: v == w r, a r == v^2, a == w^2 r == v w, T w == tau and T v == tau r, with r, v and w non-zero |
| Centripetal.ConsistentFrom | src/python/necker/physics/centripetal.py:241-280 | a r == v^2 with one circumference and one turn per period implies every relation of the bundle: v == w r, a == w^2 r == v w |
| Centripetal.ConsistentQuotients | src/python/necker/physics/centripetal.py:219-224 | a consistent bundle has a == v^2 / r, T == tau / w and T == tau r / v |
| Centripetal.FromAccel | src/python/necker/physics/centripetal.py:242-251 | the G and A chain keeps r and a; the bundle is consistent wherever a r has a root, and positive for positive r and a |
| Centripetal.FromVelocity | src/python/necker/physics/centripetal.py:252-256 | the V_LIN chain keeps r and v, is consistent, and is positive for positive inputs |
| Centripetal.FromOmega | src/python/necker/physics/centripetal.py:257-266 | the V_ANG chain (and V_ANG_DEG after radians) keeps r and w, is consistent, and is positive for positive inputs |
| Centripetal.FromPeriod | src/python/necker/physics/centripetal.py:267-271 | the T chain keeps r and T, is consistent, and is positive for positive inputs |
| Centripetal.FromRpm | src/python/necker/physics/centripetal.py:272-276 | the RPM chain keeps r with T n == 60, is consistent, and is positive for positive inputs |
| Centripetal.Derive | src/python/necker/physics/centripetal.py:242-279 | succeeds exactly for G, A, V_LIN, V_ANG, V_ANG_DEG, T and RPM, keeps r and the driving quantity (a == accel(x) for G, a == x for A, v == x for V_LIN, w == x for V_ANG, w == radians(x) for V_ANG_DEG, T == x for T, T x == 60 for RPM), and otherwise raises "rotation_properties(): '<value>' units not supported" |
| Centripetal.RotationProperties | src/python/necker/physics/centripetal.py:228-280 | passes on toenum's error, accepts exactly the seven units and rejects all others with its own error, and keeps r in the bundle |
| Centripetal.BundleConsistent | src/python/necker/physics/centripetal.py:241-280 | for every accepted unit the bundle satisfies v == w r, a r == v^2, a == w^2 r == v w, T w == tau and T v == tau r |
| Centripetal.BundlePositive | src/python/necker/physics/centripetal.py:241-280 | for r > 0 and x > 0 every accepted unit is defined, succeeds, and gives an all-positive bundle |
| Centripetal.SameBundle | src/python/necker/physics/centripetal.py:280 | a consistent bundle is fixed by its r and v |
| Centripetal.Views | src/python/necker/physics/centripetal.py:411-416 | the seven (quantity, unit) pairs of the equivalence test's table: a in A, stdg(a) in G, v in V_LIN, w in V_ANG, degrees(w) in V_ANG_DEG, T in T and rpm(T) in RPM |
| Centripetal.Rederive | src/python/necker/physics/centripetal.py:406-419 | from each of a positive consistent bundle's seven views, rotation_properties gives the bundle back |
| Centripetal.RederiveView | src/python/necker/physics/centripetal.py:411-416 | the same, for the view at index i |
| Centripetal.RederiveAccelOrSpeed | src/python/necker/physics/centripetal.py:411-413 | the same, for the a / A, stdg(a) / G, v / V_LIN and w / V_ANG views |
| Centripetal.RederiveTurnRate | src/python/necker/physics/centripetal.py:413-415 | the same, for the degrees(w) / V_ANG_DEG, T / T and rpm(T) / RPM views |
| Centripetal.RederiveFromAccel | src/python/necker/physics/centripetal.py:247-251 | the acceleration chain on a positive consistent bundle's a gives the bundle |
| Centripetal.SpeedFromSquare | src/python/necker/physics/centripetal.py:249 | the acceleration chain recovers a positive speed v from a r == v^2 |
| Centripetal.RederiveFromVelocity | src/python/necker/physics/centripetal.py:252-256 | the velocity chain on a consistent bundle's v gives the bundle |
| Centripetal.RederiveFromOmega | src/python/necker/physics/centripetal.py:257-261 | the angular-velocity chain on a consistent bundle's w gives the bundle |
| Centripetal.RederiveFromPeriod | src/python/necker/physics/centripetal.py:267-271 | the period chain on a positive consistent bundle's T gives the bundle |
| Centripetal.RederiveFromRpm | src/python/necker/physics/centripetal.py:272-276 | the rpm chain on rpm(T) of a positive consistent bundle gives the bundle |
| Centripetal.PropsEquivalence | src/python/necker/physics/centripetal.py:406-419 | the equivalence test: the bundle for g g's at radius r is reproduced from each of its seven views |
| Centripetal.DegreesRadiansEquivalence | src/python/necker/physics/centripetal.py:257-266 | degrees(w) in V_ANG_DEG gives the same bundle as w in V_ANG |
| Centripetal.RotationRejects | src/python/necker/physics/centripetal.py:277-279 | HZ (which Eq.T accepts), KPH, MASS and LEN raise the rotation_properties error naming 'hz', 'kph', 'kg' and 'm' |
| Centripetal.PeriodBranch | src/python/necker/physics/centripetal.py:267-271 | the T branch is the period chain |
| Centripetal.PeriodScenario | src/python/necker/physics/centripetal.py:267-271 | r = 100 and T = 30 s give v in (20.943, 20.944), a in (4.386, 4.387) and w in (0.2094, 0.2095) |
| Centripetal.GravityBranch | src/python/necker/physics/centripetal.py:242-246 | the G branch is the acceleration chain on accel(g) |
| Centripetal.AccelChainRoot | src/python/necker/physics/centripetal.py:242-251 | the acceleration chain's speed is the root of a r, with one circumference and one turn per period |
| Centripetal.AccelChainBounds | src/python/necker/physics/centripetal.py:242-251 | bounds on the square root of a r bound the chain's speed, period and angular velocity |
| Centripetal.GravityScenario | src/python/necker/physics/centripetal.py:408-410 | one standard g at r = 50 gives a = 9.80665, v in (22.143, 22.144), T in (14.187, 14.188) and w in (0.4428, 0.4429) |

## Left out

- `print_properties`, `test_equations`, `test_props`, `test_props_equiv` and `reference_space_station` are not modelled as code. They format console output and make repeated calls to the modelled equations. Of their data, the lemmas above state: every unit-rejection and string-normalisation row of `test_equations`; its numeric rows whose results are exact rationals (`Eq.NumericTestValues`); the `test_props_equiv` table (`Centripetal.Rederive`, `Centripetal.PropsEquivalence`); and the one-g case at 50 m (`Centripetal.GravityScenario`).
- The numeric rows of `test_equations` whose results involve `tau`, `pi` or a square root are not stated as lemmas: `Eq.T` of `radians(60)` (line 301), `Eq.omega(30)` (line 335), both `Eq.T_rv` rows (line 347), the first three `Eq.v` rows (line 358), the `Eq.w` rows from an acceleration (line 371), and the `Eq.a` rows from `radians(180)` and from a period (lines 385-386). Their results follow from the equations' contracts, but they are only printed, to a rounded precision.
- The Solar System surface gravities other than `g_earth` are not modelled. They are unused constants; only `g_n = g_earth` is.
- IEEE-754 doubles, rounding, and the printed decimal outputs are not modelled. Arithmetic is exact over `real`.
- `math.tau` is modelled as the exact decimal Python prints for it, and `math.pi` as half of it; neither is the transcendental number.
- Python's default arguments (`xunits=Units.HZ` and so on) are not modelled. Every model function takes the unit explicitly.
- `ZeroDivisionError` and the `math.sqrt` domain error are preconditions on the branch that would raise them. They are not modelled as results.
- PyMath.Sqrt: its root property is stated only where a root exists (`HasSqrt`). Dafny's reals have no completeness axiom, so the existence of a root of every non-negative real cannot be proved. Roots are proved to exist for squares (`SqrtOfSquare`).
- Eq.OmegaViaVelocityFromAccel: takes the existence of a root of `a * r` as a precondition, for the reason on the PyMath.Sqrt line.
- Centripetal.BundleConsistent: for `G` and `A` it takes the existence of the root the branch computes as a precondition (`RootExists`), for the reason on the PyMath.Sqrt line.
- Centripetal.PropsEquivalence: takes the existence of a root of `accel(g) * r` as a precondition, for the reason on the PyMath.Sqrt line.
- Centripetal.GravityScenario: takes the root of `accel(1) * 50` as an argument, for the reason on the PyMath.Sqrt line.
- Centripetal.FromAccel: consistency is promised only where `a * r` has a root, for the reason on the PyMath.Sqrt line.
- Eq.V: the relation `v * v == x * r` for the `A` branch is promised only where `x * r` has a root, for the reason on the PyMath.Sqrt line.
- Eq.W: the relation `w * w * r == x` for the `A` branch is promised only where `x * r` has a root, for the reason on the PyMath.Sqrt line. Its sign and value are fixed unconditionally by `w * sqrt(x * r) == x`.
- `Eq.kph` is declared without `@staticmethod`. Calling it through the class, as `print_properties` does, works like a plain function, and the model treats it as one. Calling it on an instance is not modelled.
- Errors.Message: the lookup error quotes the string as `'s'`, while Python's Enum writes `repr(s)`. The two agree for every string without a quote or a backslash, which covers every unit string the source uses; they differ for other strings.
- The text of the `ValueError` for an object that toenum cannot convert embeds `repr(obj)`, and `tovalue` uses `str(obj)`. These strings are modelled as given fields of `Obj`, not computed.
- The comment at line 199 of the source says `v = sqrt(a/r)`, but the code at line 200 computes `x / sqrt(x * r)`. The model follows the code.
- `src/clan/lang.h`, `src/python/necker/pleistocene/sa_flora.py` and `src/python/necker/whatever/termite_poppers.py` are not part of this model. They are declarations and static data for classes that are not available.
