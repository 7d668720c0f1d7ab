# solsim core in Dafny

solsim is a small Python package for simulating a two-dimensional solar system.
This project models its two pieces of logic and proves properties about them:

- **Body construction** (`solsim/solar_system_objects.py`). A solar-system object holds a
  mass in kilograms, a position in AU relative to the focal point, a velocity in km/s,
  and a name. The constructor stores the mass and the name without any check. It rejects a
  supplied position, then a supplied velocity, with `TypeError` when the vector has
  fewer than two elements. An omitted vector is filled with two random values from a fixed
  range: [0.3, 50) AU for positions and [20, 50) km/s for velocities. `Star` pins both
  vectors to zero. `Asteroid` and `Comet` only change the default name. The base class and
  the `Planet` family run the base constructor unchanged.
- **Newton's law of gravitation** (`solsim/gravity.py`): `G * (m1 * m2) / r**2`. A zero
  separation raises `ZeroDivisionError`.

Module `Wrappers` (`wrappers.dfy`) defines `Option` and `Result`. Module `Gravity`
(`gravity.dfy`) models the force as a function that returns a `Result`. `r**2` is written
`Pow(r, 2)` with a recursive `Pow`, so the algebraic lemmas can be proved by induction.
Module `SolarSystemObjects` (`solar_system_objects.dfy`) has two parts:

- `Construct` is the constructor as a value, and `Create` and `CreateStar` are its
  per-class entry points.
- The class `SolarSystemObject` has an imperative `Init`. It assigns the attributes in the
  constructor's order and returns early on a bad shape. Its contract ties the object's
  state to `Construct`, including the attributes already assigned when it raises.
  `New` and `NewStar` allocate an object and run `Init`.

The random generator becomes an injected value: each `np.random.rand(2)` call is a pair of
draws in [0, 1) (`Rand2`).

In two places the code and the class documentation disagree, and the model follows the code:

- The `Planet` classes document the default name "Planet", but their alternative signature is
  declared as `__index__` and never runs. They get "Object".
- Masses are described as masses in kilograms, but nothing checks their sign.

## Model

| member | source | states |
|---|---|---|
| Gravity.UniversalGravity | solsim/gravity.py:4-24 | fails with ZeroDivisionError exactly when r = 0; otherwise the force f satisfies f * r^2 = G * (m1 * m2), with G a parameter that defaults to DefaultG |
| Gravity.ForceIsUnique | solsim/gravity.py:24 | any f with f * r^2 = G * m1 * m2 at r != 0 is the computed force, so the force is G*m1*m2/r^2 and nothing else |
| Gravity.UnitMassesAtUnitSeparation | solsim/tests/test_gravity.py:9 | unit masses at unit separation give exactly G, for any G, and exactly DefaultG when G is omitted |
| Gravity.ZeroSeparationRaises | solsim/tests/test_gravity.py:11-12 | zero separation raises ZeroDivisionError whatever the masses and G |
| Gravity.SymmetricInMasses | solsim/gravity.py:24 | swapping m1 and m2 gives the same outcome |
| Gravity.EvenInSeparation | solsim/gravity.py:24 | the force depends on r only through r^2: r and -r give the same outcome |
| Gravity.ZeroMassGivesZeroForce | solsim/gravity.py:24 | if either mass is zero and r != 0 the force is zero |
| Gravity.SignFollowsMassProduct | solsim/gravity.py:24 | for G > 0 the force is positive iff m1*m2 > 0 and negative iff m1*m2 < 0; a single negative mass gives a negative force, since masses are not checked |
| Gravity.LinearInConstant | solsim/gravity.py:4-24 | scaling G by k scales the force by k |
| Gravity.LinearInFirstMass | solsim/gravity.py:24 | scaling m1 by k scales the force by k |
| Gravity.InverseSquareInSeparation | solsim/gravity.py:24 | multiplying the separation by k != 0 divides the force by k^2 |
| Gravity.PowOfNegation | solsim/gravity.py:24 | (-x)^n is x^n for even n and -(x^n) for odd n, the identity behind evenness in r |
| Gravity.PowOfProduct | solsim/gravity.py:24 | (x*y)^n = x^n * y^n, the identity behind the inverse-square scaling |
| Gravity.SquarePositive | solsim/gravity.py:24 | r^2 > 0 for every r != 0, so the division is defined exactly when r != 0 |
| SolarSystemObjects.Uniform | solsim/solar_system_objects.py:40-42 | one default coordinate (hi - lo) * u + lo with u in [0, 1) lies in [lo, hi) |
| SolarSystemObjects.UniformCovers | solsim/solar_system_objects.py:40-42 | every value in [lo, hi) is reached by some draw, so the default range is exactly [lo, hi) |
| SolarSystemObjects.UniformPair | solsim/solar_system_objects.py:40-53 | a default vector has exactly two components, each in [lo, hi) |
| SolarSystemObjects.Construct | solsim/solar_system_objects.py:32-54 | succeeds iff each supplied vector has at least two elements; a short position fails with TypeError(Position) whatever the velocity; otherwise a short velocity fails with TypeError(Velocity); on success mass, name and supplied vectors are stored unchanged (no upper bound on length), and an omitted position or velocity has two components in [0.3, 50) or [20, 50) |
| SolarSystemObjects.SuppliedVectorsIgnoreDraws | solsim/solar_system_objects.py:34-53 | with both vectors supplied the random values are never used: the outcome is the same for any draws |
| SolarSystemObjects.CreateStar | solsim/solar_system_objects.py:77-78 | a Star has position [0, 0], velocity [0, 0], the given mass, and the name given or "Star" |
| SolarSystemObjects.DefaultName | solsim/solar_system_objects.py:215-245 | the name default of the constructor each class actually runs: "Asteroid" (line 215), "Comet" (line 244), "Star" (line 77), and "Object" (line 32) for the base class and every Planet class, because the Planet classes inherit the base constructor |
| SolarSystemObjects.Create | solsim/solar_system_objects.py:215-245 | calling the base class (line 32), a Planet class, Asteroid or Comet succeeds iff each supplied vector has at least two elements, reports the position error before the velocity error, stores the class and mass, stores the given name or else the class's DefaultName, and stores the same vectors as the base constructor; DefaultNames, ShortVectorsRejected and New build on it |
| SolarSystemObjects.DefaultNames | solsim/solar_system_objects.py:32-245 | with the name omitted, Asteroid gets "Asteroid", Comet gets "Comet", and the base class and every Planet class get "Object" |
| SolarSystemObjects.ShortVectorsRejected | solsim/solar_system_objects.py:34-48 | for every class but Star, a bare number, a one-element list or an empty list as position raises the position TypeError even when the velocity is also bad; with a good position, a bare number or one-element list as velocity raises the velocity TypeError |
| SolarSystemObjects.SolarSystemObject.Allocate | solsim/solar_system_objects.py:12 | a fresh object of the given class before its constructor has run |
| SolarSystemObjects.SolarSystemObject.Init | solsim/solar_system_objects.py:32-54 | raises exactly when Construct fails, with Construct's error, and otherwise leaves the object in Construct's state; mass is always assigned, position is assigned before its check, and on a raise the attributes not yet reached keep their old values |
| SolarSystemObjects.New | solsim/solar_system_objects.py:215-245 | calling a class other than Star (the base class, a Planet class, Asteroid or Comet) runs the constructor at lines 32-54 and returns a fresh object in the state Create describes, or Create's error |
| SolarSystemObjects.NewStar | solsim/solar_system_objects.py:77-78 | Star(mass, name) returns a fresh object in CreateStar's state and never fails |

## Left out

- `__repr__` methods: they format numpy arrays and divide by astropy mass constants. Every non-Star format string also has more placeholders than arguments, so those methods raise `IndexError`.
- The random generator: each `np.random.rand(2)` call is an injected pair of draws in [0, 1). The model does not capture the generator's state or the order in which calls consume it.
- `np.asarray` details: `np.asarray` keeps nested input nested and `.size` counts every element, so any array of at least two elements is accepted whatever its shape (a 2x2 matrix, say), and the stored position need not be a 2-component vector. A caller's ndarray is stored by reference, not copied. The model takes a bare number or a flat list and stores a value.
- The `TypeError` message text: the model records which field was rejected and the argument given, not the formatted message.
- Floating point: all arithmetic is on exact reals, with no rounding, overflow or NaN.
- UniversalGravity: fails exactly when r = 0 only on the reals. With floats, `r**2` raises OverflowError for |r| above about 1.3e154 and underflows to 0.0 for nonzero |r| below about 1.5e-162, where the division then raises ZeroDivisionError at a nonzero r. Neither error path is modelled.
- UniversalGravity: arguments are modelled as reals. `solsim/gravity.py` does not import true division, so under Python 2 an all-integer call floor-divides (`universal_gravity(1, 1, 2, G=1)` gives 0, not 0.25). That integer behaviour is not modelled, and LinearInConstant and LinearInFirstMass do not hold for it.
- The numpy-array path of `universal_gravity`: there a zero element gives `inf` rather than raising.
- The value of astropy's `G` depends on the astropy release: `DefaultG` is the CODATA 2018 value 6.6743e-11 of astropy 4.0 and later, while astropy 2.0 to 3.x supply the CODATA 2014 value 6.67408e-11 and astropy 1.x the CODATA 2010 value 6.67384e-11. `UniversalGravity` uses `DefaultG` when `G` is omitted, and every lemma but the unit case takes `G` as a parameter.
- `Planet.__index__` (solsim/solar_system_objects.py:105-106): it is not a constructor and never runs.
- Arity and keyword errors of Python calls, such as passing `position=` by keyword, or two vectors, to `Star`, are outside the model. A single extra positional argument to `Star` is not an error in the source: `Star(200., [2., 6.])` stores the list as the name.
- Construct: mass and name are modelled as a real and a string. The source stores any object unchecked, so an explicit `name=None` is stored as None, while in the model an omitted (`None`) name means the class default.
- `setup.py` is packaging metadata and is not part of this model.
