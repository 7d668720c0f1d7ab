/**
  Newton's law of universal gravitation, `universal_gravity(m1, m2, r, G)`
  of solsim/gravity.py, on scalar arguments and over the reals.
 */
module Gravity {
  import opened Wrappers

  /** What the scalar computation raises when the separation is zero. */
  datatype GravityError = ZeroDivisionError

  /**
    The default gravitational constant, in m^3 kg^-1 s^-2: the CODATA 2018
    value, which astropy's constants table supplies from astropy 4.0 on (astropy
    2.0 to 3.x supply the CODATA 2014 value 6.67408e-11, astropy 1.x the CODATA
    2010 value 6.67384e-11). Callers may pass any other `g`.
   */
  const DefaultG: real := 6.6743e-11

  /** Python's `x ** n` for a natural exponent. */
  function Pow(x: real, n: nat): real {
    if n == 0 then 1.0 else x * Pow(x, n - 1)
  }

  /** A product of nonzero reals is nonzero. */
  lemma MulNonzero(a: real, b: real)
    requires a != 0.0 && b != 0.0
    ensures a * b != 0.0
  {
    if a > 0.0 {
      if b > 0.0 { assert a * b > 0.0 * b; } else { assert a * b < 0.0 * b; }
    } else {
      if b > 0.0 { assert a * b < 0.0 * b; } else { assert a * b > 0.0 * b; }
    }
  }

  /** Two reals with the same product by a nonzero factor are equal. */
  lemma CancelFactor(a: real, b: real, s: real)
    requires s != 0.0 && a * s == b * s
    ensures a == b
  {
  }

  /** No power of a nonzero base is zero, so `r**2` is a safe divisor when `r != 0`. */
  lemma {:induction false} PowNonzero(x: real, n: nat)
    requires x != 0.0
    ensures Pow(x, n) != 0.0
  {
    if n > 0 {
      PowNonzero(x, n - 1);
      MulNonzero(x, Pow(x, n - 1));
    }
  }

  /** Every power of a positive base is positive. */
  lemma {:induction false} PowPositive(x: real, n: nat)
    requires x > 0.0
    ensures Pow(x, n) > 0.0
  {
    if n > 0 {
      PowPositive(x, n - 1);
      assert x * Pow(x, n - 1) > 0.0 * Pow(x, n - 1);
    }
  }

  /** Negating the base flips the sign of odd powers and leaves even powers unchanged. */
  lemma {:induction false} PowOfNegation(x: real, n: nat)
    ensures Pow(-x, n) == if n % 2 == 0 then Pow(x, n) else -Pow(x, n)
  {
    if n > 0 {
      PowOfNegation(x, n - 1);
    }
  }

  /** A power of a product is the product of the powers. */
  lemma {:induction false} PowOfProduct(x: real, y: real, n: nat)
    ensures Pow(x * y, n) == Pow(x, n) * Pow(y, n)
  {
    if n > 0 {
      PowOfProduct(x, y, n - 1);
      assert Pow(x * y, n) == (x * y) * (Pow(x, n - 1) * Pow(y, n - 1));
    }
  }

  /** The square of any nonzero separation is positive. */
  lemma SquarePositive(r: real)
    requires r != 0.0
    ensures Pow(r, 2) > 0.0
  {
    if r > 0.0 {
      PowPositive(r, 2);
    } else {
      PowPositive(-r, 2);
      PowOfNegation(r, 2);
    }
  }

  /**
    The magnitude `G * (m1 * m2) / r**2`. No argument is validated: masses may
    be zero or negative. A zero separation divides by zero and raises.
    The result is a real `f` with `f * r**2 == G * m1 * m2` (and the only one,
    see ForceIsUnique).
   */
  function UniversalGravity(m1: real, m2: real, r: real, g: real := DefaultG): (f: Result<real, GravityError>)
    ensures f.Failure? <==> r == 0.0
    ensures f.Failure? ==> f.error == ZeroDivisionError
    ensures f.Success? ==> f.value * Pow(r, 2) == g * (m1 * m2)
  {
    if r == 0.0 then Failure(ZeroDivisionError)
    else
      PowNonzero(r, 2);
      Success(g * (m1 * m2) / Pow(r, 2))
  }

  /** The force law pins its result down: any `f` with `f * r**2 == G m1 m2` is the computed force. */
  lemma ForceIsUnique(m1: real, m2: real, r: real, g: real, f: real)
    requires r != 0.0
    requires f * Pow(r, 2) == g * (m1 * m2)
    ensures UniversalGravity(m1, m2, r, g) == Success(f)
  {
    PowNonzero(r, 2);
    CancelFactor(UniversalGravity(m1, m2, r, g).value, f, Pow(r, 2));
  }

  /** Unit masses at unit separation give exactly the constant, the default one included. */
  lemma UnitMassesAtUnitSeparation(g: real)
    ensures UniversalGravity(1.0, 1.0, 1.0, g) == Success(g)
    ensures UniversalGravity(1.0, 1.0, 1.0) == Success(DefaultG)
  {
  }

  /** Zero separation always raises, whatever the masses and the constant. */
  lemma ZeroSeparationRaises(m1: real, m2: real, g: real)
    ensures UniversalGravity(m1, m2, 0.0, g) == Failure(ZeroDivisionError)
  {
  }

  /** The force does not depend on which body is named first. */
  lemma SymmetricInMasses(m1: real, m2: real, r: real, g: real)
    ensures UniversalGravity(m1, m2, r, g) == UniversalGravity(m2, m1, r, g)
  {
  }

  /** The separation enters only through its square, so its sign is irrelevant. */
  lemma EvenInSeparation(m1: real, m2: real, r: real, g: real)
    ensures UniversalGravity(m1, m2, -r, g) == UniversalGravity(m1, m2, r, g)
  {
    PowOfNegation(r, 2);
  }

  /** A zero mass at a nonzero separation gives a zero force. */
  lemma ZeroMassGivesZeroForce(m1: real, m2: real, r: real, g: real)
    requires m1 == 0.0 || m2 == 0.0
    requires r != 0.0
    ensures UniversalGravity(m1, m2, r, g) == Success(0.0)
  {
    ForceIsUnique(m1, m2, r, g, 0.0);
  }

  /**
    With a positive constant the sign of the force is the sign of `m1 * m2`:
    masses are not validated, so one negative mass gives a negative force.
   */
  lemma SignFollowsMassProduct(m1: real, m2: real, r: real, g: real)
    requires r != 0.0 && g > 0.0
    ensures UniversalGravity(m1, m2, r, g).Success?
    ensures UniversalGravity(m1, m2, r, g).value > 0.0 <==> m1 * m2 > 0.0
    ensures UniversalGravity(m1, m2, r, g).value < 0.0 <==> m1 * m2 < 0.0
  {
    var f := UniversalGravity(m1, m2, r, g).value;
    SquarePositive(r);
    if f > 0.0 {
      assert f * Pow(r, 2) > 0.0 * Pow(r, 2);
    } else if f < 0.0 {
      assert f * Pow(r, 2) < 0.0 * Pow(r, 2);
    }
    if m1 * m2 > 0.0 {
      assert g * (m1 * m2) > 0.0 * (m1 * m2);
    } else if m1 * m2 < 0.0 {
      assert g * (m1 * m2) < 0.0 * (m1 * m2);
    }
  }

  /** The force is linear in the gravitational constant. */
  lemma LinearInConstant(m1: real, m2: real, r: real, g: real, k: real)
    requires r != 0.0
    ensures UniversalGravity(m1, m2, r, k * g).value == k * UniversalGravity(m1, m2, r, g).value
  {
    var f := UniversalGravity(m1, m2, r, g).value;
    assert (k * f) * Pow(r, 2) == k * (f * Pow(r, 2));
    ForceIsUnique(m1, m2, r, k * g, k * f);
  }

  /** The force is linear in each mass (in the first directly, in the second by symmetry). */
  lemma LinearInFirstMass(m1: real, m2: real, r: real, g: real, k: real)
    requires r != 0.0
    ensures UniversalGravity(k * m1, m2, r, g).value == k * UniversalGravity(m1, m2, r, g).value
  {
    var f := UniversalGravity(m1, m2, r, g).value;
    assert (k * f) * Pow(r, 2) == k * (f * Pow(r, 2));
    ForceIsUnique(k * m1, m2, r, g, k * f);
  }

  /** Inverse-square law: scaling the separation by `k` divides the force by `k**2`. */
  lemma InverseSquareInSeparation(m1: real, m2: real, r: real, g: real, k: real)
    requires r != 0.0 && k != 0.0
    ensures UniversalGravity(m1, m2, k * r, g).Success?
    ensures UniversalGravity(m1, m2, k * r, g).value * Pow(k, 2) == UniversalGravity(m1, m2, r, g).value
  {
    MulNonzero(k, r);
    var h := UniversalGravity(m1, m2, k * r, g).value;
    PowOfProduct(k, r, 2);
    assert (h * Pow(k, 2)) * Pow(r, 2) == h * Pow(k * r, 2);
    ForceIsUnique(m1, m2, r, g, h * Pow(k, 2));
  }
}
