/**
  The bodies of solsim/solar_system_objects.py: construction and validation of
  a solar-system object (mass, position in AU, velocity in km/s, name) and the
  per-class defaults of Star, Planet and its subclasses, Asteroid and Comet.
 */
module SolarSystemObjects {
  import opened Wrappers

  /** Range of a randomly placed body's coordinates, in AU. */
  const MinimumSize: real := 0.3
  const MaximumSize: real := 50.0
  /** Range of a randomly launched body's velocity components, in km/s. */
  const MinimumVelocity: real := 20.0
  const MaximumVelocity: real := 50.0

  /** The Python class a body is constructed as. */
  datatype BodyKind =
    | BaseObject
    | Star
    | Planet
    | GasPlanet
    | TerrestrialPlanet
    | DwarfPlanet
    | Asteroid
    | Comet
  {
    /** Planet and the three classes derived from it. */
    predicate IsPlanet() {
      this == Planet || this == GasPlanet || this == TerrestrialPlanet || this == DwarfPlanet
    }
  }

  /** Every class whose constructor takes a position and a velocity. */
  type NonStarKind = k: BodyKind | k != Star witness BaseObject

  /**
    The `name` default of the constructor a class actually runs. Planet and its
    subclasses inherit SolarSystemObject's constructor (Planet's alternative
    signature is declared as `__index__` and never runs), so they get "Object".
   */
  function DefaultName(kind: BodyKind): (n: string)
    ensures kind == BaseObject || kind.IsPlanet() ==> n == "Object"
    ensures kind == Star ==> n == "Star"
    ensures kind == Asteroid ==> n == "Asteroid"
    ensures kind == Comet ==> n == "Comet"
  {
    match kind
    case Star => "Star"
    case Asteroid => "Asteroid"
    case Comet => "Comet"
    case _ => "Object"
  }

  /** A position or velocity argument as the caller writes it: a bare number or a list of numbers. */
  datatype VectorArg = Scalar(x: real) | Elements(xs: seq<real>)

  /** `np.asarray(arg)` for the flat inputs the model takes: a bare number is an array of size 1, a flat list keeps its elements. */
  function AsArray(arg: VectorArg): seq<real> {
    match arg
    case Scalar(x) => [x]
    case Elements(xs) => xs
  }

  /** Which argument was rejected. */
  datatype Field = Position | Velocity

  /** The `TypeError` raised for a vector argument with fewer than two elements; it names the field and carries the argument. */
  datatype ConstructionError = TypeError(field: Field, given: VectorArg)

  /** One value of `np.random.rand`: uniform on the half-open interval [0, 1). */
  type UnitDraw = u: real | 0.0 <= u < 1.0

  /** The two values of one call `np.random.rand(2)`. */
  datatype Rand2 = Rand2(u0: UnitDraw, u1: UnitDraw)

  /** The random values a construction may consume: one pair for a default position, one for a default velocity. */
  datatype Draws = Draws(position: Rand2, velocity: Rand2)

  /** The product of a positive and a non-negative number is non-negative, and positive when both are. */
  lemma MulSigns(a: real, b: real)
    requires a > 0.0 && b >= 0.0
    ensures a * b >= 0.0
    ensures b > 0.0 ==> a * b > 0.0
  {
    if b > 0.0 {
      assert a * b > 0.0 * b;
    }
  }

  /** Multiplying by a positive number keeps a strict order, in both directions. */
  lemma MulMonotone(d: real, p: real, q: real)
    requires d > 0.0
    ensures p < q <==> d * p < d * q
  {
    if p < q {
      MulSigns(d, q - p);
    } else {
      MulSigns(d, p - q);
    }
  }

  /** `(hi - lo) * u + lo`: a draw from [0, 1) stretched onto [lo, hi). */
  function Uniform(lo: real, hi: real, u: UnitDraw): (x: real)
    requires lo < hi
    ensures lo <= x < hi
  {
    MulSigns(hi - lo, u);
    MulSigns(hi - lo, 1.0 - u);
    (hi - lo) * u + lo
  }

  /** Every point of [lo, hi) is reached by some draw, so the default range is exactly [lo, hi). */
  lemma UniformCovers(lo: real, hi: real, x: real)
    requires lo < hi && lo <= x < hi
    ensures exists u: UnitDraw :: Uniform(lo, hi, u) == x
  {
    var d := hi - lo;
    var u := (x - lo) / d;
    assert d * u == x - lo;
    MulMonotone(d, 0.0, u);
    MulMonotone(d, u, 1.0);
    assert Uniform(lo, hi, u) == x;
  }

  /** A default vector: `(hi - lo) * np.random.rand(2) + lo`, element-wise. */
  function UniformPair(lo: real, hi: real, d: Rand2): (v: seq<real>)
    requires lo < hi
    ensures |v| == 2
    ensures forall i | 0 <= i < |v| :: lo <= v[i] < hi
  {
    [Uniform(lo, hi, d.u0), Uniform(lo, hi, d.u1)]
  }

  /** True when the argument is omitted or has at least two elements. */
  predicate ShapeOk(arg: Option<VectorArg>) {
    arg.None? || |AsArray(arg.value)| >= 2
  }

  /** The position a construction stores: the caller's array, or a random point of the default range. */
  function PositionValue(position: Option<VectorArg>, draw: Rand2): seq<real> {
    if position.Some? then AsArray(position.value) else UniformPair(MinimumSize, MaximumSize, draw)
  }

  /** The velocity a construction stores: the caller's array, or a random vector of the default range. */
  function VelocityValue(velocity: Option<VectorArg>, draw: Rand2): seq<real> {
    if velocity.Some? then AsArray(velocity.value) else UniformPair(MinimumVelocity, MaximumVelocity, draw)
  }

  /** A constructed body: its class and its four attributes. */
  datatype Body = Body(kind: BodyKind, mass: real, position: seq<real>, velocity: seq<real>, name: string)

  /**
    `SolarSystemObject.__init__` run on an object of class `kind`, as a value.
    Mass and name are stored as given, without any check. The position is
    checked before the velocity, so a bad position is reported whatever the
    velocity. A supplied vector of two or more elements is stored unchanged;
    an omitted one is two draws from its default range.
   */
  function Construct(kind: BodyKind, mass: real, position: Option<VectorArg>, velocity: Option<VectorArg>,
                     name: string, draws: Draws): (r: Result<Body, ConstructionError>)
    ensures r.Success? <==> ShapeOk(position) && ShapeOk(velocity)
    ensures !ShapeOk(position) ==> r == Failure(TypeError(Position, position.value))
    ensures ShapeOk(position) && !ShapeOk(velocity) ==> r == Failure(TypeError(Velocity, velocity.value))
    ensures r.Success? ==> r.value.kind == kind && r.value.mass == mass && r.value.name == name
    ensures r.Success? && position.Some? ==> r.value.position == AsArray(position.value)
    ensures r.Success? && velocity.Some? ==> r.value.velocity == AsArray(velocity.value)
    ensures r.Success? && position.None? ==>
      |r.value.position| == 2 && forall i | 0 <= i < 2 :: MinimumSize <= r.value.position[i] < MaximumSize
    ensures r.Success? && velocity.None? ==>
      |r.value.velocity| == 2 && forall i | 0 <= i < 2 :: MinimumVelocity <= r.value.velocity[i] < MaximumVelocity
  {
    if position.Some? && |AsArray(position.value)| < 2 then
      Failure(TypeError(Position, position.value))
    else if velocity.Some? && |AsArray(velocity.value)| < 2 then
      Failure(TypeError(Velocity, velocity.value))
    else
      Success(Body(kind, mass, PositionValue(position, draws.position), VelocityValue(velocity, draws.velocity), name))
  }

  /** The random values are consulted only for omitted vectors: with both supplied the result does not depend on them. */
  lemma SuppliedVectorsIgnoreDraws(kind: BodyKind, mass: real, position: VectorArg, velocity: VectorArg,
                                   name: string, d1: Draws, d2: Draws)
    ensures Construct(kind, mass, Some(position), Some(velocity), name, d1)
         == Construct(kind, mass, Some(position), Some(velocity), name, d2)
  {
  }

  /**
    Calling a class other than Star: Asteroid and Comet delegate to the base
    constructor with their own default names; the base class and the Planet
    classes run the base constructor itself.
   */
  function Create(kind: NonStarKind, mass: real, position: Option<VectorArg>, velocity: Option<VectorArg>,
                  name: Option<string>, draws: Draws): (r: Result<Body, ConstructionError>)
    ensures r.Success? <==> ShapeOk(position) && ShapeOk(velocity)
    ensures !ShapeOk(position) ==> r == Failure(TypeError(Position, position.value))
    ensures ShapeOk(position) && !ShapeOk(velocity) ==> r == Failure(TypeError(Velocity, velocity.value))
    ensures r.Success? ==> r.value.kind == kind && r.value.mass == mass
    ensures r.Success? && name.Some? ==> r.value.name == name.value
    ensures r.Success? && name.None? ==> r.value.name == DefaultName(kind)
    ensures r.Success? ==> r.value.position == PositionValue(position, draws.position)
    ensures r.Success? ==> r.value.velocity == VelocityValue(velocity, draws.velocity)
  {
    Construct(kind, mass, position, velocity, name.GetOr(DefaultName(kind)), draws)
  }

  /** A Star passes no random values on; any fixed pair serves. */
  const UnusedDraws: Draws := Draws(Rand2(0.0, 0.0), Rand2(0.0, 0.0))

  /**
    `Star(mass, name)`: the base constructor with both vectors set to the zero
    vector, so a star sits at the focal point, at rest, and never draws.
   */
  function CreateStar(mass: real, name: Option<string>): (b: Body)
    ensures b.kind == Star && b.mass == mass && b.name == name.GetOr("Star")
    ensures b.position == [0.0, 0.0] && b.velocity == [0.0, 0.0]
  {
    Construct(Star, mass, Some(Elements([0.0, 0.0])), Some(Elements([0.0, 0.0])), name.GetOr(DefaultName(Star)), UnusedDraws).value
  }

  /** Omitting the name gives the class's default: "Asteroid", "Comet", and "Object" for the base and every Planet class. */
  lemma DefaultNames(kind: NonStarKind, mass: real, position: Option<VectorArg>, velocity: Option<VectorArg>, draws: Draws)
    requires ShapeOk(position) && ShapeOk(velocity)
    ensures Create(kind, mass, position, velocity, None, draws).Success?
    ensures kind == Asteroid ==> Create(kind, mass, position, velocity, None, draws).value.name == "Asteroid"
    ensures kind == Comet ==> Create(kind, mass, position, velocity, None, draws).value.name == "Comet"
    ensures kind == BaseObject || kind.IsPlanet() ==>
      Create(kind, mass, position, velocity, None, draws).value.name == "Object"
  {
  }

  /**
    For every class but Star: a bare number or a one-element list as position
    is rejected (before the velocity is looked at), and so is either as
    velocity once the position is good.
   */
  lemma ShortVectorsRejected(kind: NonStarKind, mass: real, x: real, y: real, name: Option<string>, draws: Draws)
    ensures Create(kind, mass, Some(Scalar(x)), Some(Elements([20.0, 30.0])), name, draws)
         == Failure(TypeError(Position, Scalar(x)))
    ensures Create(kind, mass, Some(Elements([x])), Some(Scalar(y)), name, draws)
         == Failure(TypeError(Position, Elements([x])))
    ensures Create(kind, mass, Some(Elements([])), Some(Scalar(y)), name, draws)
         == Failure(TypeError(Position, Elements([])))
    ensures Create(kind, mass, Some(Elements([x, y])), Some(Scalar(y)), name, draws)
         == Failure(TypeError(Velocity, Scalar(y)))
    ensures Create(kind, mass, Some(Elements([x, y])), Some(Elements([y])), name, draws)
         == Failure(TypeError(Velocity, Elements([y])))
  {
  }

  /**
    A body as an object, the way the Python class holds it: `__init__` assigns
    the attributes one after another and raises as soon as a vector is too short.
   */
  class SolarSystemObject {
    const kind: BodyKind
    var mass: real
    var position: seq<real>
    var velocity: seq<real>
    var name: string

    /** Allocation, before `__init__` has run: no attribute holds a caller's value yet. */
    constructor Allocate(kind: BodyKind)
      ensures this.kind == kind
      ensures mass == 0.0 && position == [] && velocity == [] && name == ""
    {
      this.kind := kind;
      mass := 0.0;
      position := [];
      velocity := [];
      name := "";
    }

    /** The object's attributes as a value. */
    function State(): Body
      reads this
    {
      Body(kind, mass, position, velocity, name)
    }

    /**
      `SolarSystemObject.__init__`: the outcome is Construct's. On a raise the
      attributes assigned before the failing check keep their new values: the
      mass always, the position once it was converted.
     */
    method Init(mass: real, position: Option<VectorArg>, velocity: Option<VectorArg>, name: string, draws: Draws)
      returns (raised: Option<ConstructionError>)
      modifies this
      ensures raised.None? <==> Construct(kind, mass, position, velocity, name, draws).Success?
      ensures raised.None? ==> State() == Construct(kind, mass, position, velocity, name, draws).value
      ensures raised.Some? ==> Failure(raised.value) == Construct(kind, mass, position, velocity, name, draws)
      ensures this.mass == mass
      ensures this.position == PositionValue(position, draws.position)
      ensures raised.Some? && raised.value.field == Position ==>
        this.velocity == old(this.velocity) && this.name == old(this.name)
      ensures raised.Some? && raised.value.field == Velocity ==>
        this.velocity == AsArray(velocity.value) && this.name == old(this.name)
    {
      this.mass := mass;
      if position.Some? {
        this.position := AsArray(position.value);
        if |this.position| < 2 {
          return Some(TypeError(Position, position.value));
        }
      } else {
        this.position := UniformPair(MinimumSize, MaximumSize, draws.position);
      }
      if velocity.Some? {
        this.velocity := AsArray(velocity.value);
        if |this.velocity| < 2 {
          return Some(TypeError(Velocity, velocity.value));
        }
      } else {
        this.velocity := UniformPair(MinimumVelocity, MaximumVelocity, draws.velocity);
      }
      this.name := name;
      return None;
    }
  }

  /** Calling a class other than Star: allocate, run the constructor, and hand back the object or the error. */
  method New(kind: NonStarKind, mass: real, position: Option<VectorArg>, velocity: Option<VectorArg>,
             name: Option<string>, draws: Draws) returns (r: Result<SolarSystemObject, ConstructionError>)
    ensures r.Success? <==> Create(kind, mass, position, velocity, name, draws).Success?
    ensures r.Success? ==> fresh(r.value) && r.value.State() == Create(kind, mass, position, velocity, name, draws).value
    ensures r.Failure? ==> r.error == Create(kind, mass, position, velocity, name, draws).error
  {
    var o := new SolarSystemObject.Allocate(kind);
    var raised := o.Init(mass, position, velocity, name.GetOr(DefaultName(kind)), draws);
    if raised.Some? {
      r := Failure(raised.value);
    } else {
      r := Success(o);
    }
  }

  /** `Star(mass, name)`: never fails and never draws. */
  method NewStar(mass: real, name: Option<string>) returns (s: SolarSystemObject)
    ensures fresh(s) && s.State() == CreateStar(mass, name)
  {
    s := new SolarSystemObject.Allocate(Star);
    var raised := s.Init(mass, Some(Elements([0.0, 0.0])), Some(Elements([0.0, 0.0])), name.GetOr(DefaultName(Star)), UnusedDraws);
  }
}
