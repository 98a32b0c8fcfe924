/** Small transmitting loop antenna equations (after Ted Hart): a loop of one of
    three shapes, made of a conductor of length `s` feet and diameter `d` inches,
    driven at `f` MHz with `p` watts. */
module LoopAntenna {
  import opened PyMath

  // ---------------------------------------------------------------------------
  // Shapes and their names

  datatype Shape = Circle | Square | Octagon

  const CIRCLE: string := "circle"
  const SQUARE: string := "square"
  const OCTAGON: string := "octagon"

  const KnownShapes: seq<string> := [CIRCLE, SQUARE, OCTAGON]

  /** The error raised for a shape name outside `KnownShapes`; it carries the
      offending name, as the message of the source's ValueError does. */
  datatype ShapeError = UnknownShape(name: string)

  datatype Result<T> = Success(value: T) | Failure(error: ShapeError)

  datatype Outcome = Pass | Fail(error: ShapeError)

  function Name(shape: Shape): (name: string) {
    match shape
    case Circle => CIRCLE
    case Square => SQUARE
    case Octagon => OCTAGON
  }

  /** The membership test `shape in KNOWN_SHAPES`, with the accepted name turned
      into a `Shape`. */
  function ParseShape(name: string): (r: Result<Shape>)
    ensures r.Success? <==> name in KnownShapes
    ensures r.Success? ==> Name(r.value) == name
    ensures r.Failure? ==> r.error == UnknownShape(name)
  {
    if name == CIRCLE then Success(Circle)
    else if name == SQUARE then Success(Square)
    else if name == OCTAGON then Success(Octagon)
    else Failure(UnknownShape(name))
  }

  lemma NameParses(shape: Shape)
    ensures ParseShape(Name(shape)) == Success(shape)
  {
  }

  // ---------------------------------------------------------------------------
  // Display scalers

  function Kilo(v: real): (r: real)
    ensures r / 1.0e3 == v
  {
    v * 1.0e3
  }

  function Micro(v: real): (r: real)
    ensures r / 1.0e6 == v
  {
    v * 1.0e6
  }

  function Pico(v: real): (r: real)
    ensures r / 1.0e12 == v
  {
    v * 1.0e12
  }

  /** Each scaler is the previous step of the metric ladder applied again. */
  lemma ScalerLadder(v: real)
    ensures Micro(v) == Kilo(Kilo(v))
    ensures Pico(v) == Micro(Micro(v))
    ensures Kilo(v) == 0.0 <==> v == 0.0
  {
  }

  // ---------------------------------------------------------------------------
  // Geometry

  lemma ProductZero(u: real, v: real)
    ensures u * v == 0.0 <==> u == 0.0 || v == 0.0
  {
  }

  /** Segment length `l`, loop "diameter" and enclosed area `a`. */
  datatype Geometry = Geometry(l: real, diameter: real, a: real)

  /** The three-way dispatch on the shape that derives the geometry from the
      conductor length `s`. */
  function GeometryOf(m: MathLib, shape: Shape, s: real): (g: Geometry)
    requires m.Sound()
    ensures g.a >= 0.0
    ensures g.a == 0.0 <==> s == 0.0
  {
    match shape
    case Circle =>
      var diameter := s / (2.0 * m.pi);
      assert diameter * (2.0 * m.pi) == s;
      ProductZero(diameter, diameter);
      ProductZero(m.pi, diameter * diameter);
      Geometry(0.0, diameter, m.pi * (diameter * diameter))
    case Square =>
      var l := s / 4.0;
      ProductZero(l, l);
      Geometry(l, l, l * l)
    case Octagon =>
      var l := s / 8.0;
      ProductZero(l, l);
      ProductZero(2.0 * (1.0 + m.sqrt(2.0)), l * l);
      Geometry(l, l * (1.0 + m.sqrt(2.0)), 2.0 * (1.0 + m.sqrt(2.0)) * (l * l))
  }

  /** What the geometry means: the segments (or the circumference) add up to
      the conductor length, and the area is a fixed multiple of `s * s`. For a
      circle the value kept as "diameter" is `s / (2 pi)`, the radius. */
  lemma GeometryMeaning(m: MathLib, shape: Shape, s: real)
    requires m.Sound()
    ensures var g := GeometryOf(m, shape, s);
      match shape
      case Circle =>
        g.l == 0.0 && 2.0 * m.pi * g.diameter == s && 4.0 * m.pi * g.a == s * s
      case Square =>
        4.0 * g.l == s && g.diameter == g.l && 16.0 * g.a == s * s
      case Octagon =>
        8.0 * g.l == s && g.diameter == g.l * (1.0 + m.sqrt(2.0))
        && g.a == 2.0 * g.l * g.diameter
        && 32.0 * g.a == (1.0 + m.sqrt(2.0)) * (s * s)
  {
  }

  /** Scaling the conductor length by `k` scales every length by `k` and the
      area by `k * k`, for every shape. */
  lemma GeometryScales(m: MathLib, shape: Shape, s: real, k: real)
    requires m.Sound()
    ensures var g, h := GeometryOf(m, shape, s), GeometryOf(m, shape, k * s);
      h.l == k * g.l && h.diameter == k * g.diameter && h.a == (k * k) * g.a
  {
    var q := match shape case Circle => 2.0 * m.pi case Square => 4.0 case Octagon => 8.0;
    ScaledQuotient(s, q, k);
    var u := s / q;
    match shape
    case Circle =>
      ScaledSquare(m.pi, u, k);
    case Square =>
      ScaledSquare(1.0, u, k);
    case Octagon =>
      var c := 1.0 + m.sqrt(2.0);
      assert (k * u) * c == k * (u * c);
      ScaledSquare(2.0 * c, u, k);
  }

  lemma ScaledQuotient(s: real, q: real, k: real)
    requires q != 0.0
    ensures (k * s) / q == k * (s / q)
  {
  }

  lemma ScaledSquare(c: real, u: real, k: real)
    ensures c * ((k * u) * (k * u)) == (k * k) * (c * (u * u))
  {
  }

  // ---------------------------------------------------------------------------
  // The loop equations, over plain values (f in MHz, s in feet, d in inches)

  /** Radiation resistance, ohms, of a loop of area `a` at `f`. */
  function RadiationResistance(f: real, a: real): (ohms: real) {
    3.38e-8 * (((f * f) * a) * ((f * f) * a))
  }

  /** Loss resistance, ohms; `sqrt` needs `f >= 0` and `d` must not be zero. */
  function LossResistance(m: MathLib, f: real, s: real, d: real): (ohms: real)
    requires f >= 0.0 && d != 0.0
  {
    9.96e-4 * m.sqrt(f) * s / d
  }

  /** Inductance, henrys; `log10` needs a positive argument. */
  function Inductance(m: MathLib, s: real, d: real): (henrys: real)
    requires m.pi > 0.0 && d != 0.0 && 96.0 * s / (m.pi * d) > 0.0
  {
    1.9e-8 * s * (7.353 * m.log10(96.0 * s / (m.pi * d)) - 6.386)
  }

  /** Inductive reactance, ohms, of inductance `henrys` at `f`. */
  function InductiveReactance(m: MathLib, f: real, henrys: real): (ohms: real) {
    2.0 * m.pi * f * henrys * 1.0e6
  }

  /** Tuning capacitance, farads, as the historical formula writes it. */
  function TuningCapacitance(m: MathLib, f: real, xl: real): (farads: real)
    requires 2.0 * m.pi * f * xl * 1.0e6 != 0.0
  {
    1.0 / (2.0 * m.pi * f * xl * 1.0e6)
  }

  function QualityFactor(xl: real, rr: real, rl: real): (q: real)
    requires rr + rl != 0.0
  {
    xl / (2.0 * (rr + rl))
  }

  function RadiatedFraction(rr: real, rl: real): (fraction: real)
    requires rr + rl != 0.0
  {
    rr / (rr + rl)
  }

  /** Bandwidth, hertz, at `f` MHz with quality factor `q`. */
  function BandwidthAt(f: real, q: real): (hertz: real)
    requires q != 0.0
  {
    f * 1.0e6 / q
  }

  /** Distributed capacity, pF. */
  function DistributedCapacity(s: real): (pf: real) {
    0.82 * s
  }

  /** Capacitor voltage, volts; `sqrt` needs a non-negative argument. */
  function CapacitorVoltage(m: MathLib, p: real, xl: real, q: real): (volts: real)
    requires p * xl * q >= 0.0
  {
    m.sqrt(p * xl * q)
  }

  // ---------------------------------------------------------------------------
  // The state of a loop as a value, and what each setter does to it

  datatype LoopState = LoopState(shape: Shape, s: real, f: real, d: real, p: real, geometry: Geometry)

  /** The geometry agrees with the shape and the conductor length. */
  ghost predicate Consistent(m: MathLib, st: LoopState)
    requires m.Sound()
  {
    st.geometry == GeometryOf(m, st.shape, st.s)
  }

  function Initial(m: MathLib, shape: Shape, s: real, f: real, d: real, p: real): (st: LoopState)
    requires m.Sound()
    ensures Consistent(m, st)
    ensures st.shape == shape && st.s == s && st.f == f && st.d == d && st.p == p
  {
    LoopState(shape, s, f, d, p, GeometryOf(m, shape, s))
  }

  function WithShape(m: MathLib, st: LoopState, shape: Shape): (r: LoopState)
    requires m.Sound()
    ensures Consistent(m, r)
    ensures r.shape == shape && r.s == st.s && r.f == st.f && r.d == st.d && r.p == st.p
  {
    st.(shape := shape, geometry := GeometryOf(m, shape, st.s))
  }

  function WithS(m: MathLib, st: LoopState, s: real): (r: LoopState)
    requires m.Sound()
    ensures Consistent(m, r)
    ensures r.shape == st.shape && r.s == s && r.f == st.f && r.d == st.d && r.p == st.p
  {
    st.(s := s, geometry := GeometryOf(m, st.shape, s))
  }

  function WithF(st: LoopState, f: real): (r: LoopState) {
    st.(f := f)
  }

  function WithD(st: LoopState, d: real): (r: LoopState) {
    st.(d := d)
  }

  function WithP(st: LoopState, p: real): (r: LoopState) {
    st.(p := p)
  }

  /** Setting `f`, `d` or `p` leaves the shape, `s` and the geometry as they
      were, so a consistent state stays consistent. */
  lemma OperatingInputsKeepGeometry(m: MathLib, st: LoopState, v: real)
    requires m.Sound() && Consistent(m, st)
    ensures var r := WithF(st, v);
      r.shape == st.shape && r.s == st.s && r.geometry == st.geometry && Consistent(m, r)
    ensures var r := WithD(st, v);
      r.shape == st.shape && r.s == st.s && r.geometry == st.geometry && Consistent(m, r)
    ensures var r := WithP(st, v);
      r.shape == st.shape && r.s == st.s && r.geometry == st.geometry && Consistent(m, r)
  {
  }

  /** Setting `s` and then `f` gives the same state as setting `f` and then `s`;
      the same holds for `d` and `p`. */
  lemma SetSCommutes(m: MathLib, st: LoopState, s: real, v: real)
    requires m.Sound()
    ensures WithF(WithS(m, st, s), v) == WithS(m, WithF(st, v), s)
    ensures WithD(WithS(m, st, s), v) == WithS(m, WithD(st, v), s)
    ensures WithP(WithS(m, st, s), v) == WithS(m, WithP(st, v), s)
  {
  }

  /** The state after a shape or length change depends only on the inputs, not
      on the geometry that was there before. */
  lemma NoHiddenState(m: MathLib, st1: LoopState, st2: LoopState, shape: Shape, s: real)
    requires m.Sound()
    requires st1.f == st2.f && st1.d == st2.d && st1.p == st2.p
    ensures st1.shape == st2.shape ==> WithS(m, st1, s) == WithS(m, st2, s)
    ensures st1.s == st2.s ==> WithShape(m, st1, shape) == WithShape(m, st2, shape)
  {
  }

  /** One call of a property setter. */
  datatype Setter = SetShapeTo(name: string) | SetSTo(s: real) | SetFTo(f: real) | SetDTo(d: real) | SetPTo(p: real)

  /** The state after one setter call; an unknown shape name is refused and
      leaves the state as it was. */
  function Step(m: MathLib, st: LoopState, op: Setter): (r: LoopState)
    requires m.Sound()
  {
    match op
    case SetShapeTo(name) =>
      var parsed := ParseShape(name);
      if parsed.Failure? then st else WithShape(m, st, parsed.value)
    case SetSTo(s) => WithS(m, st, s)
    case SetFTo(f) => WithF(st, f)
    case SetDTo(d) => WithD(st, d)
    case SetPTo(p) => WithP(st, p)
  }

  /** The state after a sequence of setter calls, in order. */
  function Run(m: MathLib, st: LoopState, ops: seq<Setter>): (r: LoopState)
    requires m.Sound()
    decreases |ops|
  {
    if ops == [] then st else Run(m, Step(m, st, ops[0]), ops[1..])
  }

  /** After any sequence of setter calls, a loop is exactly the loop that
      construction would give for the inputs it now holds: the geometry never
      goes stale, and no history is kept. */
  lemma {:induction false} RunIsFreshConstruction(m: MathLib, st: LoopState, ops: seq<Setter>)
    requires m.Sound() && Consistent(m, st)
    ensures var r := Run(m, st, ops); r == Initial(m, r.shape, r.s, r.f, r.d, r.p)
    decreases |ops|
  {
    if ops != [] {
      RunIsFreshConstruction(m, Step(m, st, ops[0]), ops[1..]);
    }
  }

  /** A sequence of `f`, `d` and `p` settings never touches the shape, `s` or
      the geometry. */
  lemma {:induction false} OperatingRunKeepsGeometry(m: MathLib, st: LoopState, ops: seq<Setter>)
    requires m.Sound()
    requires forall i :: 0 <= i < |ops| ==> ops[i].SetFTo? || ops[i].SetDTo? || ops[i].SetPTo?
    ensures var r := Run(m, st, ops);
      r.shape == st.shape && r.s == st.s && r.geometry == st.geometry
    decreases |ops|
  {
    if ops != [] {
      OperatingRunKeepsGeometry(m, Step(m, st, ops[0]), ops[1..]);
    }
  }

  // ---------------------------------------------------------------------------
  // The loop object

  class Loop {
    const math: MathLib
    var shape: Shape
    var s: real         // conductor length, feet
    var f: real         // operating frequency, MHz
    var d: real         // conductor diameter, inches
    var p: real         // transmitter power, watts
    var l: real         // segment length, feet
    var diameter: real  // loop diameter, feet
    var a: real         // loop area, square feet

    ghost predicate Valid()
      reads this
    {
      math.Sound() && Geometry(l, diameter, a) == GeometryOf(math, shape, s)
    }

    function State(): (st: LoopState)
      reads this
      requires Valid()
      ensures Consistent(math, st)
    {
      LoopState(shape, s, f, d, p, Geometry(l, diameter, a))
    }

    constructor (m: MathLib, shape: Shape, s: real, f: real, d: real, p: real)
      requires m.Sound()
      ensures Valid() && math == m
      ensures State() == Initial(m, shape, s, f, d, p)
    {
      this.math := m;
      this.shape := shape;
      this.s := s;
      this.f := f;
      this.d := d;
      this.p := p;
      new;
      RecomputeShape();
    }

    /** Construction from a shape name: an unknown name fails before anything is
        built. */
    static method Create(m: MathLib, name: string, s: real, f: real, d: real, p: real)
      returns (r: Result<Loop>)
      requires m.Sound()
      ensures r.Failure? <==> name !in KnownShapes
      ensures r.Failure? ==> r.error == UnknownShape(name)
      ensures r.Success? ==>
        && fresh(r.value) && r.value.Valid() && r.value.math == m
        && Name(r.value.shape) == name
        && r.value.State() == Initial(m, ParseShape(name).value, s, f, d, p)
    {
      var parsed := ParseShape(name);
      if parsed.Failure? {
        return Failure(parsed.error);
      }
      var loop := new Loop(m, parsed.value, s, f, d, p);
      return Success(loop);
    }

    method RecomputeShape()
      requires math.Sound()
      modifies this`l, this`diameter, this`a
      ensures Valid()
    {
      match shape
      case Circle =>
        l := 0.0;
        diameter := s / (2.0 * math.pi);
        a := math.pi * (diameter * diameter);
      case Square =>
        l := s / 4.0;
        diameter := l;
        a := l * l;
      case Octagon =>
        l := s / 8.0;
        diameter := l * (1.0 + math.sqrt(2.0));
        a := 2.0 * (1.0 + math.sqrt(2.0)) * (l * l);
    }

    function ShapeName(): (name: string)
      reads this
      ensures name in KnownShapes
      ensures ParseShape(name) == Success(shape)
    {
      Name(shape)
    }

    /** The shape setter: an unknown name fails and leaves every field as it
        was; a known one changes the shape and recomputes the geometry. */
    method SetShape(name: string) returns (r: Outcome)
      requires Valid()
      modifies this
      ensures Valid()
      ensures r.Fail? <==> name !in KnownShapes
      ensures r.Fail? ==> r.error == UnknownShape(name) && unchanged(this)
      ensures r.Pass? ==> State() == WithShape(math, old(State()), ParseShape(name).value)
    {
      var parsed := ParseShape(name);
      if parsed.Failure? {
        return Fail(parsed.error);
      }
      shape := parsed.value;
      RecomputeShape();
      return Pass;
    }

    method SetS(val: real)
      requires Valid()
      modifies this
      ensures Valid()
      ensures State() == WithS(math, old(State()), val)
    {
      s := val;
      RecomputeShape();
    }

    method SetF(val: real)
      requires Valid()
      modifies this
      ensures Valid()
      ensures State() == WithF(old(State()), val)
    {
      f := val;
    }

    method SetD(val: real)
      requires Valid()
      modifies this
      ensures Valid()
      ensures State() == WithD(old(State()), val)
    {
      d := val;
    }

    method SetP(val: real)
      requires Valid()
      modifies this
      ensures Valid()
      ensures State() == WithP(old(State()), val)
    {
      p := val;
    }

    // -------------------------------------------------------------------------
    // Electrical quantities, computed from the current fields on every call

    /** Radiation resistance, ohms. */
    function Rr(): (r: real)
      reads this
      requires Valid()
      ensures r >= 0.0
      ensures r == 0.0 <==> f == 0.0 || s == 0.0
    {
      var x := (f * f) * a;
      ProductZero(f, f);
      ProductZero(f * f, a);
      ProductZero(x, x);
      RadiationResistance(f, a)
    }

    /** The loss resistance is defined when `sqrt(f)` is and `d` is not zero. */
    predicate LossDefined()
      reads this
    {
      f >= 0.0 && d != 0.0
    }

    /** Loss resistance, ohms. */
    function Rl(): (r: real)
      reads this
      requires Valid() && LossDefined()
      ensures f > 0.0 && s > 0.0 && d > 0.0 ==> r > 0.0
    {
      LossResistance(math, f, s, d)
    }

    /** The inductance is defined when the argument of `log10` is positive. */
    predicate InductanceDefined()
      reads this
      requires Valid()
    {
      d != 0.0 && 96.0 * s / (math.pi * d) > 0.0
    }

    /** Inductance, henrys. */
    function L(): (r: real)
      reads this
      requires Valid() && InductanceDefined()
    {
      Inductance(math, s, d)
    }

    /** Inductive reactance, ohms. */
    function Xl(): (r: real)
      reads this
      requires Valid() && InductanceDefined()
      ensures f > 0.0 ==> (r > 0.0 <==> L() > 0.0)
      ensures r == 0.0 <==> f == 0.0 || L() == 0.0
    {
      InductiveReactance(math, f, L())
    }

    /** Tuning capacitance, farads. */
    function Ct(): (r: real)
      reads this
      requires Valid() && InductanceDefined() && f != 0.0 && Xl() != 0.0
      ensures r != 0.0
      ensures 1.0 / (2.0 * math.pi * (f * 1.0e6) * r) == Xl()
      ensures f > 0.0 && Xl() > 0.0 ==> r > 0.0
    {
      TuningCapacitance(math, f, Xl())
    }

    /** Quality factor. */
    function Q(): (r: real)
      reads this
      requires Valid() && InductanceDefined() && LossDefined() && Rr() + Rl() != 0.0
      ensures r * (2.0 * (Rr() + Rl())) == Xl()
      ensures Rr() + Rl() > 0.0 ==> (r > 0.0 <==> Xl() > 0.0)
    {
      QualityFactor(Xl(), Rr(), Rl())
    }

    /** Efficiency, the fraction of the power that is radiated. */
    function Efficiency(): (r: real)
      reads this
      requires Valid() && LossDefined() && Rr() + Rl() != 0.0
      ensures Rl() > 0.0 ==> 0.0 <= r < 1.0
      ensures r == 0.0 <==> Rr() == 0.0
    {
      RadiatedFraction(Rr(), Rl())
    }

    /** Bandwidth, hertz. */
    function Bandwidth(): (r: real)
      reads this
      requires Valid() && InductanceDefined() && LossDefined() && Rr() + Rl() != 0.0 && Q() != 0.0
      ensures r * Q() == f * 1.0e6
      ensures f > 0.0 && Q() > 0.0 ==> r > 0.0
    {
      BandwidthAt(f, Q())
    }

    /** Distributed capacity, pF. */
    function Cd(): (r: real)
      reads this
      requires Valid()
      ensures s > 0.0 ==> r > 0.0
    {
      DistributedCapacity(s)
    }

    /** Capacitor voltage, volts. */
    function Vc(): (r: real)
      reads this
      requires Valid() && InductanceDefined() && LossDefined() && Rr() + Rl() != 0.0
      requires p * Xl() * Q() >= 0.0
      ensures r >= 0.0
      ensures p * Xl() * Q() > 0.0 ==> r > 0.0
    {
      CapacitorVoltage(math, p, Xl(), Q())
    }
  }

  // ---------------------------------------------------------------------------
  // Properties relating loops

  /** With physically meaningful inputs the efficiency is defined and lies in
      [0, 1). */
  lemma PhysicalEfficiency(x: Loop)
    requires x.Valid() && x.s > 0.0 && x.f > 0.0 && x.d > 0.0
    ensures x.LossDefined() && x.Rl() > 0.0 && x.Rr() + x.Rl() > 0.0
    ensures 0.0 < x.Efficiency() < 1.0
  {
  }

  /** The argument of `log10` in the inductance is positive exactly when the
      conductor length and diameter have the same sign. */
  lemma InductanceDomain(x: Loop)
    requires x.Valid()
    ensures x.InductanceDefined() <==> x.s * x.d > 0.0
  {
  }

  /** The distributed capacity depends on the conductor length alone. */
  lemma CdDependsOnlyOnS(x: Loop, y: Loop)
    requires x.Valid() && y.Valid() && x.s == y.s
    ensures x.Cd() == y.Cd()
    ensures x.Cd() == 0.82 * x.s
  {
  }

  /** Two loops built from the same inputs are in the same state and agree on
      every derived quantity wherever it is defined. */
  lemma Determinism(x: Loop, y: Loop)
    requires x.Valid() && y.Valid() && x.math == y.math
    requires x.shape == y.shape && x.s == y.s && x.f == y.f && x.d == y.d && x.p == y.p
    ensures x.State() == y.State()
    ensures x.Rr() == y.Rr() && x.Cd() == y.Cd()
    ensures x.LossDefined() ==> x.Rl() == y.Rl()
    ensures x.LossDefined() && x.Rr() + x.Rl() != 0.0 ==> x.Efficiency() == y.Efficiency()
    ensures x.InductanceDefined() ==> x.L() == y.L() && x.Xl() == y.Xl()
    ensures x.InductanceDefined() && x.f != 0.0 && x.Xl() != 0.0 ==> x.Ct() == y.Ct()
    ensures x.InductanceDefined() && x.LossDefined() && x.Rr() + x.Rl() != 0.0 ==>
      && x.Q() == y.Q()
      && (x.Q() != 0.0 ==> x.Bandwidth() == y.Bandwidth())
      && (x.p * x.Xl() * x.Q() >= 0.0 ==> x.Vc() == y.Vc())
  {
  }

  /** With physically meaningful inputs (positive `s`, `f`, `d` and
      non-negative `p`) the quality factor and the capacitor voltage are
      defined, whatever `log10` gives, and the voltage is non-negative. */
  lemma PhysicalQAndVc(x: Loop)
    requires x.Valid() && x.s > 0.0 && x.f > 0.0 && x.d > 0.0 && x.p >= 0.0
    ensures x.InductanceDefined() && x.LossDefined() && x.Rr() + x.Rl() > 0.0
    ensures x.p * x.Xl() * x.Q() >= 0.0
    ensures x.Vc() >= 0.0
  {
    PhysicalEfficiency(x);
    InductanceDomain(x);
    var xl, q, r := x.Xl(), x.Q(), x.Rr() + x.Rl();
    assert q * (2.0 * r) == xl;
    assert xl * q == q * q * (2.0 * r);
    assert xl * q >= 0.0;
  }
}
