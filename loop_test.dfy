/** The doctest scenarios, restated over exact reals: only the quantities that
    do not depend on pi, sqrt or log10 are pinned to numbers. */
module LoopTest {
  import opened PyMath
  import opened LoopAntenna

  /** `Loop('octagon', 9.0, 14.0, 0.9, 100.0)`, then `s := 12.0` and
      `f := 10.0`. */
  method OctagonScenario(m: MathLib)
    returns (l1: real, cd1: real, shape2: string, s2: real, f2: real, l2: real, cd2: real)
    requires m.Sound()
    ensures l1 == 1.125 && cd1 == 7.38
    ensures shape2 == OCTAGON && s2 == 12.0 && f2 == 10.0
    ensures l2 == 1.5 && cd2 == 9.84
  {
    var r := Loop.Create(m, "octagon", 9.0, 14.0, 0.9, 100.0);
    var loop := r.value;
    l1, cd1 := loop.l, loop.Cd();
    loop.SetS(12.0);
    loop.SetF(10.0);
    shape2, s2, f2, l2, cd2 := loop.ShapeName(), loop.s, loop.f, loop.l, loop.Cd();
  }

  /** A name outside the three known shapes builds nothing, and the shape
      setter refuses it without touching the loop. */
  method UnknownShapeScenario(m: MathLib)
    returns (built: bool, setOk: bool, shape: string, l: real, diameter: real, a: real)
    requires m.Sound()
    ensures !built && !setOk
    ensures shape == SQUARE && l == 2.0 && diameter == 2.0 && a == 4.0
  {
    var r := Loop.Create(m, "hexagon", 9.0, 14.0, 0.9, 100.0);
    built := r.Success?;
    var loop := new Loop(m, Square, 8.0, 14.0, 0.9, 100.0);
    var outcome := loop.SetShape("hexagon");
    setOk := outcome.Pass?;
    shape, l, diameter, a := loop.ShapeName(), loop.l, loop.diameter, loop.a;
  }

  /** Setting `s` then `f` on one loop and `f` then `s` on another built from
      the same inputs leaves the two in the same state. */
  method OrderIndependence(m: MathLib, shape: Shape, s: real, f: real, d: real, p: real, s1: real, f1: real)
    returns (same: bool)
    requires m.Sound()
    ensures same
  {
    var x := new Loop(m, shape, s, f, d, p);
    var y := new Loop(m, shape, s, f, d, p);
    x.SetS(s1);
    x.SetF(f1);
    y.SetF(f1);
    y.SetS(s1);
    SetSCommutes(m, Initial(m, shape, s, f, d, p), s1, f1);
    same := x.State() == y.State();
  }
}
