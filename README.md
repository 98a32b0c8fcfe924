# Small transmitting loop antenna, in Dafny

This project models the `Loop` class of a small loop antenna calculator. The
calculator uses the closed-form equations of Ted Hart. A loop has a shape
(circle, square or octagon) and four numeric inputs:

- `s`: conductor length, in feet;
- `f`: operating frequency, in MHz;
- `d`: conductor diameter, in inches;
- `p`: transmitter power, in watts.

It also keeps three derived geometry fields: segment length `l`, loop
`diameter` and area `a`. These are recomputed at construction and whenever
the shape or `s` is set. The `f`, `d` and `p` setters only assign their field.
The electrical quantities are computed from the current fields on every call:
radiation and loss resistance, inductance, reactance, tuning capacitance, Q,
efficiency, bandwidth, distributed capacity and capacitor voltage.

Files:

- `pymath.dfy` (module `PyMath`): `MathLib`, a value standing for `pi`,
  `sqrt` and `log10` of Python's `math` module. `Sound()` gives the only facts
  the model uses: `pi > 0`, `sqrt(x) >= 0` for `x >= 0`, and `sqrt(x) > 0`
  for `x > 0`.
- `loop.dfy` (module `LoopAntenna`): the shape names and their parsing, the
  display scalers, the geometry dispatch `GeometryOf`, the loop equations as
  functions of plain values, and a value-level `LoopState` with one transition
  per setter (`Run` applies a sequence of setter calls). It also holds the class `Loop`
  and lemmas relating loops. `Loop.Valid()` is the class invariant: the
  geometry fields always equal `GeometryOf(math, shape, s)`. Each setter's
  contract ties `State()` to the matching transition of `old(State())`.
  Each electrical function of `Loop` applies the matching equation to the
  current fields, and calls the other quantities as the source does.
- `loop_test.dfy` (module `LoopTest`): the two doctest scenarios, restricted
  to the values that do not involve `pi`, `sqrt` or `log10`. It also covers
  rejection of an unknown shape and the order independence of the `s` and
  `f` setters on two live objects.

All quantities are Dafny `real`s, an exact idealisation of Python floats.
Each electrical function requires only the condition under which the Python
expression does not raise: a non-zero divisor, a non-negative `sqrt`
argument, or a positive `log10` argument. Lemmas show that positive `s`, `f`
and `d` meet these conditions where the uninterpreted functions allow it.

For a circle, the field named `diameter` holds `s / (2 pi)`, which is the
radius. The area `pi * diameter^2` is therefore the right area.
`GeometryMeaning` states this (`2 pi diameter == s`). The model keeps the
source's values.

## Model

| member | source | states |
|---|---|---|
| `LoopAntenna.ParseShape` | loop.py:22-26 | a name is accepted exactly when it is one of "circle", "square", "octagon"; an accepted name maps back to itself, and a rejected one yields the unknown-shape error carrying that name |
| `LoopAntenna.NameParses` | loop.py:22-26 | every shape's name parses back to that shape |
| `LoopAntenna.Kilo` | loop.py:31-32 | the result divided by 1e3 is the input |
| `LoopAntenna.Micro` | loop.py:34-35 | the result divided by 1e6 is the input |
| `LoopAntenna.Pico` | loop.py:37-38 | the result divided by 1e12 is the input |
| `LoopAntenna.ScalerLadder` | loop.py:31-38 | micro is kilo applied twice and pico is micro applied twice; kilo is zero only at zero |
| `LoopAntenna.GeometryOf` | loop.py:67-81 | for every shape, the area is non-negative, and it is zero exactly when the conductor length is zero |
| `LoopAntenna.GeometryMeaning` | loop.py:67-81 | the segments (4 for a square, 8 for an octagon) or the circumference add up to `s`; a circle has no segments and its area is s²/(4π); a square's diameter is its side and its area is s²/16; an octagon's diameter is l·(1+√2) and its area is 2·l·diameter = (1+√2)·s²/32 |
| `LoopAntenna.GeometryScales` | loop.py:67-81 | scaling `s` by k scales `l` and `diameter` by k and the area by k², for every shape |
| `LoopAntenna.Initial` | loop.py:54-64 | the initial state holds the five inputs and geometry consistent with shape and `s` |
| `LoopAntenna.WithShape` | loop.py:93-96 | a shape change keeps `s`, `f`, `d`, `p` and leaves the geometry consistent with the new shape |
| `LoopAntenna.WithS` | loop.py:104-105 | a length change keeps shape, `f`, `d`, `p` and leaves the geometry consistent with the new `s` |
| `LoopAntenna.OperatingInputsKeepGeometry` | loop.py:111-129 | setting `f`, `d` or `p` leaves shape, `s` and the geometry unchanged, so the state stays consistent |
| `LoopAntenna.SetSCommutes` | loop.py:102-129 | setting `s` and then `f`, `d` or `p` gives the same state as the other order |
| `LoopAntenna.RunIsFreshConstruction` | loop.py:44-129 | after any sequence of setter calls (a refused shape name leaves the state as it was) the state equals the one construction gives for the inputs it now holds, so the geometry always matches shape and `s` |
| `LoopAntenna.OperatingRunKeepsGeometry` | loop.py:111-129 | any sequence of `f`, `d` and `p` settings leaves the shape, `s` and the geometry as they were |
| `LoopAntenna.NoHiddenState` | loop.py:67-105 | after a shape or length change the state depends only on the inputs, not on the geometry held before |
| `LoopAntenna.Loop.constructor` | loop.py:44-64 | a new loop is valid and its state is the initial state for its inputs |
| `LoopAntenna.Loop.Create` | loop.py:51-64 | construction fails with the unknown-shape error exactly when the name is not a known shape; otherwise a fresh valid loop in the initial state for the parsed shape |
| `LoopAntenna.Loop.RecomputeShape` | loop.py:67-81 | changes only `l`, `diameter` and `a`, and afterwards they match the shape and `s` |
| `LoopAntenna.Loop.ShapeName` | loop.py:87-89 | the shape getter returns a known name that parses to the current shape |
| `LoopAntenna.Loop.SetShape` | loop.py:91-96 | an unknown name fails with the unknown-shape error and leaves every field unchanged; a known one gives the shape-change transition of the old state |
| `LoopAntenna.Loop.SetS` | loop.py:102-105 | the new state is the length-change transition of the old state: new `s`, recomputed geometry, all else kept |
| `LoopAntenna.Loop.SetF` | loop.py:111-113 | only `f` changes |
| `LoopAntenna.Loop.SetD` | loop.py:119-121 | only `d` changes |
| `LoopAntenna.Loop.SetP` | loop.py:127-129 | only `p` changes |
| `LoopAntenna.Loop.Rr` | loop.py:133-135 | the radiation resistance is non-negative, and zero exactly when `f` or `s` is zero |
| `LoopAntenna.Loop.Rl` | loop.py:137-139 | the loss resistance is positive for positive `f`, `s`, `d` |
| `LoopAntenna.InductanceDomain` | loop.py:141-143 | the `log10` argument of the inductance is positive exactly when `s·d > 0` |
| `LoopAntenna.Loop.L` | loop.py:141-143 | no contract beyond its domain, a positive `log10` argument, which `InductanceDomain` characterises |
| `LoopAntenna.Loop.Xl` | loop.py:145-147 | at a positive frequency the reactance is positive exactly when the inductance is; it is zero exactly when `f` or the inductance is |
| `LoopAntenna.Loop.Ct` | loop.py:149-151 | the tuning capacitor's reactance at `f` (in Hz) equals the loop's inductive reactance; it is positive when `f` and `Xl` are |
| `LoopAntenna.Loop.Q` | loop.py:153-155 | Q times twice the total resistance is `Xl`; with positive total resistance, Q is positive exactly when `Xl` is |
| `LoopAntenna.Loop.Efficiency` | loop.py:157-159 | with positive loss resistance the efficiency lies in [0, 1); it is zero exactly when the radiation resistance is |
| `LoopAntenna.PhysicalEfficiency` | loop.py:133-159 | for positive `s`, `f`, `d` the efficiency is defined and lies strictly between 0 and 1 |
| `LoopAntenna.Loop.Bandwidth` | loop.py:161-163 | bandwidth times Q is the frequency in Hz; it is positive when `f` and Q are |
| `LoopAntenna.Loop.Cd` | loop.py:165-167 | the distributed capacity is positive for a positive conductor length |
| `LoopAntenna.CdDependsOnlyOnS` | loop.py:165-167 | two loops with the same `s` have the same distributed capacity, 0.82·s |
| `LoopAntenna.Loop.Vc` | loop.py:169-171 | the capacitor voltage is non-negative, and positive when `p·Xl·Q` is |
| `LoopAntenna.PhysicalQAndVc` | loop.py:153-171 | for positive `s`, `f`, `d` and non-negative `p`, Q and the capacitor voltage are defined whatever `log10` gives, and the voltage is non-negative |
| `LoopAntenna.Determinism` | loop.py:44-171 | two loops with equal inputs and maths are in the same state and agree on every electrical quantity wherever it is defined: `Rr`, `Rl`, `L`, `Xl`, `Ct`, `Q`, efficiency, bandwidth, `Cd` and `Vc` |
| `LoopTest.OctagonScenario` | loop_test.py:9-59 | the octagon with s = 9 has l = 1.125 and Cd = 7.38; after `s := 12`, `f := 10` it is still an octagon with l = 1.5 and Cd = 9.84 |
| `LoopTest.UnknownShapeScenario` | loop.py:51-96 | "hexagon" builds no loop (the check at loop.py:51-52); given to the setter of a square loop (the check at loop.py:93-94) it is refused, and the loop keeps its shape, `l`, `diameter` and `a` |
| `LoopTest.OrderIndependence` | loop.py:102-113 | two loops built alike end in the same state whether `s` or `f` is set first |

## Left out

- `summary()` (loop.py:173-192) is string formatting with decimal rounding. It is presentation only.
- The numbers in the doctest that involve `pi`, `sqrt` or `log10` (area 6.111, Xl 178.805, efficiency 56.5 %, and so on) depend on floating-point values of those functions. They cannot be derived over exact reals with uninterpreted maths.
- `pi`, `sqrt` and `log10` have no definitions here, only the sign facts in `MathLib.Sound()`. Their values are a parameter of each loop.
- Floating-point rounding, NaN, infinity and Python's exceptions for bad numeric inputs are not modelled. Each electrical function instead requires the condition under which its expression is defined.
- LoopAntenna.Loop.L: has no contract of its own, because nothing is assumed about `log10`. Its domain is stated by `InductanceDomain`, and its sign is related to `Xl` by `Xl`'s contract.
- LoopAntenna.Loop.Ct and LoopAntenna.Loop.Bandwidth: nothing is proved about them for all positive inputs. They are defined only when the inductance is not zero, and that depends on `log10`.
- Python lets `shape`, `s`, `f`, `d` and `p` hold values of any type. The model types the shape as one of three values once it is accepted, and the numbers as reals.
- The doctest runner (loop_test.py:66-68) is not part of this model.
