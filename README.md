# DC-bus model of a grid converter, in Dafny

This project models the DC-bus plant of the gritulator converter simulator:
the class `DCBus` of `motulator/model/dc_bus/_dc_bus.py`. The DC bus is a
capacitor `C_dc` in parallel with a conductance `G_dc`. An external current
`i_ext(t)` acts as a disturbance, and the converter draws the DC current `i_dc`.
The bus voltage `u_dc` is the single state variable. The model has four parts:

- the constructor, which stores `C_dc`, `G_dc`, `i_ext` and the voltage
  `u_dc0`, with the source's defaults (1 mF, 0 S, zero current, 650 V);
- `DcCurrent`, the converter DC current. It is the dot product of the
  three-phase switching ratios and the three phase currents;
- `F`, the state derivative `du_dc/dt`, from the current balance at the DC node;
- `MeasDcVoltage`, the measured DC voltage.

Everything lives in `dc_bus.dfy`, module `DcBus`. All quantities are Dafny
`real`s. Three-phase quantities have type `Abc`, a sequence of exactly three
reals, matching the source's arrays of shape (3,). The external current is a
total function `real -> real`. `DcCurrent` is proved equal to a separate
recursive dot product `Dot`. Linearity is proved on `Dot` by induction and
then carried over to `DcCurrent`.

`complex2abc` turns the complex switching vector into three-phase ratios. It
lives in `motulator/_helpers.py`, which is not part of this model. So
`DcCurrent` and `F` take it as a parameter `complex2abc: Complex -> Abc` and
assume nothing about what it computes.

The fields are mutable `var`s, as in the source. The simulator writes the
integrated voltage into `u_dc0`, and a scenario script may replace `i_ext` on a
live object. `F` and `MeasDcVoltage` are functions that only `reads this`, so
they cannot change any field.

`_dc_bus.py` checks no array sizes: it indexes the three phases directly, and
the model fixes that length in the type `Abc`.

## Model

| member | source | states |
|---|---|---|
| `DcBus.DCBus.constructor` | motulator/model/dc_bus/_dc_bus.py:30-35 | stores `C_dc`, `G_dc`, `i_ext` and `u_dc0` unchanged; defaults are 0.001 F, 0 S, `t => 0` and 650 V |
| `DcBus.DCBus.DcCurrent` | motulator/model/dc_bus/_dc_bus.py:37-64 | the DC current is the dot product (reference `Dot`) of the three-phase ratios `complex2abc(q)` and the phase currents |
| `DcBus.DotAbc` | motulator/model/dc_bus/_dc_bus.py:62 | for three-phase vectors, the reference dot product is the three-term sum `q_abc[0]*i[0] + q_abc[1]*i[1] + q_abc[2]*i[2]` |
| `DcBus.DCBus.F` | motulator/model/dc_bus/_dc_bus.py:66-96 | current balance at the DC node: `C_dc * du_dc == i_ext(t) - i_dc - G_dc*u_dc`, for any `C_dc != 0` |
| `DcBus.DCBus.MeasDcVoltage` | motulator/model/dc_bus/_dc_bus.py:98-108 | the measurement is the stored voltage `u_dc0`, with no noise or offset; it reads the object and changes nothing |
| `DcBus.DCBus.DefaultBus` | motulator/model/dc_bus/_dc_bus.py:30-35 | a bus built without arguments has `C_dc == 0.001`, `G_dc == 0`, `u_dc0 == 650` and `i_ext(t) == 0` for every `t` |
| `DcBus.DCBus.DcCurrentCommonMode` | motulator/model/dc_bus/_dc_bus.py:58-64 | when the phase currents sum to zero, adding the same ratio to all three phases of `complex2abc(q)` leaves the DC current unchanged |
| `DcBus.DCBus.BuildAndMeasure` | motulator/model/dc_bus/_dc_bus.py:30-35 | measuring a newly built bus returns exactly the `u_dc0` it was given |
| `DcBus.DotScale` | motulator/model/dc_bus/_dc_bus.py:62 | the dot product is homogeneous in the current vector: `Dot(a, k*b) == k*Dot(a, b)`, for any length (by induction) |
| `DcBus.DotAdd` | motulator/model/dc_bus/_dc_bus.py:62 | the dot product is additive in the current vector, for any length (by induction) |
| `DcBus.DotZeros` | motulator/model/dc_bus/_dc_bus.py:62 | the dot product with a zero vector, on either side, is zero (by induction) |
| `DcBus.DCBus.DcCurrentZeroCurrents` | motulator/model/dc_bus/_dc_bus.py:58-64 | zero phase currents give zero DC current, whatever the switching state |
| `DcBus.DCBus.DcCurrentZeroSwitching` | motulator/model/dc_bus/_dc_bus.py:58-64 | zero switching ratios give zero DC current, whatever the phase currents |
| `DcBus.DCBus.DcCurrentSinglePhase` | motulator/model/dc_bus/_dc_bus.py:58-64 | with ratio 1 in phase `k` and 0 in the others, the DC current equals phase `k`'s current |
| `DcBus.DCBus.DcCurrentScale` | motulator/model/dc_bus/_dc_bus.py:62 | scaling the phase currents by `k` scales the DC current by `k` |
| `DcBus.DCBus.DcCurrentAdd` | motulator/model/dc_bus/_dc_bus.py:62 | the DC current of a sum of phase currents is the sum of the DC currents |
| `DcBus.DCBus.Equilibrium` | motulator/model/dc_bus/_dc_bus.py:94 | with `C_dc != 0`, `F == 0` if and only if `i_ext(t) == i_dc + G_dc*u_dc` |
| `DcBus.DCBus.Sign` | motulator/model/dc_bus/_dc_bus.py:94 | with `C_dc > 0`, `F > 0` iff `i_ext(t) > i_dc + G_dc*u_dc`, and `F < 0` iff `i_ext(t) < i_dc + G_dc*u_dc` |
| `DcBus.DCBus.NoConductanceIndependentOfVoltage` | motulator/model/dc_bus/_dc_bus.py:30-94 | with `G_dc == 0` (the default), `F` gives the same value for any two voltages `u_dc` |
| `DcBus.DCBus.DerivativeNonIncreasingInVoltage` | motulator/model/dc_bus/_dc_bus.py:94 | with `C_dc > 0` and `G_dc >= 0`, a higher voltage never gives a larger derivative |
| `DcBus.DCBus.EquilibriumVoltage` | motulator/model/dc_bus/_dc_bus.py:94 | with `C_dc != 0` and `G_dc != 0`, the only voltage where `F == 0` is `(i_ext(t) - i_dc)/G_dc` |

## Left out

- `complex2abc` (in `motulator/_helpers.py`) is not part of this model. `DcCurrent` and `F` take it as a function parameter, and no property depends on what it computes.
- Floating point: every quantity is an exact `real`. `F` requires `C_dc != 0` instead of modelling the division-by-zero error or the IEEE infinities.
- Sensor noise and offset in `meas_dc_voltage`: the source only mentions them in a comment and does not implement them.
- The ODE integration, the sampling loop and the controller: they call `f` and update `u_dc0`, but their code is not part of this model.
- The example scenario script: it only builds objects, swaps signal functions, times the run, prints and plots. It has no logic of its own.
- `DcBus.DCBus.DcCurrent`: the source would accept phase-current arrays longer than three and ignore the extra entries, and would fail on shorter ones. The model fixes the length at three, as the docstring does, through the type `Abc`.
- `DcBus.DCBus.DcCurrent`: `q` is a single complex switching state and the result a single current, as the docstring's return value says. The docstring also calls `q` an array of switching states, one per switching instant, for which numpy would return an array of DC currents; that array reading is not modelled.
