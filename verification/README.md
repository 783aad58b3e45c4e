# Discrete-time neuron models in Dafny

This project models two small spiking-neuron simulators and proves properties
of them.

- **Leaky integrate-and-fire (LIF).** These are the classes `lif_neuron`
  (lif_neuron.py) and `lif` (lif.py). A neuron keeps three parallel histories,
  one entry per time step: `input`, `potential` and `output`. Each call
  `sim(voltage, time)` appends `int(time/time_step)` entries. A new potential
  is the previous one, plus the scaled voltage divided by the time step, minus
  the leak `max(0, prev/(resistance/time_step))`. When that value exceeds
  `capacitance`, the neuron fires: it stores potential 0 and output 1. The
  two classes' `__init__` and `sim` differ in two ways only. `lif` divides
  the voltage by 1000 before integrating it. Its default threshold is 10 rather than 10000. Both are one
  machine here (module `LeakyIntegrateFire`), with a `gain` parameter of 1 or
  1/1000.
- **Izhikevich.** This is the simulation loop of `Izhikevich.model`. It is a
  forward-Euler recurrence on `(v, u)` with step `h = 0.5`. The input current
  is applied while `start <= i*h <= end`, and both ends of that window count.
  If the Euler value of `v` reaches 30, `v` is reset to `c` and `d` is added
  to `u`.

Integer histories. The LIF histories start as `np.array([0])`, which has
integer dtype, and `resize` keeps that dtype. So every value stored into them
is truncated toward zero. The model writes this as `Numeric.Trunc`. The spike
test compares the untruncated value with the threshold, and so does the model.

Each model is a pure `Step` function plus a recursive fold (`Extend`,
`Simulate`). Each also has an imperative method (`SimLoop`, `ModelLoop`) that
follows the source loop index by index and is proved equal to the fold. Each
fold is also characterised independently. A history is the fold's result
exactly when it keeps the old entries and every new entry follows from the one
before it by `Step`.

Modules:

- `Numeric` (numeric.dfy): `Max`, truncation toward zero, ceiling.
- `LeakyIntegrateFire` (lif_core.dfy): the shared LIF machine.
- `LifProperties` (lif_properties.dfy): properties of the LIF machine.
- `LifNeuron` (lif_neuron.dfy) and `Lif` (lif.dfy): the two classes'
  constructors with their default arguments, and the input scaling of each.
- `Izhikevich` (izhikevich.dfy): the model and its loop.
- `IzhikevichProperties` (izhikevich_properties.dfy): its properties.

Consequences of the code worth stating plainly:

- The stored LIF potential can go negative. With time step 2, resistance 1,
  previous potential 5 and no input it becomes -5
  (`LifProperties.FastLeakGoesNegative`), because with `time_step > resistance`
  the leak can remove more than the previous potential. It stays non-negative when
  `0 < time_step <= resistance`, the drive is non-negative and the previous
  potential is non-negative (`LifProperties.StepNonNegative`); that condition
  is sufficient, not necessary.
- When `start > end`, `Izhikevich.model` prints a message and returns without
  simulating. That is `Izhikevich.Skipped`.

## Model

| member | source | states |
|---|---|---|
| `Numeric.Trunc` | lif_neuron.py:51 | Storing a float into the integer array truncates toward zero: the result lies within 1 of the value, on the zero side. |
| `LeakyIntegrateFire.Init` | lif_neuron.py:22-24 | The initial histories `[0]`, `[0]`, `[0]` are parallel. The output is 0/1. With a non-negative capacitance, no stored potential is above it. |
| `LeakyIntegrateFire.StepCount` | lif_neuron.py:29 | The number of appended steps is `time/time_step` truncated toward zero, as Python's `int` does: within 1 of it, on the zero side. |
| `LeakyIntegrateFire.LastPotentialReadsPrevious` | lif_neuron.py:32-45 | The potential a step reads, `self.potential[i-1]` in the resized array, is the last entry before slot `i`; at `i == 0` the index `-1` wraps to a zero-filled new slot and reads 0. |
| `LifNeuron.NewDefaults` | lif_neuron.py:12-24 | `lif_neuron()` has capacitance 10000, resistance 1 and time step 1, and each history is `[0]`. |
| `Lif.NewDefaults` | lif.py:12-24 | `lif()` has capacitance 10, resistance 1 and time step 1, and each history is `[0]`. |
| `LeakyIntegrateFire.Resize` | lif_neuron.py:32-34 | `ndarray.resize` gives the requested length. It keeps the leading entries, and new slots are 0. |
| `LeakyIntegrateFire.Leak` | lif_neuron.py:45 | The leak `max(0, prev/(resistance/time_step))` is never negative. |
| `LeakyIntegrateFire.Step` | lif_neuron.py:42-52 | One step writes a 0/1 flag. The flag is 1 exactly when the untruncated potential exceeds the capacitance, and then 0 is stored. Otherwise the truncated potential is stored. With a non-negative capacitance, the stored value never exceeds it. |
| `LeakyIntegrateFire.Extend` | lif_neuron.py:37-53 | Appending `k` steps keeps the histories parallel and grows each one by `k`. |
| `LeakyIntegrateFire.ExtendKeepsPrefix` | lif_neuron.py:32-53 | Appending steps never rewrites an old entry: the old input, potential and output histories are prefixes of the new ones. |
| `LeakyIntegrateFire.Sim` | lif_neuron.py:27-37 | A zero time step is a division error. A step count that makes a length negative is a resize error. Otherwise each history's length changes by `int(time/time_step)`. A non-negative count keeps the old entries as a prefix. A negative count truncates the histories. |
| `LeakyIntegrateFire.NextSample` | lif_neuron.py:42-48 | The loop body's own arithmetic (pre-reset value, leak clamp, strict test, reset to 0) computes the same sample as `Step`. |
| `LeakyIntegrateFire.FillNewSlots` | lif_neuron.py:37-53 | Overwriting the zero-filled new slots in order, each from the slot before it, yields exactly the histories of `Extend`. |
| `LeakyIntegrateFire.SimLoop` | lif_neuron.py:27-54 | The resize-then-overwrite loop, with Python's index `-1` wrapping on an emptied history, gives the same result as `Sim`. |
| `LifProperties.ExtendCharacterised` | lif_neuron.py:37-53 | The histories after `k` steps are exactly those that keep the old entries and follow `Step` from the previous potential at every new index. |
| `LifProperties.StepsAtSpikeRule` | lif_neuron.py:42-52 | Following `Step` at an index is the same as the written-out threshold-and-reset rule: input is the truncated voltage, output is 1 iff the pre-reset value exceeds the capacitance, a spike stores 0, and otherwise the truncated value is stored. |
| `LifProperties.SimAppends` | lif_neuron.py:37-53 | Every entry a successful `sim` appends obeys that threshold-and-reset rule. |
| `LifProperties.SimAppendsByRule` | lif_neuron.py:37-52 | The same rule with the per-step drive `voltage*gain/time_step` written as a plain value: the output is 0 or 1, and 1 iff `prev + drive - max(0, prev/(resistance/time_step))` exceeds the capacitance, a spike stores 0, otherwise that value truncated is stored. |
| `LifProperties.SimKeepsBinaryOutput` | lif_neuron.py:42-53 | If every output entry is 0 or 1 before `sim`, that stays true after it. |
| `LifProperties.SimKeepsBelowThreshold` | lif_neuron.py:46-51 | With a non-negative capacitance, `sim` keeps every stored potential at or below the capacitance. |
| `LifProperties.StepWithoutInput` | lif_neuron.py:43-46 | With zero voltage and a previous potential not above the capacitance, a step neither fires nor raises the potential. |
| `LifProperties.PrevWithoutInput` | lif_neuron.py:43-51 | During a zero-input run, every potential a step reads is at most the last potential before the run. |
| `LifProperties.SimWithoutInput` | lif_neuron.py:43-51 | `sim(0, time)` from a potential not above the capacitance appends no spike, and each new potential is at most the one before it. |
| `LifProperties.ShortSimUnchanged` | lif_neuron.py:29-37 | When `time` is shorter than one time step, `sim` leaves the histories unchanged. |
| `LifProperties.ExtendTwice` | lif_neuron.py:37-53 | `j` steps followed by `k` steps with the same voltage equal `j + k` steps, because state carries over between calls. |
| `LifProperties.StepNonNegative` | lif_neuron.py:43-45 | With `0 < time_step <= resistance`, a non-negative drive and a non-negative previous potential, the stored potential is non-negative. |
| `LifProperties.FastLeakGoesNegative` | lif_neuron.py:43-45 | With time step 2, resistance 1, previous potential 5 and no input, the stored potential is -5. |
| `LifNeuron.SimStep` | lif_neuron.py:37-52 | In `lif_neuron`, each new input entry is the truncated voltage. A new output is 0 or 1, and 1 iff `prev + voltage/time_step - max(0, prev/(resistance/time_step))` exceeds the capacitance; a spike stores 0 and otherwise that value, truncated, is stored. |
| `Lif.SimStep` | lif.py:30-53 | In `lif`, each new input entry is the unscaled voltage, truncated. A new output is 0 or 1, and 1 iff `prev + voltage/1000/time_step - max(0, prev/(resistance/time_step))` exceeds the capacitance; a spike stores 0 and otherwise that value, truncated, is stored. |
| `Izhikevich.NewDefaults` | Izhikevich.py:8-19 | `Izhikevich()` has `a = 0.02`, `b = 0.2`, `c = -65` and `d = 2`. |
| `Izhikevich.Input` | Izhikevich.py:46 | The input current is `I` whenever `start <= i*h <= end`, ends included. Outside that window, and only there, it is 0. |
| `Izhikevich.Step` | Izhikevich.py:41-53 | When the Euler value of `v` is at least 30, the new sample is `(c, Euler u + d)`; otherwise it is the pair of Euler values. Either way `v` ends below 30 or at `c`. |
| `Izhikevich.Simulate` | Izhikevich.py:35-53 | The fold produces `n` samples of `v` and `u`, starting at `v[0] = -65` and `u[0] = b*v[0]`. |
| `Izhikevich.GridLength` | Izhikevich.py:34 | The grid `arange(0, max(1000, end) + 0.01, h)` has at least 2001 points. |
| `Izhikevich.Grid` | Izhikevich.py:34 | Grid point `i` is `i*h`. |
| `Izhikevich.Model` | Izhikevich.py:30-53 | `model` returns without simulating exactly when `start > end`. Otherwise `time`, `v` and `u` all have the grid's length and start at `-65` and `b*(-65)`. |
| `Izhikevich.NextSample` | Izhikevich.py:41-53 | The loop body's own arithmetic equals `Step` applied to the previous sample with the input chosen by the window test. |
| `Izhikevich.ModelLoop` | Izhikevich.py:30-53 | The array loop over indices `1 .. len(time)-1` gives the same result as `Model`. |
| `IzhikevichProperties.SimulateCharacterised` | Izhikevich.py:37-53 | A pair of arrays is the fold's result exactly when it starts at the initial sample and every later sample is `Step` of the one before it. |
| `IzhikevichProperties.StepsAtSpikeRule` | Izhikevich.py:41-53 | Following `Step` at an index is the same as the written-out update: `v` from the previous `v` and `u`, and `u` from the previous `v` and `u` (never the new `v`). If the Euler `v` is at least 30, `v := c` and `u := Euler u + d`. |
| `IzhikevichProperties.ModelSteps` | Izhikevich.py:40-53 | Every sample `model` computes after the first obeys that written-out update. |
| `IzhikevichProperties.ModelBelowPeak` | Izhikevich.py:37-53 | If `c < 30`, every stored `v` is below 30. |
| `IzhikevichProperties.GridCoversHorizon` | Izhikevich.py:34-36 | The grid's last point is below `max(1000, end) + 0.01`, and one more point would not be. |
| `IzhikevichProperties.GridEndsAtHorizon` | Izhikevich.py:34 | When `max(1000, end) = k*h`, the grid has `k + 1` points and ends exactly at `max(1000, end)`. |
| `IzhikevichProperties.DefaultModelLength` | Izhikevich.py:22-36 | With the default `end = 800`, `model` simulates 2001 samples and the grid ends at 1000. |

## Left out

- `LeakyIntegrateFire.Sim`: requires `resistance != 0` whenever at least one
  step is taken. With resistance 0 the leak is `max(0, prev/0.0)`. NumPy gives
  `nan` or `-inf` for a previous potential at or below 0, and Python's
  `max(0, ...)` then returns 0, so the leak is exactly 0. Only a positive
  previous potential gives `+inf`, which cannot be written over reals. The
  driver at lif.py:68-69, `lif(resistance=0).sim(650, 1000)`, stays finite:
  each step stores `int(0.65) = 0`, so its 1000 new entries are input 650,
  potential 0 and output 0. The model does not cover that run.
- NumPy's 64-bit integer overflow in the histories. Stored values are
  unbounded integers.
- IEEE floating-point rounding. All arithmetic is exact over `real`, so no
  property here depends on rounding. The grid length is the exact
  real-number length of `arange`.
- The `debug` flag and its `print` calls in `sim`. They are output only and
  do not change state.
- `plot_activity` in both LIF classes and the plotting part of
  `Izhikevich.model`. They are rendering only.
- The module-level drivers (lif.py:68-71, Izhikevich.py:69) and test.py. The
  test script calls `plot_rate`, which `lif_neuron` does not define.
- HodgkinHuxley.py. It is rate functions built on `exp`, which `real` cannot
  represent exactly, and the file contains no integrator.
- Numeric-trajectory claims, such as "a stimulus of 5 makes the neuron spike"
  or firing-rate monotonicity. They depend on particular trajectories, not on
  anything the code states.
