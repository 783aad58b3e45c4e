/**
 The leaky integrate-and-fire machine shared by `lif_neuron` (lif_neuron.py)
 and `lif` (lif.py). The `sim` methods of the two classes differ only in how
 the input voltage is scaled before it is integrated; that scaling is the
 `gain` parameter here.

 A neuron keeps three parallel histories, one entry per time step: the input,
 the membrane potential and the spike output. The histories start as NumPy
 arrays built from the literal `[0]`, so their dtype is integer and every value
 stored into them is truncated toward zero (`Trunc`). The spike test, however,
 compares the untruncated potential with the threshold.
 */
module LeakyIntegrateFire {
  import opened Numeric

  /**
   The constructor arguments of the neuron. `gain` is the factor applied to the
   input voltage before integration: 1 in lif_neuron.py, 1/1000 in lif.py.
   */
  datatype Params = Params(capacitance: real, resistance: real, timeStep: real, gain: real)

  /** The parameters together with the three histories (`input`, `potential`, `output`). */
  datatype Neuron = Neuron(params: Params, input: seq<int>, potential: seq<int>, output: seq<int>)

  /** The two ways a call of `sim` fails before touching the histories. */
  datatype SimError =
    | ZeroTimeStep        // `time/self.time_step` divides by zero
    | NegativeDimensions  // `resize` is asked for a negative length

  datatype SimResult = Ok(neuron: Neuron) | Err(error: SimError)

  /** The three histories are always of equal length. */
  predicate Parallel(n: Neuron) {
    |n.input| == |n.potential| == |n.output|
  }

  /** The leak term divides by `resistance/time_step`, so both must be non-zero. */
  predicate ValidRates(p: Params) {
    p.resistance != 0.0 && p.timeStep != 0.0
  }

  /** `a` is a prefix of `b`. */
  predicate IsPrefix(a: seq<int>, b: seq<int>) {
    |a| <= |b| && a == b[..|a|]
  }

  /** Every output entry is a spike flag, 0 or 1. */
  predicate BinaryOutput(n: Neuron) {
    forall i :: 0 <= i < |n.output| ==> n.output[i] == 0 || n.output[i] == 1
  }

  /** Every stored potential is at most the firing threshold. */
  predicate BelowThreshold(n: Neuron) {
    forall i :: 0 <= i < |n.potential| ==> n.potential[i] as real <= n.params.capacitance
  }

  /** The state right after construction: each history is the one-element array `[0]`. */
  function Init(p: Params): (n: Neuron)
    ensures Parallel(n) && BinaryOutput(n)
    ensures p.capacitance >= 0.0 ==> BelowThreshold(n)
  {
    Neuron(p, [0], [0], [0])
  }

  /** The number of steps `sim` appends: `int(time/time_step)`, truncated toward zero. */
  function StepCount(p: Params, time: real): (r: int)
    requires p.timeStep != 0.0
    ensures 0.0 <= time / p.timeStep ==> 0 <= r && r as real <= time / p.timeStep < r as real + 1.0
    ensures time / p.timeStep < 0.0 ==> r <= 0 && r as real - 1.0 < time / p.timeStep <= r as real
  {
    Trunc(time / p.timeStep)
  }

  /**
   `ndarray.resize` on a one-dimensional array: keep the leading entries that
   fit and fill any new entries with zeros.
   */
  function Resize(s: seq<int>, len: nat): (r: seq<int>)
    ensures |r| == len
    ensures len <= |s| ==> r == s[..len]
    ensures len >= |s| ==> r[..|s|] == s && forall i :: |s| <= i < len ==> r[i] == 0
  {
    if len <= |s| then s[..len] else s + seq(len - |s|, _ => 0)
  }

  /** The input added in one step: the scaled voltage divided by the time step. */
  function Drive(p: Params, voltage: real): real
    requires p.timeStep != 0.0
  {
    voltage * p.gain / p.timeStep
  }

  /** The leak `max(0, prev/(resistance/time_step))`; it never adds charge. */
  function Leak(p: Params, prev: int): (r: real)
    requires ValidRates(p)
    ensures r >= 0.0
  {
    Max(0.0, prev as real / (p.resistance / p.timeStep))
  }

  /** The potential of one step before the threshold test (a float in the source). */
  function PreReset(p: Params, prev: int, voltage: real): real
    requires ValidRates(p)
  {
    prev as real + Drive(p, voltage) - Leak(p, prev)
  }

  /** The two values one step writes: the stored potential and the spike flag. */
  datatype Sample = Sample(potential: int, output: int)

  /**
   One time step from the previous stored potential. The neuron fires when the
   untruncated potential strictly exceeds the capacitance; it then stores 0.
   */
  function Step(p: Params, prev: int, voltage: real): (s: Sample)
    requires ValidRates(p)
    ensures s.output == 0 || s.output == 1
    ensures s.output == 1 <==> PreReset(p, prev, voltage) > p.capacitance
    ensures s.output == 1 ==> s.potential == 0
    ensures s.output == 0 ==> s.potential == Trunc(PreReset(p, prev, voltage))
    ensures p.capacitance >= 0.0 ==> s.potential as real <= p.capacitance
  {
    var x := PreReset(p, prev, voltage);
    TruncTowardZero(x);
    if x > p.capacitance then Sample(0, 1) else Sample(Trunc(x), 0)
  }

  /**
   The potential a step at index `i` reads as its predecessor. For `i >= 1` it
   is the entry before. For `i == 0`, which only happens after a history was
   resized to length 0, Python's index `-1` reads the last slot of the freshly
   zero-filled array, so 0.
   */
  function LastPotential(potential: seq<int>): int
  {
    if |potential| == 0 then 0 else potential[|potential| - 1]
  }

  /** Python's `a[j]` for `-len(a) <= j < len(a)`: a negative index counts from the end. */
  function PyIndex(a: seq<int>, j: int): int
    requires -|a| <= j < |a|
  {
    if j < 0 then a[|a| + j] else a[j]
  }

  /**
   The loop of `sim` reads `self.potential[i-1]` from the resized array `a`.
   That is `LastPotential` of the first `i` entries, including at `i == 0`,
   where the index `-1` wraps to the last slot, a zero-filled new one.
   */
  lemma LastPotentialReadsPrevious(a: seq<int>, i: int)
    requires 0 <= i < |a|
    requires i == 0 ==> a[|a| - 1] == 0
    ensures LastPotential(a[..i]) == PyIndex(a, i - 1)
  {
  }

  /**
   The history `n` followed by `k` steps driven by `voltage`: the fold that the
   loop of `sim` computes.
   */
  function Extend(n: Neuron, voltage: real, k: nat): (m: Neuron)
    requires Parallel(n) && ValidRates(n.params)
    ensures Parallel(m) && m.params == n.params
    ensures |m.output| == |n.output| + k
    decreases k
  {
    if k == 0 then n
    else
      var m := Extend(n, voltage, k - 1);
      var s := Step(n.params, LastPotential(m.potential), voltage);
      Neuron(n.params, m.input + [Trunc(voltage)], m.potential + [s.potential], m.output + [s.output])
  }

  /** Whether `sim` may divide by the resistance: only when at least one step is taken. */
  predicate LeakDefined(p: Params, time: real) {
    p.resistance != 0.0 || p.timeStep == 0.0 || StepCount(p, time) <= 0
  }

  /**
   `sim(voltage, time)`: append `int(time/time_step)` steps. A negative count
   shrinks the histories (resize keeps the prefix and the loop range is empty);
   a count that would make them negative in length is an error.
   */
  function Sim(n: Neuron, voltage: real, time: real): (r: SimResult)
    requires Parallel(n) && LeakDefined(n.params, time)
    ensures n.params.timeStep == 0.0 <==> r == Err(ZeroTimeStep)
    ensures r == Err(NegativeDimensions) <==>
              n.params.timeStep != 0.0 && |n.output| + StepCount(n.params, time) < 0
    ensures r.Ok? ==> var m := r.neuron;
              Parallel(m) && m.params == n.params &&
              |m.output| == |n.output| + StepCount(n.params, time)
    ensures r.Ok? && StepCount(n.params, time) >= 0 ==>
              IsPrefix(n.input, r.neuron.input) && IsPrefix(n.potential, r.neuron.potential) &&
              IsPrefix(n.output, r.neuron.output)
    ensures r.Ok? && StepCount(n.params, time) <= 0 ==>
              IsPrefix(r.neuron.input, n.input) && IsPrefix(r.neuron.potential, n.potential) &&
              IsPrefix(r.neuron.output, n.output)
  {
    if n.params.timeStep == 0.0 then Err(ZeroTimeStep)
    else
      var steps := StepCount(n.params, time);
      if |n.output| + steps < 0 then Err(NegativeDimensions)
      else if steps <= 0 then
        var len := |n.output| + steps;
        Ok(Neuron(n.params, Resize(n.input, len), Resize(n.potential, len), Resize(n.output, len)))
      else
        ExtendKeepsPrefix(n, voltage, steps);
        Ok(Extend(n, voltage, steps))
  }

  /** The fold only appends: the old histories are prefixes of the new ones. */
  lemma {:induction false} ExtendKeepsPrefix(n: Neuron, voltage: real, k: nat)
    requires Parallel(n) && ValidRates(n.params)
    ensures var m := Extend(n, voltage, k);
            IsPrefix(n.input, m.input) && IsPrefix(n.potential, m.potential) && IsPrefix(n.output, m.output)
    decreases k
  {
    if k > 0 {
      ExtendKeepsPrefix(n, voltage, k - 1);
      var m' := Extend(n, voltage, k - 1);
      assert (m'.input + [Trunc(voltage)])[..|n.input|] == m'.input[..|n.input|];
      var s := Step(n.params, LastPotential(m'.potential), voltage);
      assert (m'.potential + [s.potential])[..|n.potential|] == m'.potential[..|n.potential|];
      assert (m'.output + [s.output])[..|n.output|] == m'.output[..|n.output|];
    }
  }

  /** The first `|n.output| + k` slots of the arrays hold `k` steps of the fold. */
  predicate HoldsSteps(n: Neuron, voltage: real, k: nat, input: seq<int>, potential: seq<int>, output: seq<int>)
    requires Parallel(n) && ValidRates(n.params)
  {
    var e := Extend(n, voltage, k);
    var i := |n.output| + k;
    && i <= |input| && i <= |potential| && i <= |output|
    && input[..i] == e.input && potential[..i] == e.potential && output[..i] == e.output
  }

  /** Overwriting slot `i` and then taking the first `i + 1` entries appends the new value. */
  lemma SetThenSlice(s: seq<int>, i: int, x: int)
    requires 0 <= i < |s|
    ensures s[i := x][..i + 1] == s[..i] + [x]
  {
  }

  /** Before the loop the resized arrays hold zero steps of the fold. */
  lemma FillStart(n: Neuron, voltage: real, steps: nat, input: seq<int>, potential: seq<int>, output: seq<int>)
    requires Parallel(n) && ValidRates(n.params)
    requires input == Resize(n.input, |n.input| + steps)
    requires potential == Resize(n.potential, |n.potential| + steps)
    requires output == Resize(n.output, |n.output| + steps)
    ensures HoldsSteps(n, voltage, 0, input, potential, output)
  {
  }

  /**
   One iteration of the loop of `sim` keeps the arrays in step with the fold:
   if their first `i` slots hold `k` steps of it, then after writing slot `i`
   their first `i + 1` slots hold `k + 1` steps. `prev` is the potential the
   iteration reads: the last of the first `i` entries, or 0 when there are none.
   */
  lemma FillStep(n: Neuron, voltage: real, k: nat, input: seq<int>, potential: seq<int>, output: seq<int>,
                 prev: int, s: Sample)
    requires Parallel(n) && ValidRates(n.params)
    requires |input| == |potential| == |output| > |n.output| + k
    requires HoldsSteps(n, voltage, k, input, potential, output)
    requires prev == LastPotential(potential[..|n.output| + k])
    requires s == Step(n.params, prev, voltage)
    ensures var i := |n.output| + k;
            HoldsSteps(n, voltage, k + 1, input[i := Trunc(voltage)], potential[i := s.potential], output[i := s.output])
  {
    var i := |n.output| + k;
    var e := Extend(n, voltage, k);
    assert prev == LastPotential(e.potential);
    SetThenSlice(input, i, Trunc(voltage));
    SetThenSlice(potential, i, s.potential);
    SetThenSlice(output, i, s.output);
  }

  /** After the loop the arrays are exactly the fold of `steps` steps. */
  lemma FillEnd(n: Neuron, voltage: real, steps: nat, input: seq<int>, potential: seq<int>, output: seq<int>)
    requires Parallel(n) && ValidRates(n.params)
    requires |input| == |potential| == |output| == |n.output| + steps
    requires HoldsSteps(n, voltage, steps, input, potential, output)
    ensures Neuron(n.params, input, potential, output) == Extend(n, voltage, steps)
  {
    assert input == input[..|input|] && potential == potential[..|potential|] && output == output[..|output|];
  }

  /**
   The body of the loop of `sim` for one index, as the source writes it: the
   untruncated new potential and the spike flag.
   */
  method NextSample(p: Params, prev: int, voltage: real) returns (newPotential: real, newOutput: int)
    requires ValidRates(p)
    ensures Sample(Trunc(newPotential), newOutput) == Step(p, prev, voltage)
  {
    newOutput := 0;
    newPotential := prev as real;
    newPotential := newPotential + voltage * p.gain / p.timeStep;
    newPotential := newPotential - Max(0.0, prev as real / (p.resistance / p.timeStep));
    assert newPotential == PreReset(p, prev, voltage);
    if newPotential > p.capacitance {
      newPotential := 0.0;
      newOutput := 1;
    }
  }

  /**
   One iteration of the loop of `sim`, for slot `i = |n.output| + k`: record
   the voltage, read the previous potential (Python's index `-1` wraps around
   to the last slot when `i` is 0), compute the sample and store it.
   */
  method FillSlot(n: Neuron, voltage: real, k: nat, input0: seq<int>, potential0: seq<int>, output0: seq<int>)
    returns (input: seq<int>, potential: seq<int>, output: seq<int>)
    requires Parallel(n) && ValidRates(n.params)
    requires |input0| == |potential0| == |output0| > |n.output| + k
    requires HoldsSteps(n, voltage, k, input0, potential0, output0)
    requires |n.output| + k == 0 ==> potential0[|potential0| - 1] == 0
    ensures |input| == |potential| == |output| == |output0|
    ensures HoldsSteps(n, voltage, k + 1, input, potential, output)
  {
    var i := |n.output| + k;
    input := input0[i := Trunc(voltage)];
    var prev := PyIndex(potential0, i - 1);
    LastPotentialReadsPrevious(potential0, i);
    var newPotential, newOutput := NextSample(n.params, prev, voltage);
    FillStep(n, voltage, k, input0, potential0, output0, prev, Sample(Trunc(newPotential), newOutput));
    potential := potential0[i := Trunc(newPotential)];
    output := output0[i := newOutput];
  }

  /**
   The loop of `sim` over the `steps` new slots of the resized arrays: each
   slot gets the truncated voltage as input and the sample computed from the
   slot before it.
   */
  method FillNewSlots(n: Neuron, voltage: real, steps: nat,
                      input0: seq<int>, potential0: seq<int>, output0: seq<int>)
    returns (input: seq<int>, potential: seq<int>, output: seq<int>)
    requires Parallel(n) && ValidRates(n.params) && steps > 0
    requires |input0| == |potential0| == |output0| == |n.output| + steps
    requires HoldsSteps(n, voltage, 0, input0, potential0, output0)
    requires |n.output| == 0 ==> potential0[|potential0| - 1] == 0
    ensures Neuron(n.params, input, potential, output) == Extend(n, voltage, steps)
  {
    input, potential, output := input0, potential0, output0;
    var i := |output| - steps;
    var k: nat := 0;
    while i < |output|
      invariant |input| == |potential| == |output| == |n.output| + steps
      invariant i == |n.output| + k <= |output|
      invariant HoldsSteps(n, voltage, k, input, potential, output)
      invariant i == 0 ==> potential[|potential| - 1] == 0
    {
      input, potential, output := FillSlot(n, voltage, k, input, potential, output);
      i, k := i + 1, k + 1;
    }
    FillEnd(n, voltage, steps, input, potential, output);
  }

  /**
   `sim` as the source writes it: resize the three arrays, then overwrite the
   new slots one by one, reading the previous potential by index.
   */
  method SimLoop(n: Neuron, voltage: real, time: real) returns (r: SimResult)
    requires Parallel(n) && LeakDefined(n.params, time)
    ensures r == Sim(n, voltage, time)
  {
    var p := n.params;
    if p.timeStep == 0.0 {
      return Err(ZeroTimeStep);
    }
    var steps := StepCount(p, time);
    if |n.output| + steps < 0 {
      return Err(NegativeDimensions);
    }
    var input := Resize(n.input, |n.input| + steps);
    var potential := Resize(n.potential, |n.potential| + steps);
    var output := Resize(n.output, |n.output| + steps);
    if steps > 0 {
      FillStart(n, voltage, steps, input, potential, output);
      input, potential, output := FillNewSlots(n, voltage, steps, input, potential, output);
    }
    // for steps <= 0 the loop range is empty
    return Ok(Neuron(p, input, potential, output));
  }
}
