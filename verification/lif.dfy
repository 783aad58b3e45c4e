/**
 The class `lif` (lif.py): the leaky integrate-and-fire machine with the input
 voltage divided by 1000 before it is integrated, and a default threshold of 10.
 */
module Lif {
  import opened Numeric
  import opened LeakyIntegrateFire
  import opened LifProperties

  /** `lif` integrates `v = voltage/1000`. */
  const Gain: real := 1.0 / 1000.0

  /** `lif.__init__` with the source's default arguments. */
  function New(capacitance: real := 10.0, resistance: real := 1.0, timeStep: real := 1.0): (n: Neuron)
    ensures Parallel(n) && BinaryOutput(n)
    ensures capacitance >= 0.0 ==> BelowThreshold(n)
  {
    Init(Params(capacitance, resistance, timeStep, Gain))
  }

  /**
   A fresh neuron with the default arguments: threshold 10, resistance 1,
   time step 1, and each history the one-element array `[0]`.
   */
  lemma NewDefaults()
    ensures New().params == Params(10.0, 1.0, 1.0, Gain)
    ensures New().input == [0] && New().potential == [0] && New().output == [0]
  {
  }

  /**
   Each step `sim` appends to a `lif` records the unscaled voltage, truncated,
   as input, while the potential grows by `voltage/1000/time_step`: it fires
   exactly when `prev + voltage/1000/time_step - max(0,
   prev/(resistance/time_step))` exceeds the capacitance, storing 0 if so and the
   truncated value otherwise.
   */
  lemma SimStep(n: Neuron, voltage: real, time: real)
    requires Parallel(n) && n.params.gain == Gain && LeakDefined(n.params, time)
    requires Sim(n, voltage, time).Ok? && StepCount(n.params, time) > 0
    ensures ValidRates(n.params)
    ensures AppendsByRule(n, Sim(n, voltage, time).neuron, voltage, voltage / 1000.0 / n.params.timeStep)
  {
    SimAppendsByRule(n, voltage, time);
    assert Drive(n.params, voltage) == voltage / 1000.0 / n.params.timeStep;
  }
}
