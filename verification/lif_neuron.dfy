/**
 The class `lif_neuron` (lif_neuron.py): the leaky integrate-and-fire machine
 with the input voltage integrated unscaled and a default threshold of 10000.
 */
module LifNeuron {
  import opened Numeric
  import opened LeakyIntegrateFire
  import opened LifProperties

  /** `lif_neuron` feeds the voltage into the potential as it is. */
  const Gain: real := 1.0

  /** `lif_neuron.__init__` with the source's default arguments. */
  function New(capacitance: real := 10000.0, resistance: real := 1.0, timeStep: real := 1.0): (n: Neuron)
    ensures Parallel(n) && BinaryOutput(n)
    ensures capacitance >= 0.0 ==> BelowThreshold(n)
  {
    Init(Params(capacitance, resistance, timeStep, Gain))
  }

  /**
   A fresh neuron with the default arguments: threshold 10000, resistance 1,
   time step 1, and each history the one-element array `[0]`.
   */
  lemma NewDefaults()
    ensures New().params == Params(10000.0, 1.0, 1.0, Gain)
    ensures New().input == [0] && New().potential == [0] && New().output == [0]
  {
  }

  /**
   Each step `sim` appends to a `lif_neuron` records the voltage, truncated,
   as input, and fires exactly when `prev + voltage/time_step - max(0,
   prev/(resistance/time_step))` exceeds the capacitance, storing 0 if so and the
   truncated value otherwise.
   */
  lemma SimStep(n: Neuron, voltage: real, time: real)
    requires Parallel(n) && n.params.gain == Gain && LeakDefined(n.params, time)
    requires Sim(n, voltage, time).Ok? && StepCount(n.params, time) > 0
    ensures ValidRates(n.params)
    ensures AppendsByRule(n, Sim(n, voltage, time).neuron, voltage, voltage / n.params.timeStep)
  {
    SimAppendsByRule(n, voltage, time);
    assert Drive(n.params, voltage) == voltage / n.params.timeStep;
  }
}
