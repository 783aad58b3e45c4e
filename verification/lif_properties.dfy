/**
 Properties of the leaky integrate-and-fire machine of module
 `LeakyIntegrateFire`: a step-by-step description of what `sim` appends, the
 invariants every call keeps, the behaviour without input, and how runs chain.
 */
module LifProperties {
  import opened Numeric
  import opened LeakyIntegrateFire

  /**
   Entry `i` of the histories of `m` is what one step from the entry before it
   writes: the truncated voltage as input, and the sample `Step` computes.
   */
  predicate StepsAt(m: Neuron, voltage: real, i: int)
    requires Parallel(m) && ValidRates(m.params) && 0 <= i < |m.output|
  {
    && m.input[i] == Trunc(voltage)
    && Sample(m.potential[i], m.output[i]) == Step(m.params, LastPotential(m.potential[..i]), voltage)
  }

  /**
   `m` is `n` with `k` more entries, each following from the one before it by a
   step driven by `voltage`; the entries of `n` are untouched.
   */
  predicate ExtendsBy(n: Neuron, m: Neuron, voltage: real, k: nat)
    requires ValidRates(n.params)
  {
    && Parallel(m)
    && m.params == n.params
    && |m.output| == |n.output| + k
    && IsPrefix(n.input, m.input) && IsPrefix(n.potential, m.potential) && IsPrefix(n.output, m.output)
    && forall i :: |n.output| <= i < |m.output| ==> StepsAt(m, voltage, i)
  }

  /** The fold `Extend` produces an extension in the sense of `ExtendsBy`. */
  lemma {:induction false} ExtendSteps(n: Neuron, voltage: real, k: nat)
    requires Parallel(n) && ValidRates(n.params)
    ensures ExtendsBy(n, Extend(n, voltage, k), voltage, k)
    decreases k
  {
    if k > 0 {
      var m' := Extend(n, voltage, k - 1);
      var m := Extend(n, voltage, k);
      ExtendSteps(n, voltage, k - 1);
      forall i | |n.output| <= i < |m.output|
        ensures StepsAt(m, voltage, i)
      {
        assert m.potential[..i] == m'.potential[..i] by {
          assert m.potential[..|m'.potential|] == m'.potential;
        }
        if i < |m'.output| {
          assert StepsAt(m', voltage, i);
        }
      }
    }
  }

  /** All but the last entry of the histories of `m`. */
  function DropLast(m: Neuron): (m': Neuron)
    requires Parallel(m) && |m.output| > 0
    ensures Parallel(m') && |m'.output| == |m.output| - 1 && m'.params == m.params
  {
    var len := |m.output|;
    Neuron(m.params, m.input[..len - 1], m.potential[..len - 1], m.output[..len - 1])
  }

  /** Dropping the last of `k > 0` new entries leaves an extension by `k - 1`. */
  lemma DropLastExtends(n: Neuron, m: Neuron, voltage: real, k: nat)
    requires Parallel(n) && ValidRates(n.params)
    requires ExtendsBy(n, m, voltage, k) && k > 0
    ensures ExtendsBy(n, DropLast(m), voltage, k - 1)
  {
    var m' := DropLast(m);
    forall i | |n.output| <= i < |m'.output|
      ensures StepsAt(m', voltage, i)
    {
      assert StepsAt(m, voltage, i);
      assert m'.potential[..i] == m.potential[..i];
    }
    assert m.input[..|n.input|] == m'.input[..|n.input|];
    assert m.potential[..|n.potential|] == m'.potential[..|n.potential|];
    assert m.output[..|n.output|] == m'.output[..|n.output|];
  }

  /** The last entry of an extension is one step from the entry before it. */
  lemma LastEntryIsStep(n: Neuron, m: Neuron, voltage: real, k: nat)
    requires Parallel(n) && ValidRates(n.params)
    requires ExtendsBy(n, m, voltage, k) && k > 0
    ensures var m' := DropLast(m);
            var s := Step(n.params, LastPotential(m'.potential), voltage);
            m == Neuron(n.params, m'.input + [Trunc(voltage)], m'.potential + [s.potential], m'.output + [s.output])
  {
    var len := |m.output|;
    var m' := DropLast(m);
    assert StepsAt(m, voltage, len - 1);
    assert m.potential[..len - 1] == m'.potential;
    assert m.input == m'.input + [m.input[len - 1]];
    assert m.potential == m'.potential + [m.potential[len - 1]];
    assert m.output == m'.output + [m.output[len - 1]];
  }

  /** Any extension in the sense of `ExtendsBy` is the one `Extend` computes. */
  lemma {:induction false} ExtendUnique(n: Neuron, m: Neuron, voltage: real, k: nat)
    requires Parallel(n) && ValidRates(n.params)
    requires ExtendsBy(n, m, voltage, k)
    ensures m == Extend(n, voltage, k)
    decreases k
  {
    if k == 0 {
      assert m.input == n.input && m.potential == n.potential && m.output == n.output;
    } else {
      DropLastExtends(n, m, voltage, k);
      ExtendUnique(n, DropLast(m), voltage, k - 1);
      LastEntryIsStep(n, m, voltage, k);
    }
  }

  /**
   The histories after `k` steps are exactly those that keep the old entries
   and follow the step rule at every new index.
   */
  lemma ExtendCharacterised(n: Neuron, m: Neuron, voltage: real, k: nat)
    requires Parallel(n) && ValidRates(n.params)
    ensures m == Extend(n, voltage, k) <==> ExtendsBy(n, m, voltage, k)
  {
    if m == Extend(n, voltage, k) {
      ExtendSteps(n, voltage, k);
    }
    if ExtendsBy(n, m, voltage, k) {
      ExtendUnique(n, m, voltage, k);
    }
  }

  /**
   The threshold-and-reset rule at entry `i`, spelled out: the input entry is
   the truncated voltage, the output is a flag that is 1 exactly when the
   untruncated potential exceeds the capacitance, a spike stores 0, and
   otherwise the truncated potential is stored.
   */
  predicate SpikeRule(m: Neuron, voltage: real, i: int)
    requires Parallel(m) && ValidRates(m.params) && 0 <= i < |m.output|
  {
    var x := PreReset(m.params, LastPotential(m.potential[..i]), voltage);
    && m.input[i] == Trunc(voltage)
    && (m.output[i] == 0 || m.output[i] == 1)
    && (m.output[i] == 1 <==> x > m.params.capacitance)
    && (m.output[i] == 1 ==> m.potential[i] == 0)
    && (m.output[i] == 0 ==> m.potential[i] == Trunc(x))
  }

  /** An entry that follows by `Step` obeys the threshold-and-reset rule, and conversely. */
  lemma StepsAtSpikeRule(m: Neuron, voltage: real, i: int)
    requires Parallel(m) && ValidRates(m.params) && 0 <= i < |m.output|
    ensures StepsAt(m, voltage, i) <==> SpikeRule(m, voltage, i)
  {
  }

  /**
   What a successful `sim` with a positive step count appends: every new input
   entry is the truncated voltage, every new output is 1 exactly when the
   untruncated potential exceeds the capacitance, and a spike stores 0.
   */
  lemma SimAppends(n: Neuron, voltage: real, time: real)
    requires Parallel(n) && LeakDefined(n.params, time)
    requires Sim(n, voltage, time).Ok?
    requires StepCount(n.params, time) > 0
    ensures ValidRates(n.params)
    ensures ExtendsBy(n, Sim(n, voltage, time).neuron, voltage, StepCount(n.params, time))
    ensures var m := Sim(n, voltage, time).neuron;
            forall i :: |n.output| <= i < |m.output| ==>
              SpikeRule(m, voltage, i)
  {
    var m := Sim(n, voltage, time).neuron;
    ExtendSteps(n, voltage, StepCount(n.params, time));
    forall i | |n.output| <= i < |m.output|
      ensures SpikeRule(m, voltage, i)
    {
      StepsAtSpikeRule(m, voltage, i);
    }
  }

  /**
   The threshold-and-reset rule with the per-step drive written out as a
   parameter: every entry of `m` past the first `|n.output|` records the
   truncated voltage as input; with `prev` the potential before it and `x` the
   value `prev + drive - max(0, prev/(resistance/time_step))`, the output is a
   0/1 flag that is 1 exactly when `x` exceeds the capacitance, a spike stores
   0, and otherwise `x` truncated is stored.
   */
  predicate AppendsByRule(n: Neuron, m: Neuron, voltage: real, drive: real)
    requires Parallel(m) && ValidRates(m.params)
  {
    forall i :: |n.output| <= i < |m.output| ==>
      var prev := LastPotential(m.potential[..i]) as real;
      var x := prev + drive - Max(0.0, prev / (m.params.resistance / m.params.timeStep));
      && m.input[i] == Trunc(voltage)
      && (m.output[i] == 0 || m.output[i] == 1)
      && (m.output[i] == 1 <==> x > m.params.capacitance)
      && (m.output[i] == 1 ==> m.potential[i] == 0)
      && (m.output[i] == 0 ==> m.potential[i] == Trunc(x))
  }

  /** What a successful `sim` appends follows the rule with the drive `voltage*gain/time_step`. */
  lemma SimAppendsByRule(n: Neuron, voltage: real, time: real)
    requires Parallel(n) && LeakDefined(n.params, time)
    requires Sim(n, voltage, time).Ok?
    requires StepCount(n.params, time) > 0
    ensures ValidRates(n.params)
    ensures Parallel(Sim(n, voltage, time).neuron) && Sim(n, voltage, time).neuron.params == n.params
    ensures AppendsByRule(n, Sim(n, voltage, time).neuron, voltage, Drive(n.params, voltage))
  {
    var m := Sim(n, voltage, time).neuron;
    SimAppends(n, voltage, time);
    forall i | |n.output| <= i < |m.output|
      ensures var prev := LastPotential(m.potential[..i]) as real;
              var x := prev + Drive(n.params, voltage) - Max(0.0, prev / (m.params.resistance / m.params.timeStep));
              && m.input[i] == Trunc(voltage)
              && (m.output[i] == 0 || m.output[i] == 1)
              && (m.output[i] == 1 <==> x > m.params.capacitance)
              && (m.output[i] == 1 ==> m.potential[i] == 0)
              && (m.output[i] == 0 ==> m.potential[i] == Trunc(x))
    {
      assert SpikeRule(m, voltage, i);
    }
  }

  /** Every spike flag ever written is 0 or 1, whatever `sim` is called with. */
  lemma SimKeepsBinaryOutput(n: Neuron, voltage: real, time: real)
    requires Parallel(n) && LeakDefined(n.params, time)
    requires BinaryOutput(n)
    requires Sim(n, voltage, time).Ok?
    ensures BinaryOutput(Sim(n, voltage, time).neuron)
  {
    var m := Sim(n, voltage, time).neuron;
    if StepCount(n.params, time) > 0 {
      SimAppends(n, voltage, time);
      forall i | 0 <= i < |m.output|
        ensures m.output[i] == 0 || m.output[i] == 1
      {
        if i < |n.output| {
          assert m.output[i] == m.output[..|n.output|][i];
        } else {
          assert SpikeRule(m, voltage, i);
        }
      }
    } else {
      forall i | 0 <= i < |m.output|
        ensures m.output[i] == 0 || m.output[i] == 1
      {
        assert m.output[i] == n.output[..|m.output|][i];
      }
    }
  }

  /**
   With a non-negative capacitance no stored potential exceeds it: a spike
   stores 0, and otherwise the stored value is the truncation of a value not
   above the capacitance.
   */
  lemma SimKeepsBelowThreshold(n: Neuron, voltage: real, time: real)
    requires Parallel(n) && LeakDefined(n.params, time)
    requires n.params.capacitance >= 0.0 && BelowThreshold(n)
    requires Sim(n, voltage, time).Ok?
    ensures BelowThreshold(Sim(n, voltage, time).neuron)
  {
    var m := Sim(n, voltage, time).neuron;
    if StepCount(n.params, time) > 0 {
      SimAppends(n, voltage, time);
      forall i | 0 <= i < |m.potential|
        ensures m.potential[i] as real <= m.params.capacitance
      {
        if i < |n.potential| {
          assert m.potential[i] == m.potential[..|n.potential|][i];
        } else {
          assert StepsAt(m, voltage, i);
        }
      }
    } else {
      forall i | 0 <= i < |m.potential|
        ensures m.potential[i] as real <= m.params.capacitance
      {
        assert m.potential[i] == n.potential[..|m.potential|][i];
      }
    }
  }

  /**
   Without input a step never fires and never raises the potential, provided
   the previous potential is not above the capacitance: the leak is never
   negative, so the untruncated value is at most the previous one.
   */
  lemma StepWithoutInput(p: Params, prev: int)
    requires ValidRates(p)
    requires prev as real <= p.capacitance
    ensures Step(p, prev, 0.0).output == 0
    ensures Step(p, prev, 0.0).potential <= prev
  {
    var x := PreReset(p, prev, 0.0);
    assert Drive(p, 0.0) == 0.0;
    assert x <= prev as real;
    TruncBelowInt(x, prev);
  }

  /**
   Along an extension without input, the potential each new step reads is at
   most the last potential before the extension.
   */
  lemma {:induction false} PrevWithoutInput(n: Neuron, m: Neuron, k: nat, i: int)
    requires Parallel(n) && ValidRates(n.params)
    requires ExtendsBy(n, m, 0.0, k)
    requires LastPotential(n.potential) as real <= n.params.capacitance
    requires |n.output| <= i <= |m.output|
    ensures LastPotential(m.potential[..i]) <= LastPotential(n.potential)
    decreases i
  {
    if i == |n.output| {
      assert m.potential[..i] == n.potential;
    } else {
      PrevWithoutInput(n, m, k, i - 1);
      assert StepsAt(m, 0.0, i - 1);
      StepWithoutInput(n.params, LastPotential(m.potential[..i - 1]));
      assert m.potential[..i][i - 1] == m.potential[i - 1];
    }
  }

  /**
   `sim(0, time)` from a potential not above the capacitance: none of the new
   steps fires, and each stored potential is at most the one before it.
   */
  lemma SimWithoutInput(n: Neuron, time: real)
    requires Parallel(n) && LeakDefined(n.params, time)
    requires LastPotential(n.potential) as real <= n.params.capacitance
    requires Sim(n, 0.0, time).Ok?
    ensures var m := Sim(n, 0.0, time).neuron;
            forall i :: |n.output| <= i < |m.output| ==>
              m.output[i] == 0 && m.potential[i] <= LastPotential(m.potential[..i])
  {
    var m := Sim(n, 0.0, time).neuron;
    if StepCount(n.params, time) > 0 {
      var k := StepCount(n.params, time);
      ExtendSteps(n, 0.0, k);
      forall i | |n.output| <= i < |m.output|
        ensures m.output[i] == 0 && m.potential[i] <= LastPotential(m.potential[..i])
      {
        PrevWithoutInput(n, m, k, i);
        assert StepsAt(m, 0.0, i);
        StepWithoutInput(n.params, LastPotential(m.potential[..i]));
      }
    }
  }

  /**
   When `time` is shorter than one time step (in magnitude) the step count is
   0 and `sim` leaves every history as it was.
   */
  lemma ShortSimUnchanged(n: Neuron, voltage: real, time: real)
    requires Parallel(n)
    requires n.params.timeStep > 0.0 && -n.params.timeStep < time < n.params.timeStep
    ensures LeakDefined(n.params, time)
    ensures Sim(n, voltage, time) == Ok(n)
  {
    var q := time / n.params.timeStep;
    assert q * n.params.timeStep == time;
    if q >= 1.0 {
      assert q * n.params.timeStep >= n.params.timeStep;
    }
    if q <= -1.0 {
      assert q * n.params.timeStep <= -n.params.timeStep;
    }
    assert StepCount(n.params, time) == 0;
    assert n.input[..|n.input|] == n.input;
    assert n.potential[..|n.potential|] == n.potential;
    assert n.output[..|n.output|] == n.output;
  }

  /** Two runs with the same voltage are one run of the combined number of steps. */
  lemma {:induction false} ExtendTwice(n: Neuron, voltage: real, a: nat, b: nat)
    requires Parallel(n) && ValidRates(n.params)
    ensures Extend(Extend(n, voltage, a), voltage, b) == Extend(n, voltage, a + b)
    decreases b
  {
    if b > 0 {
      ExtendTwice(n, voltage, a, b - 1);
    }
  }

  /**
   While the time step is positive and at most the resistance, the leak of a
   step is at most the previous potential, so a non-negative drive keeps the
   stored potential non-negative.
   */
  lemma StepNonNegative(p: Params, prev: int, voltage: real)
    requires ValidRates(p)
    requires 0.0 < p.timeStep <= p.resistance
    requires prev >= 0 && voltage * p.gain >= 0.0
    ensures Step(p, prev, voltage).potential >= 0
  {
    var r := p.resistance / p.timeStep;
    assert r * p.timeStep == p.resistance;
    if r < 1.0 {
      assert r * p.timeStep < p.timeStep;
    }
    assert prev as real / r <= prev as real;
    assert Leak(p, prev) <= prev as real;
    assert Drive(p, voltage) >= 0.0;
    TruncTowardZero(PreReset(p, prev, voltage));
  }

  /**
   A time step larger than the resistance lets the leak overshoot zero: the
   stored potential goes negative.
   */
  lemma FastLeakGoesNegative()
    ensures Step(Params(10.0, 1.0, 2.0, 1.0), 5, 0.0).potential == -5
  {
    assert PreReset(Params(10.0, 1.0, 2.0, 1.0), 5, 0.0) == -5.0;
  }
}
