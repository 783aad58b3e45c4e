/**
 Properties of the Izhikevich simulation of module `Izhikevich`: the
 trajectory described sample by sample, the spike-and-reset rule, the bound on
 stored potentials, and the shape of the time grid.
 */
module IzhikevichProperties {
  import opened Numeric
  import opened Izhikevich

  /** Sample `i` of `(v, u)` is one step from sample `i - 1`, with the input of index `i`. */
  predicate StepsAt(p: Params, current: real, start: real, end: real, v: seq<real>, u: seq<real>, i: int)
    requires 1 <= i < |v| && |v| == |u|
  {
    At(v, u, i) == Step(p, At(v, u, i - 1), Input(current, start, end, i))
  }

  /**
   `(v, u)` is a trajectory of `n` samples: it starts at `(-65, b*(-65))` and
   every later sample follows from the one before it.
   */
  predicate IsTrajectory(p: Params, current: real, start: real, end: real, v: seq<real>, u: seq<real>, n: nat)
  {
    && |v| == n && |u| == n && n >= 1
    && v[0] == InitialV && u[0] == p.b * InitialV
    && forall i :: 1 <= i < n ==> StepsAt(p, current, start, end, v, u, i)
  }

  /** The fold `Simulate` produces a trajectory. */
  lemma {:induction false} SimulateIsTrajectory(p: Params, current: real, start: real, end: real, n: nat)
    requires n >= 1
    ensures var t := Simulate(p, current, start, end, n);
            IsTrajectory(p, current, start, end, t.v, t.u, n)
    decreases n
  {
    if n > 1 {
      var t' := Simulate(p, current, start, end, n - 1);
      var t := Simulate(p, current, start, end, n);
      SimulateIsTrajectory(p, current, start, end, n - 1);
      forall i | 1 <= i < n
        ensures StepsAt(p, current, start, end, t.v, t.u, i)
      {
        if i < n - 1 {
          assert StepsAt(p, current, start, end, t'.v, t'.u, i);
          assert At(t.v, t.u, i) == At(t'.v, t'.u, i);
          assert At(t.v, t.u, i - 1) == At(t'.v, t'.u, i - 1);
        } else {
          assert At(t.v, t.u, i - 1) == At(t'.v, t'.u, i - 1);
        }
      }
    }
  }

  /** Any trajectory of `n` samples is the one `Simulate` computes. */
  lemma {:induction false} TrajectoryIsSimulate(p: Params, current: real, start: real, end: real,
                                                v: seq<real>, u: seq<real>, n: nat)
    requires IsTrajectory(p, current, start, end, v, u, n)
    ensures Simulate(p, current, start, end, n) == Trace(v, u)
    decreases n
  {
    if n == 1 {
      assert v == [InitialV] && u == [p.b * InitialV];
    } else {
      var v', u' := v[..n - 1], u[..n - 1];
      forall i | 1 <= i < n - 1
        ensures StepsAt(p, current, start, end, v', u', i)
      {
        assert StepsAt(p, current, start, end, v, u, i);
        assert At(v', u', i) == At(v, u, i) && At(v', u', i - 1) == At(v, u, i - 1);
      }
      TrajectoryIsSimulate(p, current, start, end, v', u', n - 1);
      assert StepsAt(p, current, start, end, v, u, n - 1);
      assert At(v', u', n - 2) == At(v, u, n - 2);
      assert v == v' + [v[n - 1]] && u == u' + [u[n - 1]];
    }
  }

  /**
   The trajectory of `n` samples is exactly the pair of arrays that starts at
   the initial sample and follows the step rule at every later index.
   */
  lemma SimulateCharacterised(p: Params, current: real, start: real, end: real,
                              v: seq<real>, u: seq<real>, n: nat)
    requires n >= 1
    ensures Simulate(p, current, start, end, n) == Trace(v, u) <==> IsTrajectory(p, current, start, end, v, u, n)
  {
    if Simulate(p, current, start, end, n) == Trace(v, u) {
      SimulateIsTrajectory(p, current, start, end, n);
    }
    if IsTrajectory(p, current, start, end, v, u, n) {
      TrajectoryIsSimulate(p, current, start, end, v, u, n);
    }
  }

  /**
   The update of sample `i` written out: the Euler value of `v` uses the
   previous `v` and `u` and the input of the window test; the Euler value of
   `u` uses the previous `v` and `u` only, never the new `v`. If the Euler `v`
   reaches 30, `v` is reset to `c` and `u` gets `d` added; otherwise both
   Euler values are stored.
   */
  predicate SpikeRuleAt(p: Params, current: real, start: real, end: real, v: seq<real>, u: seq<real>, i: int)
    requires 1 <= i < |v| && |v| == |u|
  {
    var vPrev, uPrev := v[i - 1], u[i - 1];
    var input := if start <= i as real * H <= end then current else 0.0;
    var ev := vPrev + H * (0.04 * vPrev * vPrev + 5.0 * vPrev + 140.0 - uPrev + input);
    var eu := uPrev + H * (p.a * (p.b * vPrev - uPrev));
    && (ev >= 30.0 ==> v[i] == p.c && u[i] == eu + p.d)
    && (ev < 30.0 ==> v[i] == ev && u[i] == eu)
  }

  /** The step rule and its written-out form agree at every index. */
  lemma StepsAtSpikeRule(p: Params, current: real, start: real, end: real, v: seq<real>, u: seq<real>, i: int)
    requires 1 <= i < |v| && |v| == |u|
    ensures StepsAt(p, current, start, end, v, u, i) <==> SpikeRuleAt(p, current, start, end, v, u, i)
  {
  }

  /** Every sample `model` computes after the first obeys the written-out update rule. */
  lemma ModelSteps(p: Params, current: real, start: real, end: real)
    requires start <= end
    ensures var r := Model(p, current, start, end);
            forall i :: 1 <= i < |r.v| ==> SpikeRuleAt(p, current, start, end, r.v, r.u, i)
  {
    var r := Model(p, current, start, end);
    SimulateIsTrajectory(p, current, start, end, GridLength(end));
    forall i | 1 <= i < |r.v|
      ensures SpikeRuleAt(p, current, start, end, r.v, r.u, i)
    {
      assert StepsAt(p, current, start, end, r.v, r.u, i);
      StepsAtSpikeRule(p, current, start, end, r.v, r.u, i);
    }
  }

  /**
   With a reset potential below the peak, no stored `v` reaches 30: the first
   sample is -65, and a step stores either a value below 30 or `c`.
   */
  lemma ModelBelowPeak(p: Params, current: real, start: real, end: real)
    requires p.c < Peak
    ensures var r := Model(p, current, start, end);
            r.Ran? ==> forall i :: 0 <= i < |r.v| ==> r.v[i] < Peak
  {
    var r := Model(p, current, start, end);
    if r.Ran? {
      SimulateIsTrajectory(p, current, start, end, GridLength(end));
      forall i | 0 <= i < |r.v|
        ensures r.v[i] < Peak
      {
        if i > 0 {
          assert StepsAt(p, current, start, end, r.v, r.u, i);
        }
      }
    }
  }

  /**
   The grid holds every point `k*h` below the stop value `max(1000, end) +
   0.01` and no other: its last point is below the stop value and the next
   point would not be.
   */
  lemma GridCoversHorizon(end: real)
    ensures var n := GridLength(end);
            var stop := Max(1000.0, end) + 0.01;
            (n - 1) as real * H < stop <= n as real * H
  {
    var stop := Max(1000.0, end) + 0.01;
    var n := GridLength(end);
    assert n == Ceil(stop / H);
    assert n as real - 1.0 < stop / H <= n as real;
  }

  /**
   When the horizon `max(1000, end)` is a multiple `k*h` of the step, the
   grid has `k + 1` points and its last point is the horizon itself.
   */
  lemma GridEndsAtHorizon(end: real, k: int)
    requires Max(1000.0, end) == k as real * H
    ensures GridLength(end) == k + 1
    ensures Grid(GridLength(end))[k] == Max(1000.0, end)
  {
    var stop := Max(1000.0, end) + 0.01;
    assert stop / H == k as real + 0.02;
  }

  /** With the default arguments the grid runs from 0 to 1000 in 2001 points. */
  lemma DefaultModelLength(p: Params)
    ensures Model(p).Ran?
    ensures |Model(p).v| == 2001 && Model(p).time[2000] == 1000.0
  {
    GridEndsAtHorizon(800.0, 2000);
  }
}
