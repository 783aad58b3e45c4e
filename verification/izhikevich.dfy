/**
 The simulation part of `Izhikevich.model` (Izhikevich.py): a forward-Euler
 recurrence on the membrane potential `v` and the recovery variable `u` with
 the fixed step `h = 0.5`, followed after every step by the spike rule "if
 `v >= 30` then `v := c` and `u := u + d`". Values are exact reals.
 */
module Izhikevich {
  import opened Numeric

  /** The shape parameters set by `Izhikevich.__init__`. */
  datatype Params = Params(a: real, b: real, c: real, d: real)

  /** The fixed step size `self.h`, in milliseconds. */
  const H: real := 0.5

  /** The peak at which a spike is recognised and the state reset. */
  const Peak: real := 30.0

  /** The potential of the first sample, `v[0]`. */
  const InitialV: real := -65.0

  /** `Izhikevich.__init__` with the source's default arguments. */
  function New(a: real := 0.02, b: real := 0.2, c: real := -65.0, d: real := 2.0): Params
  {
    Params(a, b, c, d)
  }

  /** The default shape parameters: `a = 0.02`, `b = 0.2`, `c = -65`, `d = 2`. */
  lemma NewDefaults()
    ensures New() == Params(0.02, 0.2, -65.0, 2.0)
  {
  }

  /** One sample of the trajectory. */
  datatype State = State(v: real, u: real)

  /** The outcome of `model`: either it returns early, or it fills the three arrays. */
  datatype Outcome =
    | Skipped  // `start > end`: a message is printed and nothing is simulated
    | Ran(time: seq<real>, v: seq<real>, u: seq<real>)

  /**
   The input current at grid index `i`: `I` when the grid time `i*h` lies in
   the stimulus window, both ends included, and 0 otherwise.
   */
  function Input(current: real, start: real, end: real, i: int): (r: real)
    ensures r == current || r == 0.0
    ensures start <= i as real * H <= end ==> r == current
    ensures !(start <= i as real * H <= end) ==> r == 0.0
  {
    if start <= i as real * H <= end then current else 0.0
  }

  /** The Euler update of `v`: `v + h*(0.04 v^2 + 5 v + 140 - u + I)`. */
  function EulerV(s: State, input: real): real
  {
    s.v + H * (0.04 * s.v * s.v + 5.0 * s.v + 140.0 - s.u + input)
  }

  /** The Euler update of `u`: `u + h*a*(b v - u)`, from the previous `v` and `u` only. */
  function EulerU(p: Params, s: State): real
  {
    s.u + H * (p.a * (p.b * s.v - s.u))
  }

  /** One step of the loop: the Euler update followed by the spike rule. */
  function Step(p: Params, s: State, input: real): (r: State)
    ensures r.v < Peak || r.v == p.c
    ensures r.v == p.c || r.v == EulerV(s, input)
    ensures r.u == EulerU(p, s) || r.u == EulerU(p, s) + p.d
    ensures EulerV(s, input) >= Peak ==> r == State(p.c, EulerU(p, s) + p.d)
    ensures EulerV(s, input) < Peak ==> r == State(EulerV(s, input), EulerU(p, s))
  {
    var v := EulerV(s, input);
    var u := EulerU(p, s);
    if v >= Peak then State(p.c, u + p.d) else State(v, u)
  }

  /** The sample at index `i` of the parallel arrays `v` and `u`. */
  function At(v: seq<real>, u: seq<real>, i: nat): State
    requires i < |v| && i < |u|
  {
    State(v[i], u[i])
  }

  /** A pair of arrays of equal length. */
  datatype Trace = Trace(v: seq<real>, u: seq<real>)

  /**
   The first `n` samples of the trajectory: the initial sample `(-65, b*(-65))`
   and then one step per grid index.
   */
  function Simulate(p: Params, current: real, start: real, end: real, n: nat): (t: Trace)
    requires n >= 1
    ensures |t.v| == n && |t.u| == n
    ensures t.v[0] == InitialV && t.u[0] == p.b * InitialV
    decreases n
  {
    if n == 1 then Trace([InitialV], [p.b * InitialV])
    else
      var t := Simulate(p, current, start, end, n - 1);
      var s := Step(p, At(t.v, t.u, n - 2), Input(current, start, end, n - 1));
      Trace(t.v + [s.v], t.u + [s.u])
  }

  /**
   The length of `np.arange(0, max(1000, end) + 0.01, h)`: the number of
   points `k*h` below the stop value.
   */
  function GridLength(end: real): (n: nat)
    ensures n >= 2001
  {
    var m := Ceil((Max(1000.0, end) + 0.01) / H);
    assert m as real >= 2000.02;
    m
  }

  /** The time grid `0, h, 2h, ...` with `n` points. */
  function Grid(n: nat): (time: seq<real>)
    ensures |time| == n
    ensures forall i :: 0 <= i < n ==> time[i] == i as real * H
  {
    seq(n, i => i as real * H)
  }

  /**
   `model(I, start, end)` with the source's default arguments: return early
   when the stimulus window is empty, otherwise fill the grid and the two
   trajectories.
   */
  function Model(p: Params, current: real := 5.0, start: real := 300.0, end: real := 800.0): (r: Outcome)
    ensures r.Skipped? <==> start > end
    ensures r.Ran? ==> |r.time| == |r.v| == |r.u| == GridLength(end)
    ensures r.Ran? ==> r.v[0] == InitialV && r.u[0] == p.b * InitialV
  {
    if start > end then Skipped
    else
      var n := GridLength(end);
      var t := Simulate(p, current, start, end, n);
      Ran(Grid(n), t.v, t.u)
  }

  /**
   The body of the loop of `model` for index `i`, as the source writes it:
   the new `v` from the previous `v` and `u`, the new `u` from the same
   previous values, then the spike check.
   */
  method NextSample(p: Params, vPrev: real, uPrev: real, current: real, start: real, end: real, i: int)
    returns (vi: real, ui: real)
    ensures State(vi, ui) == Step(p, State(vPrev, uPrev), Input(current, start, end, i))
  {
    vi := vPrev + H * (0.04 * vPrev * vPrev + 5.0 * vPrev + 140.0 - uPrev
                       + (if start <= i as real * H <= end then current else 0.0));
    ui := uPrev + H * (p.a * (p.b * vPrev - uPrev));
    assert vi == EulerV(State(vPrev, uPrev), Input(current, start, end, i));
    assert ui == EulerU(p, State(vPrev, uPrev));
    if vi >= 30.0 {
      vi := p.c;
      ui := ui + p.d;
    }
  }

  /**
   `model` as the source writes it: zero-filled arrays, the initial sample,
   then the loop over indices `1 .. len(time)-1` updating `v[i]` and `u[i]`
   from entry `i-1`.
   */
  method ModelLoop(p: Params, current: real, start: real, end: real) returns (r: Outcome)
    ensures r == Model(p, current, start, end)
  {
    if start > end {
      return Skipped;
    }
    var time := Grid(GridLength(end));
    var v := seq(|time|, _ => 0.0);
    var u := seq(|time|, _ => 0.0);
    v := v[0 := InitialV];
    u := u[0 := p.b * v[0]];
    var i := 1;
    while i < |time|
      invariant 1 <= i <= |time| == |v| == |u|
      invariant var t := Simulate(p, current, start, end, i);
                v[..i] == t.v && u[..i] == t.u
    {
      var vi, ui := NextSample(p, v[i - 1], u[i - 1], current, start, end, i);
      ghost var t := Simulate(p, current, start, end, i);
      assert At(v, u, i - 1) == At(t.v, t.u, i - 1);
      v := v[i := vi];
      u := u[i := ui];
      i := i + 1;
      assert v[..i] == t.v + [vi];
      assert u[..i] == t.u + [ui];
    }
    assert v == v[..i] && u == u[..i];
    return Ran(time, v, u);
  }
}
