/** The bias trajectories the switch hands to its amplifier controller
    (`gate_vs` and `drain_vs` in `LabSwitch.__init__`, Lab/Lab.py): the values of
    `np.arange(0, setpoint + 0.5 * step, step)`, with voltages as exact reals. */
module Bias {

  /** Gate and drain setpoints and the ramp step the switch configures, in volts. */
  const GateSetpoint: real := 1.1
  const DrainSetpoint: real := 0.7
  const Step: real := 0.05

  /** Multiplying by a positive factor keeps order, both ways. */
  lemma ScaleOrder(a: real, b: real, c: real)
    requires c > 0.0
    ensures a <= b <==> a * c <= b * c
    ensures a < b <==> a * c < b * c
  {
    if a <= b {
      assert b * c - a * c == (b - a) * c;
    } else {
      assert a * c - b * c == (a - b) * c;
    }
  }

  /** A multiple of `step` by a factor up to `y` stays below a bound that `y * step` is below. */
  lemma ScaledBelow(x: real, y: real, step: real, bound: real)
    requires step > 0.0 && x <= y && y * step < bound
    ensures x * step < bound
  {
    ScaleOrder(x, y, step);
  }

  /** The smallest integer not below `x`. */
  function Ceil(x: real): (c: int)
    ensures c as real >= x && (c - 1) as real < x
  {
    -((-x).Floor)
  }

  /** The number of values `np.arange(0, stop, step)` produces: the least `n`
      with `n * step` not below `stop`. */
  function ArangeLength(stop: real, step: real): (n: nat)
    requires step > 0.0
    ensures (n as real) * step >= stop
    ensures n > 0 ==> ((n - 1) as real) * step < stop
  {
    if stop <= 0.0 then 0
    else
      var c := Ceil(stop / step);
      assert (stop / step) * step == stop;
      ScaleOrder(stop / step, c as real, step);
      ScaleOrder((c - 1) as real, stop / step, step);
      assert ((c - 1) as real) * step < stop;
      c
  }

  /** `np.arange(0, stop, step)`: the multiples of `step` from 0 that lie below `stop`. */
  function Arange(stop: real, step: real): (r: seq<real>)
    requires step > 0.0
    ensures |r| == 0 <==> stop <= 0.0
    ensures |r| > 0 ==> r[0] == 0.0
  {
    seq(ArangeLength(stop, step), j requires 0 <= j => (j as real) * step)
  }

  /** The ramp towards `setpoint`. Since `np.arange` leaves out its stop value,
      the stop is placed half a step past the setpoint. */
  function Trajectory(setpoint: real, step: real): (r: seq<real>)
    requires step > 0.0
    ensures setpoint >= 0.0 ==> |r| > 0 && r[0] == 0.0
  {
    Arange(setpoint + 0.5 * step, step)
  }

  /** Every value of `np.arange(0, stop, step)` lies below `stop`. */
  lemma ArangeBelowStop(stop: real, step: real, j: nat)
    requires step > 0.0 && j < |Arange(stop, step)|
    ensures Arange(stop, step)[j] < stop
  {
    var n := ArangeLength(stop, step);
    assert Arange(stop, step)[j] == (j as real) * step;
    ScaledBelow(j as real, (n - 1) as real, step, stop);
  }

  /** Consecutive values of `np.arange(0, stop, step)` are one step apart. */
  lemma ArangeStep(stop: real, step: real, j: nat)
    requires step > 0.0 && j + 1 < |Arange(stop, step)|
    ensures Arange(stop, step)[j + 1] == Arange(stop, step)[j] + step
  {
    assert ((j + 1) as real) * step == (j as real) * step + step;
  }

  /** The last value of `np.arange(0, stop, step)` is at most one step below `stop`. */
  lemma ArangeLast(stop: real, step: real)
    requires step > 0.0 && |Arange(stop, step)| > 0
    ensures Arange(stop, step)[|Arange(stop, step)| - 1] + step >= stop
  {
    var n := ArangeLength(stop, step);
    assert ((n - 1) as real) * step + step == (n as real) * step;
  }

  /** When `stop` is `k` whole steps, `np.arange(0, stop, step)` has `k` values and
      its last one is exactly one step below `stop`. */
  lemma ArangeLastWhole(k: nat, step: real)
    requires k > 0 && step > 0.0
    ensures |Arange((k as real) * step, step)| == k
    ensures Arange((k as real) * step, step)[k - 1] + step == (k as real) * step
  {
    var stop := (k as real) * step;
    var n := ArangeLength(stop, step);
    var whole := k as real;
    var upper := n as real;
    assert upper * step >= whole * step;
    ScaleOrder(whole, upper, step);
    assert n >= k;
    var lower := (n - 1) as real;
    assert lower * step < whole * step;
    ScaleOrder(lower, whole, step);
    assert n == k;
    assert Arange(stop, step)[k - 1] == ((k - 1) as real) * step;
    assert ((k - 1) as real) * step + step == whole * step;
  }

  /** A ramp towards a setpoint that is not negative starts at 0, rises by exactly
      one step at a time, stays below half a step past the setpoint and ends
      within half a step of it. */
  lemma TrajectoryShape(setpoint: real, step: real)
    requires step > 0.0 && setpoint >= 0.0
    ensures var t := Trajectory(setpoint, step);
      |t| > 0 && t[0] == 0.0 &&
      (forall j :: 0 <= j < |t| - 1 ==> t[j + 1] == t[j] + step) &&
      (forall j :: 0 <= j < |t| ==> t[j] < setpoint + 0.5 * step) &&
      t[|t| - 1] >= setpoint - 0.5 * step
  {
    var stop := setpoint + 0.5 * step;
    var t := Arange(stop, step);
    assert |t| > 0;
    forall j | 0 <= j < |t| - 1 ensures t[j + 1] == t[j] + step {
      ArangeStep(stop, step, j);
    }
    forall j | 0 <= j < |t| ensures t[j] < stop {
      ArangeBelowStop(stop, step, j);
    }
    ArangeLast(stop, step);
  }

  /** When the setpoint is `k` whole steps, the ramp has `k + 1` values and its
      last one is the setpoint itself. */
  lemma {:induction false} TrajectoryReachesSetpoint(k: nat, step: real)
    requires step > 0.0
    ensures |Trajectory((k as real) * step, step)| == k + 1
    ensures Trajectory((k as real) * step, step)[k] == (k as real) * step
  {
    var stop := (k as real) * step + 0.5 * step;
    var n := ArangeLength(stop, step);
    var half := (k as real) + 0.5;
    assert stop == half * step;
    var upper := n as real;
    assert upper * step >= half * step;
    ScaleOrder(half, upper, step);
    assert n >= k + 1;
    var lower := (n - 1) as real;
    assert lower * step < half * step;
    ScaleOrder(lower, half, step);
    assert n == k + 1;
    assert Trajectory((k as real) * step, step) == Arange(stop, step);
  }

  /** The configured gate ramp has 23 values ending at 1.1 V, the drain ramp 15
      ending at 0.7 V. */
  lemma ConfiguredTrajectories()
    ensures |Trajectory(GateSetpoint, Step)| == 23 && Trajectory(GateSetpoint, Step)[22] == GateSetpoint
    ensures |Trajectory(DrainSetpoint, Step)| == 15 && Trajectory(DrainSetpoint, Step)[14] == DrainSetpoint
  {
    assert GateSetpoint == (22 as real) * Step;
    TrajectoryReachesSetpoint(22, Step);
    assert DrainSetpoint == (14 as real) * Step;
    TrajectoryReachesSetpoint(14, Step);
  }
}
