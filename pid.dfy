/** The three-axis PID controller of pid.h.

    `struct PIDAttribute` nests its gain structs by value, and `struct PID`
    nests its three attributes by value, so an attribute is a datatype and
    the controller is a class whose methods reassign its three attribute
    fields, as `setupPID` and `calculatePID` write them through a pointer.
    The `double` arithmetic is modelled as `real`. */
module PidController {
  import opened Util

  datatype Proportion = Proportion(gain: real)
  datatype Integral = Integral(gain: real, total: real)
  datatype Derivative = Derivative(gain: real, prev: real)

  /** One axis of the controller: its output bound, its inputs (measured rate
      `gyro` and desired rate `target`), its last output and its gains and state. */
  datatype PidAttribute = PidAttribute(
    max: int,
    gyro: real,
    target: real,
    output: real,
    p: Proportion,
    i: Integral,
    d: Derivative)

  /** The product of two doubles, rounding aside. It stands for `*` only so
      that the solver treats the product as one term; it adds no behaviour. */
  function Mul(x: real, y: real): real
  {
    x * y
  }

  /** The error of one cycle: measured minus desired rate. */
  function Error(a: PidAttribute): real
  {
    a.gyro - a.target
  }

  /** The attribute's output bound as the `double` that limit compares with. */
  function Bound(a: PidAttribute): real
  {
    a.max as real
  }

  /** The fields calculatePID only reads. */
  predicate SameSettings(a: PidAttribute, b: PidAttribute)
  {
    a.max == b.max && a.gyro == b.gyro && a.target == b.target &&
    a.p == b.p && a.i.gain == b.i.gain && a.d.gain == b.d.gain
  }

  /** Both the integral total and the output lie within [-max, max]. */
  predicate WithinBound(a: PidAttribute)
  {
    -Bound(a) <= a.i.total <= Bound(a) && -Bound(a) <= a.output <= Bound(a)
  }

  /** What calculatePID does to one axis. */
  function AxisStep(a: PidAttribute): (r: PidAttribute)
    ensures SameSettings(a, r)
    ensures r.d.prev == Error(a)
    ensures a.max >= 0 ==> WithinBound(r)
    ensures -Bound(a) <= a.i.total + Mul(Error(a), a.i.gain) <= Bound(a) ==>
              r.i.total == a.i.total + Mul(Error(a), a.i.gain)
    ensures a.max == 0 ==> r.output == 0.0 && r.i.total == 0.0
    ensures a.max < 0 ==> r.output == Bound(a) && r.i.total == Bound(a)
  {
    var error := Error(a);
    var total := Limit(-Bound(a), a.i.total + Mul(error, a.i.gain), Bound(a));
    var output := Limit(-Bound(a), Mul(error, a.p.gain) + total + Mul(a.d.gain, error - a.d.prev), Bound(a));
    a.(output := output, i := a.i.(total := total), d := a.d.(prev := error))
  }

  /** A second cycle on unchanged inputs has a zero derivative term: the
      output is the clamped sum of the proportional and integral terms. */
  lemma RepeatedInputHasNoDerivative(a: PidAttribute)
    ensures var b := AxisStep(AxisStep(a));
            b.output == Limit(-Bound(a), Mul(Error(a), a.p.gain) + b.i.total, Bound(a))
  {
    var a1 := AxisStep(a);
    assert Error(a1) == a1.d.prev == Error(a);
    assert Mul(a1.d.gain, Error(a1) - a1.d.prev) == 0.0;
  }

  /** An axis whose derivative gain is 0 (yaw after setupPID) never has a
      derivative contribution, whatever its previous error. */
  lemma ZeroDerivativeGainIgnoresPrev(a: PidAttribute)
    requires a.d.gain == 0.0
    ensures var b := AxisStep(a);
            b.output == Limit(-Bound(a), Mul(Error(a), a.p.gain) + b.i.total, Bound(a))
  {
  }

  /** `n` successive calls of calculatePID on unchanged inputs. */
  function Run(a: PidAttribute, n: nat): (r: PidAttribute)
    ensures SameSettings(a, r)
    ensures n > 0 ==> r.d.prev == Error(a)
    ensures n > 0 && a.max >= 0 ==> WithinBound(r)
    decreases n
  {
    if n == 0 then a else AxisStep(Run(a, n - 1))
  }

  /** One more cycle of a constant increment `k` adds `k` to the product. */
  lemma MulSucc(n: nat, k: real)
    requires n > 0
    ensures Mul(n as real, k) == Mul((n - 1) as real, k) + k
  {
  }

  /** A product of a cycle count and an increment has the increment's sign. */
  lemma MulSign(n: nat, k: real)
    ensures k >= 0.0 ==> Mul(n as real, k) >= 0.0
    ensures k <= 0.0 ==> Mul(n as real, k) <= 0.0
  {
  }

  /** Anti-windup under a constant error that pushes the integral upwards:
      the integral grows by error * gain per cycle until it reaches max and
      then stays there; it never overshoots. */
  lemma {:induction false} IntegralWindsUpToBound(a: PidAttribute, n: nat)
    requires a.max >= 0
    requires -Bound(a) <= a.i.total <= Bound(a)
    requires Mul(Error(a), a.i.gain) >= 0.0
    ensures Run(a, n).i.total == Min(Bound(a), a.i.total + Mul(n as real, Mul(Error(a), a.i.gain)))
    decreases n
  {
    var k := Mul(Error(a), a.i.gain);
    if n > 0 {
      IntegralWindsUpToBound(a, n - 1);
      var prev := Run(a, n - 1);
      var sum := a.i.total + Mul((n - 1) as real, k);
      MulSucc(n, k);
      MulSign(n - 1, k);
      assert Mul(Error(prev), prev.i.gain) == k;
      assert Run(a, n).i.total == Limit(-Bound(a), prev.i.total + k, Bound(a));
      if sum <= Bound(a) {
        assert prev.i.total == sum;
      } else {
        assert prev.i.total == Bound(a);
      }
    }
  }

  /** The same, mirrored, for a constant error that pushes the integral downwards. */
  lemma {:induction false} IntegralWindsDownToBound(a: PidAttribute, n: nat)
    requires a.max >= 0
    requires -Bound(a) <= a.i.total <= Bound(a)
    requires Mul(Error(a), a.i.gain) <= 0.0
    ensures Run(a, n).i.total == Max(-Bound(a), a.i.total + Mul(n as real, Mul(Error(a), a.i.gain)))
    decreases n
  {
    var k := Mul(Error(a), a.i.gain);
    if n > 0 {
      IntegralWindsDownToBound(a, n - 1);
      var prev := Run(a, n - 1);
      var sum := a.i.total + Mul((n - 1) as real, k);
      MulSucc(n, k);
      MulSign(n - 1, k);
      assert Mul(Error(prev), prev.i.gain) == k;
      assert Run(a, n).i.total == Limit(-Bound(a), prev.i.total + k, Bound(a));
      if sum >= -Bound(a) {
        assert prev.i.total == sum;
      } else {
        assert prev.i.total == -Bound(a);
      }
    }
  }

  /** From the second cycle on unchanged inputs the output is the clamp of
      the proportional and integral terms, so once their sum exceeds max the
      output sits exactly at max. */
  lemma SteadyOutputSaturates(a: PidAttribute, n: nat)
    requires n >= 2
    ensures var r := Run(a, n);
            r.output == Limit(-Bound(a), Mul(Error(a), a.p.gain) + r.i.total, Bound(a))
    ensures var r := Run(a, n);
            a.max >= 0 && Mul(Error(a), a.p.gain) + r.i.total >= Bound(a) ==> r.output == Bound(a)
  {
    var b := Run(a, n - 2);
    RepeatedInputHasNoDerivative(b);
    assert Run(a, n) == AxisStep(AxisStep(b));
    assert Error(b) == Error(a) && b.p == a.p && Bound(b) == Bound(a);
  }

  /** Under zero error an integral within its bound is neither added to nor
      clamped, and the previous error is zero after the first cycle. */
  lemma {:induction false} ZeroErrorKeepsIntegral(a: PidAttribute, n: nat)
    requires a.gyro == a.target
    requires a.max >= 0
    requires -Bound(a) <= a.i.total <= Bound(a)
    ensures Run(a, n).i.total == a.i.total
    ensures n > 0 ==> Run(a, n).d.prev == 0.0
    decreases n
  {
    if n > 0 {
      ZeroErrorKeepsIntegral(a, n - 1);
      var prev := Run(a, n - 1);
      assert Error(prev) == 0.0;
      assert Mul(Error(prev), prev.i.gain) == 0.0;
    }
  }

  /** One cycle without error: an integral within its bound is kept, and
      only the derivative of the previous error adds to it in the output. */
  lemma ZeroErrorStep(b: PidAttribute)
    requires b.gyro == b.target
    requires -Bound(b) <= b.i.total <= Bound(b)
    ensures AxisStep(b).i.total == b.i.total
    ensures AxisStep(b).output == Limit(-Bound(b), b.i.total + Mul(b.d.gain, 0.0 - b.d.prev), Bound(b))
  {
    assert Error(b) == 0.0;
    assert Mul(Error(b), b.i.gain) == 0.0 && Mul(Error(b), b.p.gain) == 0.0;
  }

  /** An axis that sees no error, with an integral within its bound, holds
      its integral; the derivative of a stale previous error acts on the
      first cycle only, and from the second cycle on the output equals the
      integral. */
  lemma ZeroErrorHoldsIntegral(a: PidAttribute, n: nat)
    requires a.gyro == a.target
    requires a.max >= 0
    requires -Bound(a) <= a.i.total <= Bound(a)
    ensures Run(a, n).i.total == a.i.total
    ensures n > 0 ==> Run(a, n).d.prev == 0.0
    ensures n == 1 ==> Run(a, n).output == Limit(-Bound(a), a.i.total + Mul(a.d.gain, 0.0 - a.d.prev), Bound(a))
    ensures n >= 2 ==> Run(a, n).output == a.i.total
  {
    ZeroErrorKeepsIntegral(a, n);
    if n > 0 {
      ZeroErrorKeepsIntegral(a, n - 1);
      var prev := Run(a, n - 1);
      ZeroErrorStep(prev);
      if n >= 2 {
        assert Mul(prev.d.gain, 0.0 - prev.d.prev) == 0.0;
      }
    }
  }

  /** An axis with zero integral that sees no error comes to rest, whatever
      its previous error: the integral stays at zero and the output is zero
      from the second cycle on. */
  lemma ZeroErrorConvergesToRest(a: PidAttribute, n: nat)
    requires a.gyro == a.target
    requires a.i.total == 0.0
    requires a.max >= 0
    ensures Run(a, n).i.total == 0.0
    ensures n > 0 ==> Run(a, n).d.prev == 0.0
    ensures n == 1 ==> Run(a, n).output == Limit(-Bound(a), Mul(a.d.gain, 0.0 - a.d.prev), Bound(a))
    ensures n >= 2 ==> Run(a, n).output == 0.0
  {
    ZeroErrorHoldsIntegral(a, n);
  }

  /** A freshly reset axis (zero integral, zero previous error) that sees no
      error keeps a zero output, zero integral and zero previous error. */
  lemma ZeroErrorStaysAtRest(a: PidAttribute, n: nat)
    requires a.gyro == a.target
    requires a.i.total == 0.0 && a.d.prev == 0.0
    requires a.max >= 0
    ensures n > 0 ==> Run(a, n).output == 0.0
    ensures Run(a, n).i.total == 0.0 && Run(a, n).d.prev == 0.0
  {
    ZeroErrorConvergesToRest(a, n);
    assert Mul(a.d.gain, 0.0 - a.d.prev) == 0.0;
  }

  /** The `struct PID` of the source: one attribute per axis. */
  class Pid {
    var roll: PidAttribute
    var pitch: PidAttribute
    var yaw: PidAttribute

    /** Every axis keeps its integral and output within its bound. */
    ghost predicate Bounded()
      reads this
    {
      WithinBound(roll) && WithinBound(pitch) && WithinBound(yaw)
    }

    /** setupPID: fixed gains and bounds; pitch copies roll's; yaw has no
        derivative gain. Totals, previous errors, inputs and outputs are left
        as they were. */
    method SetupPid()
      modifies this
      ensures yaw == old(yaw).(max := 400, p := Proportion(4.0),
                               i := old(yaw).i.(gain := 0.02), d := old(yaw).d.(gain := 0.0))
      ensures roll == old(roll).(max := 400, p := Proportion(1.3),
                                 i := old(roll).i.(gain := 0.04), d := old(roll).d.(gain := 18.0))
      ensures pitch == old(pitch).(max := roll.max, p := roll.p,
                                   i := old(pitch).i.(gain := roll.i.gain), d := old(pitch).d.(gain := roll.d.gain))
    {
      yaw := yaw.(max := 400);
      yaw := yaw.(p := yaw.p.(gain := 4.0));
      yaw := yaw.(i := yaw.i.(gain := 0.02));
      yaw := yaw.(d := yaw.d.(gain := 0.0));

      roll := roll.(max := 400);
      roll := roll.(p := roll.p.(gain := 1.3));
      roll := roll.(i := roll.i.(gain := 0.04));
      roll := roll.(d := roll.d.(gain := 18.0));

      pitch := pitch.(max := roll.max);
      pitch := pitch.(p := pitch.p.(gain := roll.p.gain));
      pitch := pitch.(i := pitch.i.(gain := roll.i.gain));
      pitch := pitch.(d := pitch.d.(gain := roll.d.gain));
    }

    /** calculatePID: one control cycle on each axis in turn, each axis using
        only its own fields. */
    method CalculatePid()
      modifies this
      ensures roll == AxisStep(old(roll))
      ensures pitch == AxisStep(old(pitch))
      ensures yaw == AxisStep(old(yaw))
      ensures roll.max >= 0 && pitch.max >= 0 && yaw.max >= 0 ==> Bounded()
    {
      var error, output, pidI;

      error := roll.gyro - roll.target;
      pidI := roll.i.total + Mul(error, roll.i.gain);
      roll := roll.(i := roll.i.(total := Limit(-(roll.max as real), pidI, roll.max as real)));
      output := Mul(error, roll.p.gain) + roll.i.total + Mul(roll.d.gain, error - roll.d.prev);
      output := Limit(-(roll.max as real), output, roll.max as real);
      roll := roll.(d := roll.d.(prev := error));
      roll := roll.(output := output);

      error := pitch.gyro - pitch.target;
      pidI := pitch.i.total + Mul(error, pitch.i.gain);
      pitch := pitch.(i := pitch.i.(total := Limit(-(pitch.max as real), pidI, pitch.max as real)));
      output := Mul(error, pitch.p.gain) + pitch.i.total + Mul(pitch.d.gain, error - pitch.d.prev);
      output := Limit(-(pitch.max as real), output, pitch.max as real);
      pitch := pitch.(d := pitch.d.(prev := error));
      pitch := pitch.(output := output);

      error := yaw.gyro - yaw.target;
      pidI := yaw.i.total + Mul(error, yaw.i.gain);
      yaw := yaw.(i := yaw.i.(total := Limit(-(yaw.max as real), pidI, yaw.max as real)));
      output := Mul(error, yaw.p.gain) + yaw.i.total + Mul(yaw.d.gain, error - yaw.d.prev);
      output := Limit(-(yaw.max as real), output, yaw.max as real);
      yaw := yaw.(d := yaw.d.(prev := error));
      yaw := yaw.(output := output);
    }
  }
}
