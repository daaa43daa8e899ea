/** The gyroscope/accelerometer of gyro.h: decoding of the 14-byte sample
    the sensor returns from register 0x3B on, the mount-specific remapping
    of its axes, bias subtraction and bias calibration.

    The I2C transfer is an input sequence of bytes (values 0..255); `calibrateGyro` receives
    the sequence of samples its reads would return. On the AVR target `int`
    is 16 bits and `long` 32 bits; `double` is modelled as `real`. */
module GyroSensor {

  /** A byte as `Wire.read()` returns it. */
  type Byte = x: int | 0 <= x < 0x100

  /** Number of samples averaged by calibrateGyro. */
  const GyroCalibrations: nat := 2000
  /** I2C address of the sensor (0b1101000). */
  const GyroAddr: int := 0x68
  /** Bytes in one sample: three acceleration words, temperature, three rate words. */
  const FrameLength: nat := 14

  /** A big-endian byte pair (high byte first) read as a signed 16-bit `int`,
      as `(Wire.read() << 8) | Wire.read()` yields on a 16-bit `int`. */
  function Word16(hi: Byte, lo: Byte): (r: int)
    ensures -0x8000 <= r < 0x8000
    ensures (r - (hi * 256 + lo)) % 0x1_0000 == 0
    ensures r < 0 <==> hi >= 0x80
  {
    var u := hi * 256 + lo;
    if u >= 0x8000 then u - 0x1_0000 else u
  }

  /** The two's complement bit pattern of a 16-bit value. */
  function Unsigned16(v: int): (u: int)
    requires -0x8000 <= v < 0x8000
    ensures 0 <= u < 0x1_0000
    ensures (u - v) % 0x1_0000 == 0
  {
    if v < 0 then v + 0x1_0000 else v
  }

  /** The byte pair the sensor sends for a 16-bit value, high byte first. */
  function EncodeWord(v: int): (bytes: seq<Byte>)
    requires -0x8000 <= v < 0x8000
    ensures |bytes| == 2
  {
    [Unsigned16(v) / 256, Unsigned16(v) % 256]
  }

  lemma DecodeEncodeWord(v: int)
    requires -0x8000 <= v < 0x8000
    ensures Word16(EncodeWord(v)[0], EncodeWord(v)[1]) == v
  {
  }

  lemma EncodeDecodeWord(hi: Byte, lo: Byte)
    ensures EncodeWord(Word16(hi, lo)) == [hi, lo]
  {
    var u := hi * 256 + lo;
    assert Unsigned16(Word16(hi, lo)) == u;
    assert u / 256 == hi && u % 256 == lo;
  }

  datatype Acc = Acc(x: int, y: int, z: int)

  /** One decoded sample, already remapped to the airframe's axes: the
      sensor's rate words come in the order pitch, roll, yaw. */
  datatype Frame = Frame(acc: Acc, temp: int, pitch: int, roll: int, yaw: int)

  /** The k-th big-endian word of a sample, in the sensor's register order. */
  function Register(bytes: seq<Byte>, k: nat): (r: int)
    requires |bytes| == FrameLength && k < 7
    ensures -0x8000 <= r < 0x8000
  {
    Word16(bytes[2 * k], bytes[2 * k + 1])
  }

  /** The values readGyroValues stores before bias correction. acc.x and
      acc.y are negated (the sensor is mounted the other way round); the negation
      is taken in the 32-bit `long` the fields are declared with. */
  function DecodeFrame(bytes: seq<Byte>): (f: Frame)
    requires |bytes| == FrameLength
    ensures Encodable(f)
    ensures f.acc.x == -Register(bytes, 0) && f.acc.y == -Register(bytes, 1) && f.acc.z == Register(bytes, 2)
    ensures f.temp == Register(bytes, 3)
    ensures f.pitch == Register(bytes, 4) && f.roll == Register(bytes, 5) && f.yaw == Register(bytes, 6)
  {
    Frame(Acc(-Register(bytes, 0), -Register(bytes, 1), Register(bytes, 2)),
          Register(bytes, 3), Register(bytes, 4), Register(bytes, 5), Register(bytes, 6))
  }

  /** The acceleration axes point opposite to the sensor's own axes: acc.x and
      acc.y have the opposite sign of their register words, acc.z the same,
      for every register value. */
  lemma AccIsNegatedReading(bytes: seq<Byte>)
    requires |bytes| == FrameLength
    ensures var f := DecodeFrame(bytes);
            (f.acc.x > 0 <==> Register(bytes, 0) < 0) && (f.acc.x < 0 <==> Register(bytes, 0) > 0) &&
            (f.acc.y > 0 <==> Register(bytes, 1) < 0) && (f.acc.y < 0 <==> Register(bytes, 1) > 0) &&
            (f.acc.z < 0 <==> bytes[4] >= 0x80)
  {
  }

  /** A sample whose words, in register order, are 1 to 7 lands as
      acc = (-1, -2, 3), temp = 4, pitch = 5, roll = 6, yaw = 7. */
  lemma DecodeFrameLayout()
    ensures DecodeFrame([0, 1, 0, 2, 0, 3, 0, 4, 0, 5, 0, 6, 0, 7]) == Frame(Acc(-1, -2, 3), 4, 5, 6, 7)
  {
  }

  /** Unary minus on the 16-bit `int`: -(-32768) does not fit and wraps
      back to -32768 on the AVR. */
  function NegateInt16(w: int): (r: int)
    requires -0x8000 <= w < 0x8000
    ensures -0x8000 <= r < 0x8000
    ensures (r + w) % 0x1_0000 == 0
  {
    if w == -0x8000 then w else -w
  }

  /** The acceleration fields as gyro.h:57-59 compute them: the negation is
      applied to the 16-bit `int` before the value is widened to `long`. */
  function AccAsWritten(bytes: seq<Byte>): (a: Acc)
    requires |bytes| == FrameLength
    ensures a.z == DecodeFrame(bytes).acc.z
    ensures Register(bytes, 0) != -0x8000 ==> a.x == DecodeFrame(bytes).acc.x
    ensures Register(bytes, 1) != -0x8000 ==> a.y == DecodeFrame(bytes).acc.y
  {
    Acc(NegateInt16(Register(bytes, 0)), NegateInt16(Register(bytes, 1)), Register(bytes, 2))
  }

  /** A full-scale negative reading 0x8000 on the x axis keeps its sign
      through the negation as written, so acc.x reports full scale in the
      wrong direction, where the negation in `long` gives +32768. */
  lemma AccAsWrittenKeepsSignAtFullScale()
    ensures var bytes := [0x80, 0x00, 0, 0, 0, 0, 0, 0, 0, 0, 0, 0, 0, 0];
            AccAsWritten(bytes).x == -0x8000 && DecodeFrame(bytes).acc.x == 0x8000
  {
  }

  /** Fields of a frame that some 14-byte sample decodes to. */
  predicate Encodable(f: Frame)
  {
    -0x7FFF <= f.acc.x <= 0x8000 && -0x7FFF <= f.acc.y <= 0x8000 &&
    -0x8000 <= f.acc.z < 0x8000 && -0x8000 <= f.temp < 0x8000 &&
    -0x8000 <= f.pitch < 0x8000 && -0x8000 <= f.roll < 0x8000 && -0x8000 <= f.yaw < 0x8000
  }

  /** The bytes the sensor sends for a frame, register by register:
      acceleration x, y, z, temperature, then the pitch, roll and yaw rates. */
  function EncodeFrame(f: Frame): (bytes: seq<Byte>)
    requires Encodable(f)
    ensures |bytes| == FrameLength
  {
    EncodeWord(-f.acc.x) + EncodeWord(-f.acc.y) + EncodeWord(f.acc.z) + EncodeWord(f.temp)
    + EncodeWord(f.pitch) + EncodeWord(f.roll) + EncodeWord(f.yaw)
  }

  /** Decoding undoes the sensor's encoding of every representable frame. */
  lemma DecodeEncodeFrame(f: Frame)
    requires Encodable(f)
    ensures DecodeFrame(EncodeFrame(f)) == f
  {
    var b := EncodeFrame(f);
    var words := [-f.acc.x, -f.acc.y, f.acc.z, f.temp, f.pitch, f.roll, f.yaw];
    forall k | 0 <= k < 7
      ensures Register(b, k) == words[k]
    {
      assert b[2 * k] == EncodeWord(words[k])[0] && b[2 * k + 1] == EncodeWord(words[k])[1];
      DecodeEncodeWord(words[k]);
    }
  }

  /** Every sample decodes to a representable frame, and encoding it gives
      back the very same bytes: decoding loses nothing. */
  lemma EncodeDecodeFrame(bytes: seq<Byte>)
    requires |bytes| == FrameLength
    ensures Encodable(DecodeFrame(bytes))
    ensures EncodeFrame(DecodeFrame(bytes)) == bytes
  {
    var f := DecodeFrame(bytes);
    var e := EncodeFrame(f);
    forall k | 0 <= k < 7
      ensures e[2 * k] == bytes[2 * k] && e[2 * k + 1] == bytes[2 * k + 1]
    {
      EncodeDecodeWord(bytes[2 * k], bytes[2 * k + 1]);
      var w := [-f.acc.x, -f.acc.y, f.acc.z, f.temp, f.pitch, f.roll, f.yaw][k];
      assert w == Register(bytes, k);
      assert e[2 * k] == EncodeWord(w)[0] && e[2 * k + 1] == EncodeWord(w)[1];
    }
    forall j | 0 <= j < FrameLength
      ensures e[j] == bytes[j]
    {
      var k := j / 2;
      assert j == 2 * k || j == 2 * k + 1;
    }
  }

  /** A rate as readGyroValues leaves it: the raw word, less the bias once
      the sensor is calibrated. */
  function CorrectedRate(raw: int, calibrated: bool, bias: real): (r: real)
    ensures !calibrated ==> r == raw as real
    ensures calibrated ==> r + bias == raw as real
  {
    if calibrated then raw as real - bias else raw as real
  }

  datatype Axis = Roll | Pitch | Yaw

  function RawRate(f: Frame, axis: Axis): int
  {
    match axis
    case Roll => f.roll
    case Pitch => f.pitch
    case Yaw => f.yaw
  }

  predicate AllFrames(samples: seq<seq<Byte>>)
  {
    forall k :: 0 <= k < |samples| ==> |samples[k]| == FrameLength
  }

  /** The sum of one axis's raw rates over the first `n` samples. */
  function RateSum(samples: seq<seq<Byte>>, n: nat, axis: Axis): real
    requires AllFrames(samples) && n <= |samples|
  {
    if n == 0 then 0.0
    else RateSum(samples, n - 1, axis) + RawRate(DecodeFrame(samples[n - 1]), axis) as real
  }

  /** n copies of v added up, as the calibration loop adds them. */
  function Repeated(n: nat, v: real): real
  {
    if n == 0 then 0.0 else Repeated(n - 1, v) + v
  }

  lemma {:induction false} RepeatedIsProduct(n: nat, v: real)
    ensures Repeated(n, v) == (n as real) * v
  {
    if n > 0 {
      RepeatedIsProduct(n - 1, v);
      assert (n as real) * v == ((n - 1) as real) * v + v;
    }
  }

  /** If each of the first `n` samples' rates on an axis lies in [lo, hi],
      their sum lies between n copies of lo and n copies of hi. */
  lemma {:induction false} RateSumBounds(samples: seq<seq<Byte>>, n: nat, axis: Axis, lo: real, hi: real)
    requires AllFrames(samples) && n <= |samples|
    requires forall k :: 0 <= k < n ==> lo <= RawRate(DecodeFrame(samples[k]), axis) as real <= hi
    ensures Repeated(n, lo) <= RateSum(samples, n, axis) <= Repeated(n, hi)
  {
    if n > 0 {
      RateSumBounds(samples, n - 1, axis, lo, hi);
      var v := RawRate(DecodeFrame(samples[n - 1]), axis) as real;
      assert lo <= v <= hi;
    }
  }

  /** The bias calibrateGyro derives, `(start + RateSum) / 2000` by its
      postcondition, is the mean of the samples when the accumulator `start`
      was zero: it lies within their range, and equals their common value
      when the sensor reads the same rate every time. */
  lemma BiasIsMeanOfSamples(samples: seq<seq<Byte>>, axis: Axis, start: real, lo: real, hi: real)
    requires start == 0.0
    requires |samples| == GyroCalibrations && AllFrames(samples)
    requires forall k :: 0 <= k < |samples| ==> lo <= RawRate(DecodeFrame(samples[k]), axis) as real <= hi
    ensures lo <= (start + RateSum(samples, GyroCalibrations, axis)) / GyroCalibrations as real <= hi
    ensures lo == hi ==> (start + RateSum(samples, GyroCalibrations, axis)) / GyroCalibrations as real == lo
  {
    RateSumBounds(samples, GyroCalibrations, axis, lo, hi);
    RepeatedIsProduct(GyroCalibrations, lo);
    RepeatedIsProduct(GyroCalibrations, hi);
    var sum := RateSum(samples, GyroCalibrations, axis);
    assert 2000.0 * lo <= sum <= 2000.0 * hi;
    assert GyroCalibrations as real == 2000.0;
  }

  /** The `struct Gyroscope` of the source. */
  class Gyroscope {
    var acc: Acc
    var address: int
    var temp: int
    var roll: real
    var pitch: real
    var yaw: real
    var rollCal: real
    var pitchCal: real
    var yawCal: real
    var calibrated: bool

    /** The sample fields hold exactly the raw values of `f`. */
    ghost predicate ShowsRaw(f: Frame)
      reads this`acc, this`temp, this`roll, this`pitch, this`yaw
    {
      acc == f.acc && temp == f.temp &&
      roll == f.roll as real && pitch == f.pitch as real && yaw == f.yaw as real
    }

    /** readGyroValues, given the 14 bytes the sensor returns. */
    method ReadGyroValues(bytes: seq<Byte>)
      requires |bytes| == FrameLength
      modifies this
      ensures var f := DecodeFrame(bytes);
              acc == f.acc && temp == f.temp &&
              roll == CorrectedRate(f.roll, calibrated, rollCal) &&
              pitch == CorrectedRate(f.pitch, calibrated, pitchCal) &&
              yaw == CorrectedRate(f.yaw, calibrated, yawCal)
      ensures !calibrated ==> ShowsRaw(DecodeFrame(bytes))
      ensures rollCal == old(rollCal) && pitchCal == old(pitchCal) && yawCal == old(yawCal)
      ensures calibrated == old(calibrated) && address == old(address)
    {
      acc := acc.(x := -Word16(bytes[0], bytes[1]));
      acc := acc.(y := -Word16(bytes[2], bytes[3]));
      acc := acc.(z := Word16(bytes[4], bytes[5]));

      temp := Word16(bytes[6], bytes[7]);

      pitch := Word16(bytes[8], bytes[9]) as real;
      roll := Word16(bytes[10], bytes[11]) as real;
      yaw := Word16(bytes[12], bytes[13]) as real;

      if calibrated {
        roll := roll - rollCal;
        pitch := pitch - pitchCal;
        yaw := yaw - yawCal;
      }
    }

    /** One pass of calibrateGyro's loop: read a sample, then add its rates
        to the accumulators. While uncalibrated the rates added are the raw
        ones. */
    method AccumulateSample(bytes: seq<Byte>)
      requires |bytes| == FrameLength
      modifies this
      ensures calibrated == old(calibrated) && address == old(address)
      ensures var f := DecodeFrame(bytes);
              !calibrated ==>
                ShowsRaw(f) &&
                rollCal == old(rollCal) + RawRate(f, Roll) as real &&
                pitchCal == old(pitchCal) + RawRate(f, Pitch) as real &&
                yawCal == old(yawCal) + RawRate(f, Yaw) as real
    {
      ReadGyroValues(bytes);
      rollCal := rollCal + roll;
      pitchCal := pitchCal + pitch;
      yawCal := yawCal + yaw;
    }

    /** calibrateGyro, given the GyroCalibrations samples its reads return.
        The accumulators are not reset first, so the bias is the mean of the
        samples only when they start at zero. The rates left behind are the
        last sample's raw values, since the sensor is uncalibrated while the
        samples are read. */
    method CalibrateGyro(samples: seq<seq<Byte>>)
      requires |samples| == GyroCalibrations && AllFrames(samples)
      modifies this
      ensures calibrated
      ensures rollCal == (old(rollCal) + RateSum(samples, GyroCalibrations, Roll)) / GyroCalibrations as real
      ensures pitchCal == (old(pitchCal) + RateSum(samples, GyroCalibrations, Pitch)) / GyroCalibrations as real
      ensures yawCal == (old(yawCal) + RateSum(samples, GyroCalibrations, Yaw)) / GyroCalibrations as real
      ensures ShowsRaw(DecodeFrame(samples[GyroCalibrations - 1]))
      ensures address == old(address)
    {
      calibrated := false;
      for i := 0 to GyroCalibrations
        invariant !calibrated && address == old(address)
        invariant rollCal == old(rollCal) + RateSum(samples, i, Roll)
        invariant pitchCal == old(pitchCal) + RateSum(samples, i, Pitch)
        invariant yawCal == old(yawCal) + RateSum(samples, i, Yaw)
        invariant i > 0 ==> ShowsRaw(DecodeFrame(samples[i - 1]))
      {
        AccumulateSample(samples[i]);
      }

      FinishCalibration();
    }

    /** The end of calibrateGyro: each accumulator becomes its mean over the
        GyroCalibrations samples, and the sensor counts as calibrated. */
    method FinishCalibration()
      modifies this
      ensures rollCal == old(rollCal) / GyroCalibrations as real
      ensures pitchCal == old(pitchCal) / GyroCalibrations as real
      ensures yawCal == old(yawCal) / GyroCalibrations as real
      ensures calibrated
      ensures acc == old(acc) && temp == old(temp) && address == old(address)
      ensures roll == old(roll) && pitch == old(pitch) && yaw == old(yaw)
    {
      rollCal := rollCal / GyroCalibrations as real;
      pitchCal := pitchCal / GyroCalibrations as real;
      yawCal := yawCal / GyroCalibrations as real;
      calibrated := true;
    }
  }
}
