# Flight-control core of a small quadcopter, in Dafny

This project models the flight-control core of an Arduino (AVR) quadcopter
and proves properties of that model. The core has four parts:

- `util.dfy` (module `Util`) covers the clamp helpers `max`, `min`, `pow2` and
  `limit`, and the EEPROM addresses reserved for the calibration record.
- `pid.dfy` (module `PidController`) is the three-axis PID controller.
  `PidAttribute` is one axis: bound, inputs, output, gains, integral total and
  previous error. Class `Pid` holds the roll, pitch and yaw attributes.
  `SetupPid` loads the fixed gains, and `CalculatePid` runs one control cycle.
  Each cycle applies `AxisStep` to every axis: error = gyro − target, an
  integral clamped to ±max (anti-windup), an output clamped to ±max, and
  prev = error.
- `receiver.dfy` (module `RadioReceiver`) is the four-channel pulse-width
  decoder. `Receiver.HandlePinChange` is the body of the pin-change interrupt.
  Each channel is a two-state machine (`ChannelStep`). A rising edge records
  the time. A falling edge stores the elapsed time as the pulse width. Any other
  input leaves the channel alone. `Replay` and `Edges` describe what a channel
  records over a series of interrupts.
- `gyro.dfy` (module `GyroSensor`) covers the motion sensor.
  - `DecodeFrame` turns the 14 bytes the sensor returns into a `Frame`. Each
    value is a big-endian signed 16-bit word (`Word16`). The frame is remapped
    for the way the sensor is mounted: acc.x and acc.y are negated, and the
    rate words arrive as pitch, roll, yaw.
  - `EncodeFrame` is the sensor-side encoding that decoding undoes.
  - `Gyroscope.ReadGyroValues` stores a decoded sample. Once the sensor is
    calibrated, it subtracts the bias.
  - `Gyroscope.CalibrateGyro` adds up 2000 samples into the bias fields and
    divides by 2000.

The source's nested structs are held by value, so `PidAttribute`,
`ReceiverChannel` and `Acc` are datatypes. The structs the source updates
through a pointer or a global (`PID`, `Receiver`, `Gyroscope`) are classes,
and their methods reassign those fields. `double` is modelled as `real`.

The target is an AVR, so `int` is 16 bits and `unsigned long` is 32 bits. Those
widths are written out in the model:
- `Word16` decodes a byte pair into a 16-bit `int`.
- `SubU32` is the wrapping subtraction of `micros()` values.
- `ToInt16` is the conversion of that difference into the 16-bit `pulse` field.

Points where the model follows the code's behaviour:
- The model follows the code's sign convention. acc.x and acc.y are negated
  (gyro.h:57-58); the model takes that negation in `long` (see Findings). Yaw
  is stored as read (gyro.h:67).
- The pulse width is stored in a 16-bit `int` (receiver.h:7), not an unsigned
  32-bit value. `PulseWidthIsElapsedTime` shows the width is exact for pulses
  under 32768 µs, even when the microsecond counter wraps.
- `calibrateGyro` does not reset `roll_cal`/`pitch_cal`/`yaw_cal` before
  accumulating (gyro.h:76-85). The bias is therefore the mean of the samples
  only when those fields start at zero. `BiasIsMeanOfSamples` states that case.
- For max ≥ 0 and an integral within ±max, sustained zero error holds the
  integral at its starting value. From the second cycle on, the output equals
  that integral, whatever the previous error was; the stale derivative term
  acts on the first cycle only (`ZeroErrorHoldsIntegral`). So the output comes
  to rest at zero exactly when the integral starts at zero
  (`ZeroErrorConvergesToRest`). An integral outside ±max is not held: the
  first cycle clamps it into ±max (`AxisStep`).

## Model

| member | source | states |
|---|---|---|
| `Util.Max` | util.h:4-10 | the result is one of the two arguments and is ≥ both; when the first is not strictly greater, the second is returned |
| `Util.Min` | util.h:12-18 | the result is one of the two arguments and is ≤ both; when the first is not strictly smaller, the second is returned |
| `Util.Pow2` | util.h:20-22 | the square is never negative |
| `Util.Pow2Even` | util.h:21 | pow2(−a) = pow2(a) |
| `Util.Limit` | util.h:24-26 | with low ≤ high the result lies in [low, high]; a value already in range is returned unchanged; below-range gives low, above-range gives high; with low > high the result is high (min is applied last) |
| `Util.LimitIdempotent` | util.h:25 | clamping an already clamped value changes nothing, for every range |
| `Util.LimitSymmetric` | util.h:25 | a symmetric clamp [−m, m] commutes with negation |
| `PidController.AxisStep` | pid.h:52-61 | one axis of calculatePID: only i.total, d.prev and output change; d.prev becomes gyro − target; with max ≥ 0, i.total and output lie in [−max, max]; an integral sum already within ±max is stored unclamped; max = 0 gives output 0 and i.total 0; max < 0 gives max for both |
| `PidController.RepeatedInputHasNoDerivative` | pid.h:53-60 | on a second cycle with the same gyro and target, the derivative term vanishes: output = limit(error·p + i.total) |
| `PidController.ZeroDerivativeGainIgnoresPrev` | pid.h:36 | with d.gain = 0 (yaw after setupPID), the previous error never affects the output |
| `PidController.Run` | pid.h:49-84 | repeated cycles on unchanged inputs keep the gains, bound and inputs; after one cycle prev = error, and with max ≥ 0 the integral and output stay within ±max |
| `PidController.IntegralWindsUpToBound` | pid.h:54-55 | under a constant error with error·i.gain ≥ 0, after n cycles i.total = min(max, i.total₀ + n·error·i.gain): it winds up linearly and stops exactly at max |
| `PidController.IntegralWindsDownToBound` | pid.h:54-55 | the mirror image: with error·i.gain ≤ 0, i.total = max(−max, i.total₀ + n·error·i.gain) |
| `PidController.SteadyOutputSaturates` | pid.h:57-58 | from the second cycle on unchanged inputs, output = limit(error·p + i.total); once that sum reaches max, the output is exactly max |
| `PidController.ZeroErrorKeepsIntegral` | pid.h:53-60 | under zero error, an integral within ±max (max ≥ 0) keeps its value on every cycle, and the previous error is 0 after the first cycle |
| `PidController.ZeroErrorStep` | pid.h:53-58 | one cycle with zero error keeps an integral within ±max, and the output is limit(i.total + d.gain·(0 − prev)) |
| `PidController.ZeroErrorHoldsIntegral` | pid.h:53-60 | for max ≥ 0, zero error and an integral within ±max: the integral keeps its starting value; the first output is limit(i.total + d.gain·(0 − prev)); from the second cycle on the output equals the integral |
| `PidController.ZeroErrorConvergesToRest` | pid.h:53-60 | an axis with zero integral that sees zero error, whatever its previous error: the integral stays 0; after one cycle the previous error is 0; the first output is limit(d.gain·(0 − prev)); from the second cycle on the output is 0 |
| `PidController.ZeroErrorStaysAtRest` | pid.h:53-60 | an axis with zero integral and zero previous error that sees zero error keeps output, integral and previous error at 0 for all cycles |
| `PidController.Pid.SetupPid` | pid.h:32-47 | yaw gets max 400 and gains 4, 0.02, 0; roll gets max 400 and gains 1.3, 0.04, 18; pitch copies roll's max and gains; no other field changes |
| `PidController.Pid.CalculatePid` | pid.h:49-84 | each axis becomes AxisStep of its own old value, using no other axis; when all bounds are ≥ 0, every integral and output is within its bound |
| `RadioReceiver.SubU32` | receiver.h:29 | `unsigned long` subtraction: adding the result back to the subtrahend gives the minuend modulo 2^32; without wrap it is the plain difference |
| `RadioReceiver.ToInt16` | receiver.h:7 | storing into the 16-bit `pulse` keeps the value modulo 2^16 in [−32768, 32767], and leaves values below 32768 unchanged |
| `RadioReceiver.ChannelStep` | receiver.h:24-30 | the new state equals the input bit; on a rising edge, time becomes the timestamp and pulse is kept; on a falling edge, pulse becomes the wrapped difference from the stored time and time is kept; if the bit equals the state, nothing changes; pulse changes only on a falling edge |
| `RadioReceiver.NoRiseKeepsChannel` | receiver.h:24-30 | a low channel whose bit is never set keeps its time and pulse over any series of interrupts, so falling edges without a recorded rise are ignored |
| `RadioReceiver.PulseWidthIsElapsedTime` | receiver.h:22-30 | a rise at t and a fall at (t + w) mod 2^32 record pulse = w exactly for w < 32768, including across counter wrap-around |
| `RadioReceiver.PulseTrainRecordsLastWidth` | receiver.h:24-30 | for any non-empty train of well-formed pulses, the channel ends low holding the last pulse's width |
| `RadioReceiver.Receiver.HandlePinChange` | receiver.h:21-55 | channel k is updated by ChannelStep from PINB bit k−1 and the single timestamp read at entry, and from nothing else |
| `GyroSensor.Word16` | gyro.h:57-67 | a byte pair decodes to the signed 16-bit value congruent to hi·256 + lo modulo 2^16; it is negative exactly when the high byte's top bit is set |
| `GyroSensor.DecodeEncodeWord` | gyro.h:65 | decoding the big-endian pair of a 16-bit value gives that value back |
| `GyroSensor.EncodeDecodeWord` | gyro.h:65 | encoding a decoded byte pair gives the same bytes back |
| `GyroSensor.AccIsNegatedReading` | gyro.h:57-59 | for every register value, acc.x and acc.y have the opposite sign of their register words, and acc.z has the sign of its own |
| `GyroSensor.DecodeFrameLayout` | gyro.h:57-67 | words 1…7 in register order land as acc = (−1, −2, 3), temp 4, pitch 5, roll 6, yaw 7 |
| `GyroSensor.NegateInt16` | gyro.h:57-58 | unary minus on the 16-bit `int`: the result is congruent to −w modulo 2^16 and stays in range |
| `GyroSensor.AccAsWritten` | gyro.h:57-59 | the acceleration fields as written agree with the model's except at the full-scale reading −32768 |
| `GyroSensor.AccAsWrittenKeepsSignAtFullScale` | gyro.h:57 | for bytes 0x80 0x00, the code as written gives acc.x = −32768, where the intended negation gives +32768 |
| `GyroSensor.DecodeFrame` | gyro.h:56-67 | words w0…w6 land as acc = (−w0, −w1, w2), temp w3, pitch w4, roll w5, yaw w6; every field is in range, with acc.x and acc.y in [−32767, 32768] |
| `GyroSensor.DecodeEncodeFrame` | gyro.h:56-67 | decoding undoes the sensor-side encoding of every representable frame |
| `GyroSensor.EncodeDecodeFrame` | gyro.h:56-67 | every 14-byte sample decodes to a representable frame whose encoding is the same 14 bytes, so decoding loses nothing |
| `GyroSensor.CorrectedRate` | gyro.h:69-73 | uncalibrated, the raw value is kept; calibrated, the result plus the bias is the raw value |
| `GyroSensor.RateSumBounds` | gyro.h:79-85 | if each of the first n samples' rates lies in [lo, hi], their accumulated sum lies between n copies of lo and n copies of hi |
| `GyroSensor.BiasIsMeanOfSamples` | gyro.h:83-95 | for an accumulator that starts at 0, the bias (start + sum)/2000 that CalibrateGyro ensures lies within the samples' range, and equals their common value for a steady sensor |
| `GyroSensor.Gyroscope.ReadGyroValues` | gyro.h:47-74 | acc, temp and rates hold the decoded, remapped sample (acc.x and acc.y negated in `long`; see Findings), with the bias subtracted exactly when calibrated; bias fields, calibrated and address are unchanged |
| `GyroSensor.Gyroscope.AccumulateSample` | gyro.h:82-85 | one loop pass: the sample is read, and while uncalibrated each accumulator grows by that sample's raw rate, and the sample fields hold the raw sample; calibrated and address are unchanged |
| `GyroSensor.Gyroscope.FinishCalibration` | gyro.h:93-96 | each accumulator is divided by 2000 and calibrated becomes true; the sample fields and address are unchanged |
| `GyroSensor.Gyroscope.CalibrateGyro` | gyro.h:76-97 | the loop reads exactly 2000 samples with calibrated false throughout; on return calibrated is true, each bias is (old bias + sum of raw rates) / 2000, and the sample fields hold the last sample's raw values |

## Findings

| source | as written | input that shows it | evidently intended | confidence | as-written member | corrected member |
|---|---|---|---|---|---|---|
| gyro.h:57-58 | `-((Wire.read() << 8) \| Wire.read())` negates in the 16-bit `int` before widening to `long` | acc.x bytes 0x80 0x00 (full-scale negative reading) | acc.x = +32768, the opposite sign of the reading | medium (signed overflow; avr-gcc wraps), not executed | `GyroSensor.AccAsWrittenKeepsSignAtFullScale` | `GyroSensor.AccIsNegatedReading` |

The rest of the model (`DecodeFrame`, `ReadGyroValues`) negates in `long`,
which is the intended behaviour. `AccAsWritten` is the code as written, and
`NegateInt16` is its 16-bit negation.

## Left out

- `enableGyro` and every `Wire` transaction: these are configuration writes to
  an I2C library that is not part of this model. A sample is passed in as its
  14 bytes.
- The busy wait for 14 available bytes, and the order in which the two reads of
  `(Wire.read() << 8) | Wire.read()` are evaluated: the high byte is taken to
  be read first.
- `Serial` output and `delay(4)` in `calibrateGyro`: these are output and
  timing only.
- Interrupt registration, preemption, and the main loop's reads of
  `rcvr`: the handler is modelled as one atomic step.
- RadioReceiver.Receiver.HandlePinChange: takes one PINB snapshot, while the
  source reads the volatile register again for every test. Within one channel
  only one of its two reads can matter, because the `state` test decides which
  branch runs. Different channels could still see different instants.
- Floating-point rounding of the `double` products, sums and the division by
  2000: these are exact `real` arithmetic, and nothing is claimed about
  precision.
- The `max` field of a PID axis: this is the source's 16-bit `int` modelled
  as an unbounded integer, so `-max` for max = −32768 is not modelled; the
  configured bounds are 400.
- The ESC, LED and battery pin constants (util.h:29-35): these are hardware
  wiring.
- EEPROM persistence of the calibration record: only its two addresses
  (`Util.GyroCalibratedLoc`, `Util.GyroStructLoc`) appear in the core, and no
  read or write code is part of this model.
- Sensor bytes are integers 0..255 rather than bit-vectors.
