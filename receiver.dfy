/** The four-channel radio pulse-width decoder of receiver.h: the body of
    the pin-change interrupt handler `ISR(PCINT0_vect)`.

    `struct ReceiverChannel` is nested by value in `struct Receiver`, so a
    channel is a datatype and the receiver a class whose handler reassigns
    its four channel fields. On the AVR target `unsigned long` is 32 bits and
    `int` is 16 bits; both widths are written out. */
module RadioReceiver {

  const TwoTo32: int := 0x1_0000_0000
  const TwoTo16: int := 0x1_0000

  /** An `unsigned long` value. */
  type U32 = x: int | 0 <= x < TwoTo32

  /** `a - b` on `unsigned long`: the difference modulo 2^32. */
  function SubU32(a: U32, b: U32): (r: U32)
    ensures (b + r) % TwoTo32 == a
    ensures b <= a ==> r == a - b
  {
    (a - b) % TwoTo32
  }

  /** Conversion of an `unsigned long` to the 16-bit `int`: the low 16 bits
      read as two's complement. */
  function ToInt16(x: U32): (r: int)
    ensures -0x8000 <= r < 0x8000
    ensures (x - r) % TwoTo16 == 0
    ensures x < 0x8000 ==> r == x
  {
    var w := x % TwoTo16;
    if w >= 0x8000 then w - TwoTo16 else w
  }

  /** One radio channel: the time of the last rising edge, the width of the
      last complete pulse and whether the input is currently high. */
  datatype ReceiverChannel = ReceiverChannel(time: U32, pulse: int, state: bool)

  /** What the handler does to one channel, given that channel's input bit
      and the timestamp read at handler entry. */
  function ChannelStep(c: ReceiverChannel, high: bool, now: U32): (r: ReceiverChannel)
    ensures r.state == high
    ensures !c.state && high ==> r.time == now && r.pulse == c.pulse
    ensures c.state && !high ==> r.time == c.time && r.pulse == ToInt16(SubU32(now, c.time))
    ensures c.state == high ==> r == c
    ensures r.pulse != c.pulse ==> c.state && !high
  {
    if !c.state && high then
      c.(state := true, time := now)
    else if c.state && !high then
      c.(state := false, pulse := ToInt16(SubU32(now, c.time)))
    else
      c
  }

  /** One handler invocation as seen by a single channel. */
  datatype Snapshot = Snapshot(high: bool, now: U32)

  /** The channel after a series of handler invocations. */
  function Replay(c: ReceiverChannel, snaps: seq<Snapshot>): ReceiverChannel
    decreases |snaps|
  {
    if snaps == [] then c else Replay(ChannelStep(c, snaps[0].high, snaps[0].now), snaps[1..])
  }

  lemma {:induction false} ReplayAppend(c: ReceiverChannel, s: seq<Snapshot>, t: seq<Snapshot>)
    ensures Replay(c, s + t) == Replay(Replay(c, s), t)
    decreases |s|
  {
    if s == [] {
      assert s + t == t;
    } else {
      assert (s + t)[1..] == s[1..] + t;
      ReplayAppend(ChannelStep(c, s[0].high, s[0].now), s[1..], t);
    }
  }

  /** A channel that is low and never sees its bit set keeps its recorded
      time and pulse: falling edges with no rise before them are ignored. */
  lemma {:induction false} NoRiseKeepsChannel(c: ReceiverChannel, snaps: seq<Snapshot>)
    requires !c.state
    requires forall k :: 0 <= k < |snaps| ==> !snaps[k].high
    ensures Replay(c, snaps) == c
    decreases |snaps|
  {
    if snaps != [] {
      NoRiseKeepsChannel(c, snaps[1..]);
    }
  }

  /** A pulse whose rising edge is seen at `rise` and whose falling edge is
      seen `width` microseconds later (with the microsecond counter possibly
      wrapping past 2^32 in between) is recorded with its exact width, as
      long as that width fits the 16-bit `pulse` field. */
  lemma PulseWidthIsElapsedTime(c: ReceiverChannel, rise: U32, width: nat)
    requires !c.state
    requires width < 0x8000
    ensures var fall := (rise + width) % TwoTo32;
            var r := Replay(c, [Snapshot(true, rise), Snapshot(false, fall)]);
            r.pulse == width && !r.state && r.time == rise
  {
    var fall := (rise + width) % TwoTo32;
    var s := [Snapshot(true, rise), Snapshot(false, fall)];
    var c1 := ChannelStep(c, true, rise);
    var c2 := ChannelStep(c1, false, fall);
    assert s[1..][1..] == [];
    assert Replay(c, s) == Replay(c1, s[1..]) == Replay(c2, []) == c2;
    if rise + width < TwoTo32 {
      assert fall - rise == width;
    } else {
      assert fall - rise == width - TwoTo32;
      assert (width - TwoTo32) % TwoTo32 == width;
    }
    assert SubU32(fall, rise) == width;
    assert c2.pulse == ToInt16(width) == width;
  }

  /** One well-formed pulse: a rising edge at `rise`, then a falling edge
      `width` microseconds later. */
  datatype Pulse = Pulse(rise: U32, width: nat)

  function Edges(pulses: seq<Pulse>): seq<Snapshot>
  {
    if pulses == [] then []
    else [Snapshot(true, pulses[0].rise), Snapshot(false, (pulses[0].rise + pulses[0].width) % TwoTo32)]
         + Edges(pulses[1..])
  }

  /** For any train of well-formed pulses on a channel, the recorded pulse
      is the width of the last one and the channel ends low. */
  lemma {:induction false} PulseTrainRecordsLastWidth(c: ReceiverChannel, pulses: seq<Pulse>)
    requires !c.state
    requires |pulses| > 0
    requires forall k :: 0 <= k < |pulses| ==> pulses[k].width < 0x8000
    ensures var r := Replay(c, Edges(pulses));
            r.pulse == pulses[|pulses| - 1].width && !r.state
    decreases |pulses|
  {
    var first := [Snapshot(true, pulses[0].rise),
                  Snapshot(false, (pulses[0].rise + pulses[0].width) % TwoTo32)];
    assert Edges(pulses) == first + Edges(pulses[1..]);
    ReplayAppend(c, first, Edges(pulses[1..]));
    PulseWidthIsElapsedTime(c, pulses[0].rise, pulses[0].width);
    if |pulses| > 1 {
      PulseTrainRecordsLastWidth(Replay(c, first), pulses[1..]);
    } else {
      assert Edges(pulses[1..]) == [];
    }
  }

  /** The global `rcvr` of the source. */
  class Receiver {
    var ch1: ReceiverChannel
    var ch2: ReceiverChannel
    var ch3: ReceiverChannel
    var ch4: ReceiverChannel

    /** The body of `ISR(PCINT0_vect)`: `now` is the `micros()` value read
        once at entry and `pinb` the PINB register; channel k follows bit
        k - 1. Each channel is updated from its own bit and fields only. */
    method HandlePinChange(pinb: bv8, now: U32)
      modifies this
      ensures ch1 == ChannelStep(old(ch1), pinb & 0x01 != 0, now)
      ensures ch2 == ChannelStep(old(ch2), pinb & 0x02 != 0, now)
      ensures ch3 == ChannelStep(old(ch3), pinb & 0x04 != 0, now)
      ensures ch4 == ChannelStep(old(ch4), pinb & 0x08 != 0, now)
    {
      var currTime := now;

      if !ch1.state && (pinb & 0x01 != 0) {
        ch1 := ch1.(state := true, time := currTime);
      } else if ch1.state && !(pinb & 0x01 != 0) {
        ch1 := ch1.(state := false, pulse := ToInt16(SubU32(currTime, ch1.time)));
      }
      assert ch1 == ChannelStep(old(ch1), pinb & 0x01 != 0, now);

      if !ch2.state && (pinb & 0x02 != 0) {
        ch2 := ch2.(state := true, time := currTime);
      } else if ch2.state && !(pinb & 0x02 != 0) {
        ch2 := ch2.(state := false, pulse := ToInt16(SubU32(currTime, ch2.time)));
      }
      assert ch2 == ChannelStep(old(ch2), pinb & 0x02 != 0, now);

      if !ch3.state && (pinb & 0x04 != 0) {
        ch3 := ch3.(state := true, time := currTime);
      } else if ch3.state && !(pinb & 0x04 != 0) {
        ch3 := ch3.(state := false, pulse := ToInt16(SubU32(currTime, ch3.time)));
      }
      assert ch3 == ChannelStep(old(ch3), pinb & 0x04 != 0, now);

      if !ch4.state && (pinb & 0x08 != 0) {
        ch4 := ch4.(state := true, time := currTime);
      } else if ch4.state && !(pinb & 0x08 != 0) {
        ch4 := ch4.(state := false, pulse := ToInt16(SubU32(currTime, ch4.time)));
      }
      assert ch4 == ChannelStep(old(ch4), pinb & 0x08 != 0, now);
    }
  }
}
