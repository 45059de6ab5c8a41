/** The CAN wire format: BCD output bytes, state frames, mood frames. */
module Protocol {
  import opened Wrappers

  type Byte = b: int | 0 <= b < 256

  const CAN_ID_TX_STATE := 0x800102
  const CAN_ID_STATE_DUMP := 0x800101
  const CAN_ID_RX_STATE := 0x100FF00
  const OUTPUTS_PER_MODULE := 12
  const MOOD_ADDRESS_BYTE := 0x53

  /** A parsed state update; `output` is 1-indexed. */
  datatype StateUpdate = StateUpdate(letter: string, output: int, state: int)

  datatype Frame = Frame(canId: int, payload: seq<Byte>)

  /** `NoFrame` is the source's `None`; `BcdRangeError` is the ValueError that `to_bcd` raises. */
  datatype BuildResult = Built(frame: Frame) | NoFrame | BcdRangeError

  /** What a BCD byte means: high nibble tens, low nibble units. Total on all 256 bytes. */
  function FromBcd(b: Byte): int {
    b / 16 * 10 + b % 16
  }

  function ToBcd(value: int): (r: Option<Byte>)
    ensures r.Some? <==> 0 <= value <= 99
    ensures r.Some? ==> FromBcd(r.value) == value && r.value % 16 <= 9 && r.value / 16 <= 9
  {
    if 0 <= value <= 99 then Some(value / 10 * 16 + value % 10) else None
  }

  predicate IsAscii(c: char) {
    c as int < 128
  }

  function ParseStateFrame(data: seq<Byte>): Option<StateUpdate> {
    if |data| < 4 || data[1] >= 128 then None
    else Some(StateUpdate([data[1] as char], FromBcd(data[2]) + 1, data[3]))
  }

  function BuildStateFrame(letter: string, output: int, state: int): BuildResult {
    if |letter| != 1 || !IsAscii(letter[0]) then NoFrame
    else
      var outputByte := ToBcd(output - 1);
      if outputByte.None? then BcdRangeError
      else if !(0 <= state <= 255) then NoFrame
      else Built(Frame(CAN_ID_TX_STATE, [0, letter[0] as int, outputByte.value, state]))
  }

  function BuildMoodFrame(moodNumber: int): BuildResult {
    if !(0 <= moodNumber <= 99) then NoFrame
    else Built(Frame(CAN_ID_TX_STATE, [0, MOOD_ADDRESS_BYTE, moodNumber, 1]))
  }

  /** A mood can be sent exactly for a number in 0..99, which goes out raw. */
  lemma MoodEncodable(moodNumber: int)
    ensures BuildMoodFrame(moodNumber).Built? <==> 0 <= moodNumber < 100
    ensures BuildMoodFrame(moodNumber).Built? ==>
              BuildMoodFrame(moodNumber).frame == Frame(0x800102, [0x00, 'S' as int, moodNumber, 0x01])
  {
  }

  /** A frame written out: full brightness on output 11 of module A. */
  lemma FrameOnTheWire()
    ensures BuildStateFrame("A", 11, 144) == Built(Frame(0x800102, [0x00, 0x41, 0x10, 0x90]))
  {
    assert "A"[0] as int == 0x41;
    assert ToBcd(10) == Some(0x10);
  }

  predicate Addressable(letter: string, output: int) {
    |letter| == 1 && IsAscii(letter[0]) && 1 <= output <= 100
  }

  /** A write is encodable exactly for an ASCII letter, an output in 1..100 and a byte state, and
      parsing what was built gives back the three arguments. */
  lemma ParseInvertsBuild(letter: string, output: int, state: int)
    ensures BuildStateFrame(letter, output, state).Built? <==> Addressable(letter, output) && 0 <= state <= 255
    ensures var b := BuildStateFrame(letter, output, state);
            b.Built? ==>
              && b.frame.canId == CAN_ID_TX_STATE
              && ParseStateFrame(b.frame.payload) == Some(StateUpdate(letter, output, state))
    ensures BuildStateFrame(letter, output, state).BcdRangeError?
            <==> |letter| == 1 && IsAscii(letter[0]) && !(1 <= output <= 100)
  {
    var b := BuildStateFrame(letter, output, state);
    if b.Built? {
      assert [letter[0]] == letter;
    }
  }

  /** A byte whose nibbles are both decimal digits. */
  predicate Canonical(b: Byte) {
    b % 16 <= 9 && b / 16 <= 9
  }

  lemma CanonicalBytesAreFixed(b: Byte)
    ensures ToBcd(FromBcd(b)) == Some(b) <==> Canonical(b)
  {
    if Canonical(b) {
      DecimalDigits(b / 16, b % 16);
    }
  }

  lemma DecimalDigits(tens: int, units: int)
    requires 0 <= units <= 9
    ensures (tens * 10 + units) / 10 == tens && (tens * 10 + units) % 10 == units
  {
  }

  /** Re-encoding any parsed update works exactly up to output 100 and keeps the update, also when
      the received output byte was not canonical BCD; the bytes themselves survive iff it was. */
  lemma RebuildThenParse(data: seq<Byte>)
    requires ParseStateFrame(data).Some?
    ensures var u := ParseStateFrame(data).value;
            var b := BuildStateFrame(u.letter, u.output, u.state);
            && (b.Built? <==> u.output <= 100)
            && (b.Built? ==> ParseStateFrame(b.frame.payload) == Some(u))
            && (b.Built? ==> (b.frame.payload[1..4] == data[1..4] <==> Canonical(data[2])))
            && 1 <= u.output <= 166
  {
    var u := ParseStateFrame(data).value;
    ParseInvertsBuild(u.letter, u.output, u.state);
    var b := BuildStateFrame(u.letter, u.output, u.state);
    if b.Built? {
      CanonicalBytesAreFixed(data[2]);
      var p := b.frame.payload;
      assert p[1..4] == [p[1], p[2], p[3]] && data[1..4] == [data[1], data[2], data[3]];
    }
  }

  /** 0x0A and 0x10 name the same output, 11. */
  lemma NonCanonicalAlias()
    ensures ParseStateFrame([0, 65, 0x0A, 7]) == ParseStateFrame([0, 65, 0x10, 7]) == Some(StateUpdate("A", 11, 7))
    ensures !Canonical(0x0A) && Canonical(0x10)
  {
    assert 65 as char == 'A';
  }

  /** Two writes share a frame only when they are the same write. */
  lemma StateFramesInjective(l1: string, o1: int, s1: int, l2: string, o2: int, s2: int)
    requires BuildStateFrame(l1, o1, s1).Built?
    requires BuildStateFrame(l1, o1, s1) == BuildStateFrame(l2, o2, s2)
    ensures l1 == l2 && o1 == o2 && s1 == s2
  {
    ParseInvertsBuild(l1, o1, s1);
    ParseInvertsBuild(l2, o2, s2);
  }

  lemma MoodFramesInjective(m1: int, m2: int)
    requires BuildMoodFrame(m1).Built? && BuildMoodFrame(m1) == BuildMoodFrame(m2)
    ensures m1 == m2
  {
    assert BuildMoodFrame(m1).frame.payload[2] == BuildMoodFrame(m2).frame.payload[2];
  }

  /** A state write is mistaken for a mood exactly when the module letter is S, the value is 1 and
      the BCD output byte is the mood number. */
  lemma MoodCollision(letter: string, output: int, state: int, mood: int)
    requires BuildStateFrame(letter, output, state).Built? && BuildMoodFrame(mood).Built?
    ensures BuildStateFrame(letter, output, state) == BuildMoodFrame(mood)
            <==> letter == "S" && state == 1 && ToBcd(output - 1) == Some(mood)
  {
    var p := BuildStateFrame(letter, output, state).frame.payload;
    var q := BuildMoodFrame(mood).frame.payload;
    assert 'S' as int == MOOD_ADDRESS_BYTE;
    assert letter == [letter[0]];
    assert p == q <==> p[1] == q[1] && p[2] == q[2] && p[3] == q[3];
  }
}

/** Brightness scaling. Python's `round` is modelled on exact rationals, ties to even. */
module Brightness {
  const MAX_CAN_BRIGHTNESS_TX := 144
  const MAX_CAN_BRIGHTNESS_RX := 90
  const BRIGHTNESS_STEP := 16

  function Abs(x: int): nat {
    if x < 0 then -x else x
  }

  /** round(num / den): the nearest integer, the even one of two at equal distance. */
  function Round(num: int, den: int): (r: int)
    requires den > 0
    ensures 2 * Abs(num - r * den) <= den
    ensures 2 * Abs(num - r * den) == den ==> r % 2 == 0
  {
    var q, rem := num / den, num % den;
    assert num - q * den == rem && num - (q + 1) * den == rem - den by { Distribute(q, den); }
    if 2 * rem < den || (2 * rem == den && q % 2 == 0) then q else q + 1
  }

  function CanToHa(canState: int): int {
    var scaled := canState * 255 / MAX_CAN_BRIGHTNESS_RX;
    if scaled < 255 then scaled else 255
  }

  function HaToCan(ha: int): int {
    if ha <= 0 then 0
    else
      var steps := Round(ha * 9, 255);
      (if steps < 1 then 1 else steps) * BRIGHTNESS_STEP
  }

  function CanTxToRx(tx: int): int {
    if tx <= 0 then 0 else Round(tx * MAX_CAN_BRIGHTNESS_RX, MAX_CAN_BRIGHTNESS_TX)
  }

  /** The largest whole brightness that is not above the exact scale, 255 at most. */
  lemma CanToHaIsFloor(canState: int)
    ensures CanToHa(canState) <= 255 && CanToHa(canState) * 90 <= canState * 255
    ensures CanToHa(canState) < 255 ==> canState * 255 < (CanToHa(canState) + 1) * 90
  {
  }

  /** The whole trip: HA brightness to the bus, its echo, and back to HA. */
  function RoundTrip(ha: int): int {
    CanToHa(CanTxToRx(HaToCan(ha)))
  }

  /** `h * 9 / 255` is never half-way between two integers: 18h is even, 255(2r+1) is odd. */
  lemma NeverATie(h: int)
    ensures 2 * Abs(h * 9 - Round(h * 9, 255) * 255) < 255
  {
    assert (2 * Abs(h * 9 - Round(h * 9, 255) * 255)) % 2 == 0;
  }

  lemma Distribute(q: int, den: int)
    ensures (q + 1) * den == q * den + den
  {
  }

  /** All three scales are monotone over every integer. */
  lemma ScalesMonotone(a: int, b: int)
    requires a <= b
    ensures HaToCan(a) <= HaToCan(b)
    ensures CanTxToRx(a) <= CanTxToRx(b)
    ensures CanToHa(a) <= CanToHa(b)
  {
    RoundMonotone(a * 9, b * 9, 255);
    RoundMonotone(a * MAX_CAN_BRIGHTNESS_RX, b * MAX_CAN_BRIGHTNESS_RX, MAX_CAN_BRIGHTNESS_TX);
    RoundSign(b * 9, 255);
    RoundSign(b * MAX_CAN_BRIGHTNESS_RX, MAX_CAN_BRIGHTNESS_TX);
    FloorMonotone(a * 255, b * 255, MAX_CAN_BRIGHTNESS_RX);
  }

  lemma RoundMonotone(a: int, b: int, den: int)
    requires a <= b && (den == 255 || den == 144)
    ensures Round(a, den) <= Round(b, den)
  {
    FloorMonotone(a, b, den);
  }

  lemma RoundSign(num: int, den: int)
    requires den > 0
    ensures num >= 0 ==> Round(num, den) >= 0
  {
  }

  lemma FloorMonotone(a: int, b: int, den: int)
    requires a <= b && (den == 255 || den == 144 || den == 90)
    ensures a / den < b / den || (a / den == b / den && a % den <= b % den)
  {
    if den == 255 {
      assert a / 255 <= b / 255;
    } else if den == 144 {
      assert a / 144 <= b / 144;
    } else {
      assert a / 90 <= b / 90;
    }
  }

  /** A write is always a whole number of steps, and its echo is ten per step: scaling to the RX
      range never rounds. A zero write means "off" and nothing else does. */
  lemma WritesAreWholeSteps(h: int) returns (steps: nat)
    ensures HaToCan(h) == steps * BRIGHTNESS_STEP && CanTxToRx(HaToCan(h)) == steps * 10
    ensures steps == 0 <==> h <= 0
    ensures h <= 255 ==> steps <= 9
    ensures 0 <= h <= 255 ==> Abs(h * 9 - steps * 255) <= 127 || (steps == 1 && 0 < h)
  {
    steps := HaToCan(h) / BRIGHTNESS_STEP;
    if h > 0 {
      NeverATie(h);
      assert HaToCan(h) % BRIGHTNESS_STEP == 0;
      StepEcho(steps);
    }
  }

  lemma StepEcho(steps: nat)
    ensures CanTxToRx(steps * BRIGHTNESS_STEP) == steps * 10
  {
    if steps > 0 {
      assert steps * BRIGHTNESS_STEP * MAX_CAN_BRIGHTNESS_RX == steps * 10 * MAX_CAN_BRIGHTNESS_TX;
    }
  }

  /** Every one of the ten valid steps survives the trip through the RX and HA scales. */
  lemma StepsRoundTrip(steps: nat)
    requires steps <= 9
    ensures HaToCan(CanToHa(CanTxToRx(steps * BRIGHTNESS_STEP))) == steps * BRIGHTNESS_STEP
    ensures RoundTrip(CanToHa(steps * 10)) == CanToHa(steps * 10)
  {
    StepEcho(steps);
    var h := CanToHa(steps * 10);
    assert h == steps * 85 / 3;
    if steps > 0 {
      assert 3 * h <= steps * 85 < 3 * h + 3;
      assert Abs(h * 9 - steps * 255) <= 8;
      var r := Round(h * 9, 255);
      assert r == steps;
    }
  }

  /** How far the slider can move on its own: at most 14, exactly outside 1..13 (and outside the
      0..255 range once clamping alone costs more than 14). */
  lemma RoundTripError(h: int)
    ensures Abs(RoundTrip(h) - h) <= 14 <==> -14 <= h <= 0 || 14 <= h <= 269
  {
    var steps := WritesAreWholeSteps(h);
    assert steps * 10 * 255 / 90 == steps * 85 / 3;
    if h > 255 {
      ScalesMonotone(255, h);
      assert HaToCan(255) == 144;
      assert steps >= 9;
      assert RoundTrip(h) == 255;
    }
  }
}
