/**
  Display multiplexing: the scan cursor, the blink flag, which digit or colon
  a scan step draws or blanks, and the pin levels the drawing writes.
 */
module Display {
  import opened Wrappers
  import opened Globals

  // ---- segment bits ----

  function Pow2(n: nat): nat
  {
    if n == 0 then 1 else 2 * Pow2(n - 1)
  }

  /** Bit k of p. */
  function Bit(p: nat, k: nat): bool
    decreases k
  {
    if k == 0 then p % 2 == 1 else Bit(p / 2, k - 1)
  }

  /** The low n bits of p, most significant first. */
  function Bits(p: nat, n: nat): (r: seq<bool>)
    ensures |r| == n
    decreases n
  {
    if n == 0 then [] else Bits(p / 2, n - 1) + [p % 2 == 1]
  }

  /** The number a most-significant-first bit sequence denotes. */
  function Value(bs: seq<bool>): nat
    decreases |bs|
  {
    if bs == [] then 0 else 2 * Value(bs[..|bs| - 1]) + (if bs[|bs| - 1] then 1 else 0)
  }

  lemma {:induction false} ValueOfBits(p: nat, n: nat)
    requires p < Pow2(n)
    ensures Value(Bits(p, n)) == p
    decreases n
  {
    if n > 0 {
      var bs := Bits(p, n);
      assert bs[..n - 1] == Bits(p / 2, n - 1);
      ValueOfBits(p / 2, n - 1);
    }
  }

  lemma {:induction false} BitsIndex(p: nat, n: nat, i: nat)
    requires i < n
    ensures Bits(p, n)[i] == Bit(p, n - 1 - i)
    decreases n
  {
    if i < n - 1 {
      BitsIndex(p / 2, n - 1, i);
    }
  }

  /** The levels displayNumber writes to segments a..g for a pattern:
      segment i is driven by bit 6 - i, and a 7-bit pattern is recovered from them. */
  function SegmentLevels(pattern: nat): (levels: seq<bool>)
    ensures |levels| == 7
    ensures forall i :: 0 <= i < 7 ==> levels[i] == Bit(pattern, 6 - i)
    ensures pattern < 128 ==> Value(levels) == pattern
  {
    SegmentFacts(pattern);
    Bits(pattern, 7)
  }

  lemma SegmentFacts(pattern: nat)
    ensures forall i :: 0 <= i < 7 ==> Bits(pattern, 7)[i] == Bit(pattern, 6 - i)
    ensures pattern < 128 ==> Value(Bits(pattern, 7)) == pattern
  {
    forall i | 0 <= i < 7
      ensures Bits(pattern, 7)[i] == Bit(pattern, 6 - i)
    {
      BitsIndex(pattern, 7, i);
    }
    assert Pow2(7) == 128;
    if pattern < 128 {
      ValueOfBits(pattern, 7);
    }
  }

  /** The segment table has ten patterns, each fitting in seven bits. */
  lemma PatternsFitSevenBits()
    ensures |NumberPatterns| == 10
    ensures forall d :: 0 <= d < 10 ==> NumberPatterns[d] < 128
  {
  }

  /** Digit 8 lights every segment. */
  lemma EightLightsAllSegments()
    ensures SegmentLevels(NumberPatterns[8]) == [true, true, true, true, true, true, true]
  {
  }

  /** Digit 1 lights only segments b and c. */
  lemma OneLightsSegmentsBC()
    ensures SegmentLevels(NumberPatterns[1]) == [false, true, true, false, false, false, false]
  {
  }

  /** No two digits light the same segments. */
  lemma DigitsDistinguishable(d: nat, e: nat)
    requires d < 10 && e < 10 && d != e
    ensures SegmentLevels(NumberPatterns[d]) != SegmentLevels(NumberPatterns[e])
  {
  }

  /** The segment levels displayNumber writes for a digit. */
  function DisplayNumber(num: nat): (levels: seq<bool>)
    requires num < 10
    ensures |levels| == 7
    ensures forall i :: 0 <= i < 7 ==> levels[i] == Bit(NumberPatterns[num], 6 - i)
  {
    SegmentLevels(NumberPatterns[num])
  }

  /** Which digit positions are enabled after displayDigit selects one. */
  function DigitSelect(position: nat): (enabled: seq<bool>)
    requires position < 4
    ensures |enabled| == 4
    ensures forall j :: 0 <= j < 4 ==> (enabled[j] <==> j == position)
  {
    seq(4, j => j == position)
  }

  // ---- what one scan step draws ----

  /** The decision of one scan step: blank the segments, draw a digit at a
      position, draw the colon, or draw nothing (a position outside 0-4). */
  datatype Frame = Blank | Digit(value: nat, position: nat) | Colon | Idle

  /** The pin levels a frame writes. A field that is None is not written, as
      clearing the segments leaves the digit and colon pins as they were. */
  datatype Pins = Pins(segments: seq<bool>, digitsEnabled: Option<seq<bool>>, colonOn: Option<bool>)

  const AllOff: seq<bool> := [false, false, false, false, false, false, false]

  function Drive(f: Frame): (p: Option<Pins>)
    requires f.Digit? ==> f.value < 10 && f.position < 4
    ensures p.None? <==> f == Idle
    ensures p.Some? ==> |p.value.segments| == 7
    ensures f == Blank ==> p == Some(Pins(AllOff, None, None))
    ensures f.Digit? ==>
      && p.value.colonOn == Some(false)
      && (forall i :: 0 <= i < 7 ==> p.value.segments[i] == Bit(NumberPatterns[f.value], 6 - i))
      && p.value.digitsEnabled.Some? && |p.value.digitsEnabled.value| == 4
      && (forall j :: 0 <= j < 4 ==> (p.value.digitsEnabled.value[j] <==> j == f.position))
    ensures f == Colon ==>
      && p.value.segments == AllOff && p.value.colonOn == Some(true)
      && p.value.digitsEnabled.Some? && |p.value.digitsEnabled.value| == 4
      && (forall j :: 0 <= j < 4 ==> (p.value.digitsEnabled.value[j] <==> j == 1))
  {
    match f
    case Blank => Some(Pins(AllOff, None, None))
    case Digit(v, pos) => Some(Pins(DisplayNumber(v), Some(DigitSelect(pos)), Some(false)))
    case Colon => Some(Pins(AllOff, Some(DigitSelect(1)), Some(true)))
    case Idle => None
  }

  /** The minutes on the display: the running clock while showing the time or
      the triggered alarm, the alarm time while setting it. */
  function ShownMinutes(m: Machine): nat
  {
    if m.mode == DisplayTime || m.mode == AlarmTriggered then m.clock.minutes else m.alarm.minutes
  }

  function ShownSeconds(m: Machine): nat
  {
    if m.mode == DisplayTime || m.mode == AlarmTriggered then m.clock.seconds else m.alarm.seconds
  }

  /** The blanking rule: the field being set, or the colon of a triggered
      alarm, is dark during the off half of the blink. */
  predicate BlankedAt(mode: Mode, position: nat, blink: bool)
  {
    && !blink
    && ((position <= 1 && mode == SetAlarmMinute)
        || (2 <= position <= 3 && mode == SetAlarmSecond)
        || (position == 4 && mode == AlarmTriggered))
  }

  /** What the scan step at the machine's position draws, with blink flag `blink`. */
  function Render(m: Machine, blink: bool): (f: Frame)
    ensures f == Idle <==> m.scan.position >= ScanPositions
    ensures f == Blank <==> BlankedAt(m.mode, m.scan.position, blink)
    ensures f == Colon <==> m.scan.position == 4 && !BlankedAt(m.mode, 4, blink)
    ensures f.Digit? ==> f.position == m.scan.position < 4
    ensures f.Digit? && InRange(m) ==> f.value < 10
  {
    var minuteTens := ShownMinutes(m) / 10;
    var minuteUnits := ShownMinutes(m) % 10;
    var secondTens := ShownSeconds(m) / 10;
    var secondUnits := ShownSeconds(m) % 10;
    match m.scan.position
    case 0 => if m.mode == SetAlarmMinute && !blink then Blank else Digit(minuteTens, 0)
    case 1 => if m.mode == SetAlarmMinute && !blink then Blank else Digit(minuteUnits, 1)
    case 2 => if m.mode == SetAlarmSecond && !blink then Blank else Digit(secondTens, 2)
    case 3 => if m.mode == SetAlarmSecond && !blink then Blank else Digit(secondUnits, 3)
    case 4 => if m.mode == AlarmTriggered && !blink then Blank else Colon
    case _ => Idle
  }

  function RenderAt(m: Machine, position: nat, blink: bool): Frame
  {
    Render(m.(scan := m.scan.(position := position)), blink)
  }

  /** Nothing is ever blanked while showing the time, and nothing while the blink flag is on. */
  lemma NeverBlankedWhenShown(m: Machine, blink: bool)
    requires m.mode == DisplayTime || blink
    ensures Render(m, blink) != Blank
  {
  }

  /** The two minute digits put back together give the shown minutes, and the
      two second digits the shown seconds; the units digit is always a table index. */
  lemma DigitsReassemble(m: Machine, blink: bool)
    ensures !BlankedAt(m.mode, 0, blink) ==>
      && RenderAt(m, 0, blink).Digit? && RenderAt(m, 1, blink).Digit?
      && RenderAt(m, 0, blink).value * 10 + RenderAt(m, 1, blink).value == ShownMinutes(m)
      && RenderAt(m, 1, blink).value < 10
    ensures !BlankedAt(m.mode, 2, blink) ==>
      && RenderAt(m, 2, blink).Digit? && RenderAt(m, 3, blink).Digit?
      && RenderAt(m, 2, blink).value * 10 + RenderAt(m, 3, blink).value == ShownSeconds(m)
      && RenderAt(m, 3, blink).value < 10
  {
  }

  // ---- the scan step ----

  /** The cursor after a scan step, as the firmware writes it. */
  function NextPosition(p: nat): (q: nat)
    ensures p < ScanPositions ==> q == (p + 1) % ScanPositions
    ensures q < ScanPositions
  {
    if p + 1 >= ScanPositions then 0 else p + 1
  }

  datatype ScanStep = ScanStep(scan: Scan, frame: Option<Frame>)

  /** multiplexDisplay: every 3 ms, toggle the blink flag if 500 ms have
      passed, draw the current position with the new flag, and advance the cursor. */
  function MultiplexDisplay(m: Machine, now: nat): (r: ScanStep)
    requires m.scan.lastScan <= now && m.scan.lastBlink <= now
    ensures now - m.scan.lastScan < ScanInterval ==> r == ScanStep(m.scan, None)
    ensures now - m.scan.lastScan >= ScanInterval ==>
      && r.scan.position == NextPosition(m.scan.position)
      && r.scan.lastScan == now
      && (r.scan.blink != m.scan.blink <==> now - m.scan.lastBlink >= BlinkInterval)
      && r.scan.lastBlink == (if r.scan.blink != m.scan.blink then now else m.scan.lastBlink)
      && r.frame == Some(Render(m, r.scan.blink))
    ensures m.scan.position < ScanPositions ==> r.scan.position < ScanPositions
    ensures r.scan.lastScan <= now && r.scan.lastBlink <= now
  {
    if now - m.scan.lastScan >= ScanInterval then
      var toggle := now - m.scan.lastBlink >= BlinkInterval;
      var blink := if toggle then !m.scan.blink else m.scan.blink;
      var lastBlink := if toggle then now else m.scan.lastBlink;
      var frame := Render(m, blink);
      ScanStep(Scan(NextPosition(m.scan.position), now, blink, lastBlink), Some(frame))
    else
      ScanStep(m.scan, None)
  }
}
