/**
  The shared state of the alarm clock: the four UI states, the timing constants,
  the digit segment table, one record per button and per combo hold tracker, the
  whole-machine record with its power-on value, and the invariant every loop
  iteration keeps.
 */
module Globals {
  import opened Wrappers

  /** The level of one button. The firmware stores it in two encodings with
      opposite conventions: see DebouncedCode and RawCode. */
  datatype Contact = Pressed | Released

  /** The four states of the UI state machine. */
  datatype Mode = DisplayTime | SetAlarmMinute | SetAlarmSecond | AlarmTriggered

  const NumButtons: nat := 3
  /** A raw reading strictly below this intensity means "pressed". */
  const PressThreshold: int := 500
  const DebounceDelay: nat := 50
  const LongPressDelay: nat := 1000
  const BlinkInterval: nat := 500
  const TickInterval: nat := 1000
  const ScanInterval: nat := 3
  /** Scan positions: minute tens, minute units, second tens, second units, colon. */
  const ScanPositions: nat := 5
  /** Minutes, seconds and both alarm fields count modulo this. */
  const FieldModulus: nat := 60

  /** Segment bitmaps of the digits 0-9: bit 6 is segment a, bit 0 is segment g. */
  const NumberPatterns: seq<nat> := [0x7E, 0x30, 0x6D, 0x79, 0x33, 0x5B, 0x5F, 0x70, 0x7F, 0x7B]

  /** The encoding of a debounced level: 1 = pressed, 0 = released. */
  function DebouncedCode(c: Contact): (code: int)
    ensures code == 1 <==> c == Pressed
    ensures code == 0 <==> c == Released
  {
    match c
    case Pressed => 1
    case Released => 0
  }

  /** The encoding of a raw sample: 0 = pressed, 1 = released. */
  function RawCode(c: Contact): (code: int)
    ensures code == 0 <==> c == Pressed
    ensures code == 1 <==> c == Released
  {
    match c
    case Pressed => 0
    case Released => 1
  }

  /** The two encodings are each other's complement. */
  lemma CodesAreOpposite(c: Contact)
    ensures RawCode(c) == 1 - DebouncedCode(c)
  {
  }

  /** One button slot: the debounced level, the last raw sample (tracked even
      when it is not committed), the time of the last committed change, and
      whether the current press has already produced its effect. */
  datatype Button = Button(debounced: Contact, lastRaw: Contact, changedAt: nat, processed: bool)

  /** A combo hold tracker: when its buttons became simultaneously pressed, if
      they are, and whether this continuous hold has already fired. */
  datatype Combo = Combo(start: Option<nat>, fired: bool)

  datatype Clock = Clock(minutes: nat, seconds: nat, lastTick: nat)

  datatype Alarm = Alarm(minutes: nat, seconds: nat)

  /** Display multiplexing: the next position to draw, when it last advanced,
      the blink flag (true = shown) and when it last toggled. */
  datatype Scan = Scan(position: nat, lastScan: nat, blink: bool, lastBlink: nat)

  datatype Machine = Machine(
    buttons: seq<Button>,
    combo23: Combo,
    combo123: Combo,
    clock: Clock,
    alarm: Alarm,
    mode: Mode,
    scan: Scan)

  /** Buttons 2 and 3 are both debounced-pressed. */
  predicate Combo23Condition(bs: seq<Button>)
    requires |bs| == NumButtons
  {
    bs[1].debounced == Pressed && bs[2].debounced == Pressed
  }

  /** All three buttons are debounced-pressed. */
  predicate Combo123Condition(bs: seq<Button>)
    requires |bs| == NumButtons
  {
    bs[0].debounced == Pressed && Combo23Condition(bs)
  }

  /** Every stored timestamp of the button layer is at most t. */
  predicate StampsBefore(m: Machine, t: nat)
  {
    && (forall i :: 0 <= i < |m.buttons| ==> m.buttons[i].changedAt <= t)
    && (m.combo23.start.Some? ==> m.combo23.start.value <= t)
    && (m.combo123.start.Some? ==> m.combo123.start.value <= t)
  }

  /** A button was last changed no later than t, and a press can only have
      been committed after the first debounce window. */
  predicate ButtonValid(b: Button, t: nat)
  {
    b.changedAt <= t && (b.debounced == Pressed ==> b.changedAt > DebounceDelay)
  }

  /** A tracker holds a start time exactly while its condition holds, fires
      only while it holds, and started after the first debounce window. */
  predicate ComboValid(c: Combo, cond: bool, t: nat)
  {
    && (c.start.Some? <==> cond)
    && (c.fired ==> cond)
    && (c.start.Some? ==> DebounceDelay < c.start.value <= t)
  }

  predicate ButtonsValid(m: Machine, t: nat)
  {
    && |m.buttons| == NumButtons
    && (forall i :: 0 <= i < NumButtons ==> ButtonValid(m.buttons[i], t))
    && ComboValid(m.combo23, Combo23Condition(m.buttons), t)
    && ComboValid(m.combo123, Combo123Condition(m.buttons), t)
  }

  /** The documented ranges: clock and alarm fields in [0,59], scan position in [0,4]. */
  predicate InRange(m: Machine)
  {
    && m.clock.minutes < FieldModulus && m.clock.seconds < FieldModulus
    && m.alarm.minutes < FieldModulus && m.alarm.seconds < FieldModulus
    && m.scan.position < ScanPositions
  }

  predicate TimersBefore(m: Machine, t: nat)
  {
    m.clock.lastTick <= t && m.scan.lastScan <= t && m.scan.lastBlink <= t
  }

  /** The invariant of the loop, with t the latest clock sample seen. */
  predicate Valid(m: Machine, t: nat)
  {
    ButtonsValid(m, t) && InRange(m) && TimersBefore(m, t)
  }

  lemma ButtonsValidLater(m: Machine, t: nat, t': nat)
    requires ButtonsValid(m, t) && t <= t'
    ensures ButtonsValid(m, t')
  {
  }

  /** The power-on state. */
  function Init(): (m: Machine)
    ensures Valid(m, 0)
    ensures m.mode == DisplayTime
    ensures m.clock == Clock(14, 23, 0) && m.alarm == Alarm(8, 0)
    ensures |m.buttons| == NumButtons
    ensures forall i :: 0 <= i < NumButtons ==> m.buttons[i] == Button(Released, Released, 0, false)
    ensures m.combo23 == Combo(None, false) && m.combo123 == Combo(None, false)
    ensures m.scan == Scan(0, 0, false, 0)
  {
    var b := Button(Released, Released, 0, false);
    Machine([b, b, b], Combo(None, false), Combo(None, false),
            Clock(14, 23, 0), Alarm(8, 0), DisplayTime, Scan(0, 0, false, 0))
  }

  /** A sequence of clock samples that never goes backwards, starting at or after `from`. */
  predicate Chronological(from: nat, times: seq<nat>)
    decreases |times|
  {
    times == [] || (from <= times[0] && Chronological(times[0], times[1..]))
  }

  lemma ChronologicalFromEarlier(from': nat, from: nat, times: seq<nat>)
    requires from' <= from && Chronological(from, times)
    ensures Chronological(from', times)
  {
  }

  /** Each time is at least d after the one before it, the first at least d after `from`. */
  predicate SpacedBy(from: nat, times: seq<nat>, d: nat)
    decreases |times|
  {
    times == [] || (times[0] - from >= d && SpacedBy(times[0], times[1..], d))
  }
}
