/**
  The button layer of one loop iteration, before the state machine runs:
  thresholding, debouncing, the button-1 long press and the two combo hold
  trackers with their fire-once latches.
 */
module Buttons {
  import opened Wrappers
  import opened Globals

  /** Thresholds one analog intensity into a raw sample. */
  function Classify(intensity: int): (c: Contact)
    ensures c == Pressed <==> intensity < PressThreshold
  {
    if intensity < PressThreshold then Pressed else Released
  }

  /** A sample is committed when it differs from the previous raw sample and
      the debounce window since the last commit (not since the last raw
      change) has passed. */
  predicate Commits(b: Button, sample: Contact, now: nat)
  {
    sample != b.lastRaw && now - b.changedAt > DebounceDelay
  }

  /** Debounces one button against one raw sample. */
  function Debounce(b: Button, sample: Contact, now: nat): (r: Button)
    requires b.changedAt <= now
    ensures r.lastRaw == sample
    ensures Commits(b, sample, now) ==> r.debounced == sample && r.changedAt == now
    ensures !Commits(b, sample, now) ==>
      r.debounced == b.debounced && r.changedAt == b.changedAt && r.processed == b.processed
    ensures r.processed != b.processed ==> Commits(b, sample, now) && sample == Pressed && !r.processed
    ensures Commits(b, sample, now) && sample == Pressed ==> !r.processed
    ensures r.changedAt <= now
    ensures ButtonValid(b, now) ==> ButtonValid(r, now)
  {
    if sample != b.lastRaw then
      var committed :=
        if now - b.changedAt > DebounceDelay then
          if sample == Pressed then b.(debounced := Pressed, processed := false, changedAt := now)
          else b.(debounced := Released, changedAt := now)
        else b;
      committed.(lastRaw := sample)
    else
      b
  }

  /** Debounces every button against its own reading, all at one time sample. */
  function DebounceAll(bs: seq<Button>, readings: seq<int>, now: nat): (r: seq<Button>)
    requires |readings| == |bs|
    requires forall i :: 0 <= i < |bs| ==> bs[i].changedAt <= now
    ensures |r| == |bs|
    ensures forall i :: 0 <= i < |bs| ==> r[i] == Debounce(bs[i], Classify(readings[i]), now)
  {
    seq(|bs|, i requires 0 <= i < |bs| => Debounce(bs[i], Classify(readings[i]), now))
  }

  /** A debounced button has been pressed for longer than the long-press delay. */
  predicate LongHeld(b: Button, now: nat)
  {
    b.debounced == Pressed && now - b.changedAt > LongPressDelay
  }

  datatype ComboStep = ComboStep(tracker: Combo, held: bool)

  /** One evaluation of a combo hold tracker against its condition, including
      the latch update made once the hold has been reported. */
  function TrackCombo(c: Combo, cond: bool, now: nat): (r: ComboStep)
    requires c.start.Some? ==> c.start.value <= now
    ensures !cond ==> r == ComboStep(Combo(None, false), false)
    ensures cond ==> r.tracker.start.Some? && r.tracker.start.value <= now
    ensures cond && c.start.Some? ==> r.tracker.start == c.start
    ensures cond && c.start.None? ==> r.tracker.start == Some(now)
    ensures r.held <==> cond && !c.fired && c.start.Some? && now - c.start.value > LongPressDelay
    ensures r.tracker.fired <==> cond && (c.fired || r.held)
  {
    if cond then
      var start := if c.start.None? then now else c.start.value;
      var held := now - start > LongPressDelay && !c.fired;
      ComboStep(Combo(Some(start), c.fired || held), held)
    else
      ComboStep(Combo(None, false), false)
  }

  /** The three hold signals handed to the state machine. */
  datatype Holds = Holds(button1: bool, combo23: bool, combo123: bool)

  datatype Scanned = Scanned(machine: Machine, holds: Holds)

  /** Everything checkButtons does before it calls the state machine. */
  function ScanButtons(m: Machine, readings: seq<int>, now: nat): (r: Scanned)
    requires |m.buttons| == NumButtons && |readings| == NumButtons
    requires StampsBefore(m, now)
    ensures |r.machine.buttons| == NumButtons
    ensures r.machine.(buttons := m.buttons, combo23 := m.combo23, combo123 := m.combo123) == m
    ensures forall i :: 0 <= i < NumButtons ==>
      r.machine.buttons[i].(processed := m.buttons[i].processed)
        == Debounce(m.buttons[i], Classify(readings[i]), now).(processed := m.buttons[i].processed)
    ensures forall i :: 0 <= i < NumButtons ==>
      (r.machine.buttons[i].processed <==>
        Debounce(m.buttons[i], Classify(readings[i]), now).processed || (i == 0 && r.holds.button1))
    ensures r.holds.button1 <==> LongHeld(r.machine.buttons[0], now)
    ensures r.holds.button1 ==> r.machine.buttons[0].processed
    ensures var s := TrackCombo(m.combo23, Combo23Condition(r.machine.buttons), now);
      r.machine.combo23 == s.tracker && r.holds.combo23 == s.held
    ensures var s := TrackCombo(m.combo123, Combo123Condition(r.machine.buttons), now);
      r.machine.combo123 == s.tracker && r.holds.combo123 == s.held
    ensures StampsBefore(r.machine, now)
    ensures ButtonsValid(m, now) ==> ButtonsValid(r.machine, now)
  {
    var debounced := DebounceAll(m.buttons, readings, now);
    var held1 := LongHeld(debounced[0], now);
    var s23 := TrackCombo(m.combo23, Combo23Condition(debounced), now);
    var s123 := TrackCombo(m.combo123, Combo123Condition(debounced), now);
    var bs := debounced[0 := debounced[0].(processed := debounced[0].processed || held1)];
    assert Combo23Condition(bs) == Combo23Condition(debounced);
    assert Combo123Condition(bs) == Combo123Condition(debounced);
    Scanned(m.(buttons := bs, combo23 := s23.tracker, combo123 := s123.tracker),
            Holds(held1, s23.held, s123.held))
  }

  /** The firmware's own tracker representation: start time 0 means unset. */
  datatype SentinelCombo = SentinelCombo(start: nat, fired: bool)

  function Encode(c: Combo): SentinelCombo
  {
    SentinelCombo(if c.start.Some? then c.start.value else 0, c.fired)
  }

  /** The combo tracker as the firmware writes it, with the 0 sentinel. */
  function TrackComboSentinel(c: SentinelCombo, cond: bool, now: nat): (r: (SentinelCombo, bool))
    requires c.start <= now
    ensures !cond ==> r == (SentinelCombo(0, false), false)
    ensures r.1 ==> cond && !c.fired && r.0.fired
  {
    if cond then
      var start := if c.start == 0 then now else c.start;
      var held := now - start > LongPressDelay && !c.fired;
      (SentinelCombo(start, c.fired || held), held)
    else
      (SentinelCombo(0, false), false)
  }

  /** The sentinel form and the Option form agree as long as no hold started at time 0. */
  lemma SentinelAgrees(c: Combo, cond: bool, now: nat)
    requires c.start.Some? ==> 0 < c.start.value <= now
    ensures var r := TrackCombo(c, cond, now);
      TrackComboSentinel(Encode(c), cond, now) == (Encode(r.tracker), r.held)
  {
  }

  /** A hold started exactly at time 0 is where the two forms part: the
      sentinel form restarts it and stays silent, the Option form fires. */
  lemma SentinelDiffersAtBoot()
    ensures TrackCombo(Combo(Some(0), false), true, 1500).held
    ensures !TrackComboSentinel(Encode(Combo(Some(0), false)), true, 1500).1
  {
  }

  /** On every valid state the sentinel is never ambiguous, so modelling the
      start as an Option does not change what checkButtons does. */
  lemma ScanButtonsMatchesSentinel(m: Machine, readings: seq<int>, now: nat)
    requires ButtonsValid(m, now) && |readings| == NumButtons
    ensures var r := ScanButtons(m, readings, now);
      && TrackComboSentinel(Encode(m.combo23), Combo23Condition(r.machine.buttons), now)
           == (Encode(r.machine.combo23), r.holds.combo23)
      && TrackComboSentinel(Encode(m.combo123), Combo123Condition(r.machine.buttons), now)
           == (Encode(r.machine.combo123), r.holds.combo123)
  {
  }
}
