/**
  The four-state UI state machine and checkButtons, which runs the button
  layer and then the state machine with the three hold signals.
 */
module StateMachine {
  import opened Wrappers
  import opened Globals
  import opened Buttons

  /** Increment of an alarm field as the firmware writes it: add, then wrap to 0 at 60. */
  function WrapInc(x: nat): (r: nat)
    ensures x < FieldModulus ==> r == (x + 1) % FieldModulus
    ensures r < FieldModulus
  {
    if x + 1 >= FieldModulus then 0 else x + 1
  }

  /** Decrement of an alarm field as the firmware writes it: subtract, then wrap to 59 below 0. */
  function WrapDec(x: nat): (r: nat)
    ensures x < FieldModulus ==> r == (x + FieldModulus - 1) % FieldModulus
    ensures x < FieldModulus ==> r < FieldModulus
  {
    if x - 1 < 0 then FieldModulus - 1 else x - 1
  }

  /** On the field range, increment and decrement undo each other. */
  lemma WrapIncDecInverse(x: nat)
    requires x < FieldModulus
    ensures WrapDec(WrapInc(x)) == x && WrapInc(WrapDec(x)) == x
  {
  }

  /** A debounced press whose effect has not been produced yet. */
  predicate ShortPress(b: Button)
  {
    b.debounced == Pressed && !b.processed
  }

  predicate Setting(mode: Mode)
  {
    mode == SetAlarmMinute || mode == SetAlarmSecond
  }

  /** The alarm field a setting state edits. */
  function Field(a: Alarm, mode: Mode): nat
  {
    if mode == SetAlarmMinute then a.minutes else a.seconds
  }

  function MarkProcessed(bs: seq<Button>, i: nat): (r: seq<Button>)
    requires i < |bs|
    ensures |r| == |bs| && r[i].processed
    ensures forall j :: 0 <= j < |bs| ==> r[j].(processed := bs[j].processed) == bs[j]
    ensures forall j :: 0 <= j < |bs| && j != i ==> r[j] == bs[j]
  {
    bs[i := bs[i].(processed := true)]
  }

  /** One evaluation of the state machine. */
  function HandleStateMachine(m: Machine, h: Holds): (r: Machine)
    requires |m.buttons| == NumButtons
    // only the mode, the alarm and the processed flags can change; the clock never does
    ensures r.(mode := m.mode, alarm := m.alarm, buttons := m.buttons) == m
    ensures |r.buttons| == NumButtons
    ensures forall i :: 0 <= i < NumButtons ==>
      r.buttons[i].(processed := m.buttons[i].processed) == m.buttons[i]
    ensures forall i :: 0 <= i < NumButtons ==> m.buttons[i].processed ==> r.buttons[i].processed
    // each alarm field changes only in its own setting state, by one wrapped step
    ensures r.alarm.minutes != m.alarm.minutes ==>
      m.mode == SetAlarmMinute
      && (r.alarm.minutes == WrapInc(m.alarm.minutes) || r.alarm.minutes == WrapDec(m.alarm.minutes))
    ensures r.alarm.seconds != m.alarm.seconds ==>
      m.mode == SetAlarmSecond
      && (r.alarm.seconds == WrapInc(m.alarm.seconds) || r.alarm.seconds == WrapDec(m.alarm.seconds))
    ensures m.alarm.minutes < FieldModulus && m.alarm.seconds < FieldModulus ==>
      r.alarm.minutes < FieldModulus && r.alarm.seconds < FieldModulus
    // showing the time: the minute match overrides a short press of button 1
    ensures m.mode == DisplayTime ==>
      && r.alarm == m.alarm
      && (r.mode == AlarmTriggered <==> m.clock.minutes == m.alarm.minutes)
      && (r.mode == SetAlarmMinute <==>
            m.clock.minutes != m.alarm.minutes && ShortPress(m.buttons[0]) && !h.button1)
      && (r.mode == DisplayTime <==>
            m.clock.minutes != m.alarm.minutes && !(ShortPress(m.buttons[0]) && !h.button1))
      && r.buttons == (if ShortPress(m.buttons[0]) && !h.button1 then MarkProcessed(m.buttons, 0) else m.buttons)
    // setting states: at most one effect, in priority order
    ensures Setting(m.mode) && h.button1 ==>
      r.mode == DisplayTime && r.alarm == m.alarm && r.buttons == m.buttons
    ensures Setting(m.mode) && !h.button1 && ShortPress(m.buttons[1]) ==>
      r.mode == m.mode && r.buttons == MarkProcessed(m.buttons, 1)
      && Field(r.alarm, m.mode) == WrapInc(Field(m.alarm, m.mode))
    ensures Setting(m.mode) && !h.button1 && !ShortPress(m.buttons[1]) && ShortPress(m.buttons[2]) ==>
      r.mode == m.mode && r.buttons == MarkProcessed(m.buttons, 2)
      && Field(r.alarm, m.mode) == WrapDec(Field(m.alarm, m.mode))
    ensures Setting(m.mode) && !h.button1 && !ShortPress(m.buttons[1]) && !ShortPress(m.buttons[2]) ==>
      r.buttons == m.buttons && r.alarm == m.alarm
      && (r.mode != m.mode <==> h.combo23)
      && Setting(r.mode)
    // the alarm is stopped by a short press of button 2 or the three-button hold
    ensures m.mode == AlarmTriggered ==>
      && r.alarm == m.alarm
      && (r.mode == DisplayTime <==> ShortPress(m.buttons[1]) || h.combo123)
      && (r.mode != DisplayTime ==> r.mode == AlarmTriggered)
      && r.buttons == (if ShortPress(m.buttons[1]) then MarkProcessed(m.buttons, 1) else m.buttons)
  {
    match m.mode
    case DisplayTime =>
      var pressed := ShortPress(m.buttons[0]) && !h.button1;
      var mode := if pressed then SetAlarmMinute else DisplayTime;
      var bs := if pressed then MarkProcessed(m.buttons, 0) else m.buttons;
      var mode' := if m.clock.minutes == m.alarm.minutes then AlarmTriggered else mode;
      m.(mode := mode', buttons := bs)
    case SetAlarmMinute =>
      if h.button1 then m.(mode := DisplayTime)
      else if ShortPress(m.buttons[1]) then
        m.(alarm := m.alarm.(minutes := WrapInc(m.alarm.minutes)), buttons := MarkProcessed(m.buttons, 1))
      else if ShortPress(m.buttons[2]) then
        m.(alarm := m.alarm.(minutes := WrapDec(m.alarm.minutes)), buttons := MarkProcessed(m.buttons, 2))
      else if h.combo23 then m.(mode := SetAlarmSecond)
      else m
    case SetAlarmSecond =>
      if h.button1 then m.(mode := DisplayTime)
      else if ShortPress(m.buttons[1]) then
        m.(alarm := m.alarm.(seconds := WrapInc(m.alarm.seconds)), buttons := MarkProcessed(m.buttons, 1))
      else if ShortPress(m.buttons[2]) then
        m.(alarm := m.alarm.(seconds := WrapDec(m.alarm.seconds)), buttons := MarkProcessed(m.buttons, 2))
      else if h.combo23 then m.(mode := SetAlarmMinute)
      else m
    case AlarmTriggered =>
      if ShortPress(m.buttons[1]) then m.(mode := DisplayTime, buttons := MarkProcessed(m.buttons, 1))
      else if h.combo123 then m.(mode := DisplayTime)
      else m
  }

  /** In a setting state a call produces at most one effect: a mode change,
      or one consumed press of button 2 or 3; the alarm changes only together
      with a consumed press, and button 1 is never consumed here. */
  lemma SettingCallHasOneEffect(m: Machine, h: Holds)
    requires |m.buttons| == NumButtons && Setting(m.mode)
    ensures var r := HandleStateMachine(m, h);
      (if r.mode != m.mode then 1 else 0)
      + (if r.buttons[1] != m.buttons[1] then 1 else 0)
      + (if r.buttons[2] != m.buttons[2] then 1 else 0) <= 1
    ensures var r := HandleStateMachine(m, h);
      r.alarm != m.alarm ==> r.buttons[1] != m.buttons[1] || r.buttons[2] != m.buttons[2]
    ensures HandleStateMachine(m, h).buttons[0] == m.buttons[0]
  {
  }

  /** Short-pressing button 2 while setting the alarm minute at 59 wraps it to 0. */
  lemma MinuteWrapScenario(m: Machine, h: Holds)
    requires |m.buttons| == NumButtons && m.mode == SetAlarmMinute && m.alarm.minutes == 59
    requires !h.button1 && ShortPress(m.buttons[1])
    ensures HandleStateMachine(m, h).alarm.minutes == 0
    ensures HandleStateMachine(m, h).mode == SetAlarmMinute
  {
  }

  /** checkButtons: debounce, hold detection, then the state machine. */
  function CheckButtons(m: Machine, readings: seq<int>, now: nat): (r: Machine)
    requires |m.buttons| == NumButtons && |readings| == NumButtons
    requires StampsBefore(m, now)
    ensures |r.buttons| == NumButtons
    ensures r.clock == m.clock && r.scan == m.scan
    ensures forall i :: 0 <= i < NumButtons ==> r.buttons[i].lastRaw == Classify(readings[i])
    ensures forall i :: 0 <= i < NumButtons ==>
      r.buttons[i].debounced != m.buttons[i].debounced || r.buttons[i].changedAt != m.buttons[i].changedAt ==>
        Commits(m.buttons[i], Classify(readings[i]), now) && r.buttons[i].changedAt == now
    ensures forall i :: 0 <= i < NumButtons ==>
      m.buttons[i].processed && !r.buttons[i].processed ==>
        Classify(readings[i]) == Pressed && Commits(m.buttons[i], Pressed, now)
    ensures ButtonsValid(m, now) ==> ButtonsValid(r, now)
    ensures InRange(m) ==> InRange(r)
    ensures m.mode == DisplayTime && m.clock.minutes == m.alarm.minutes ==> r.mode == AlarmTriggered
  {
    var s := ScanButtons(m, readings, now);
    var r := HandleStateMachine(s.machine, s.holds);
    assert Combo23Condition(r.buttons) == Combo23Condition(s.machine.buttons) by {
      assert r.buttons[1].debounced == s.machine.buttons[1].debounced;
      assert r.buttons[2].debounced == s.machine.buttons[2].debounced;
    }
    assert Combo123Condition(r.buttons) == Combo123Condition(s.machine.buttons) by {
      assert r.buttons[0].debounced == s.machine.buttons[0].debounced;
    }
    assert ButtonsValid(s.machine, now) ==> ButtonsValid(r, now) by {
      if ButtonsValid(s.machine, now) {
        forall i | 0 <= i < NumButtons
          ensures ButtonValid(r.buttons[i], now)
        {
          assert r.buttons[i].debounced == s.machine.buttons[i].debounced;
          assert r.buttons[i].changedAt == s.machine.buttons[i].changedAt;
          assert ButtonValid(s.machine.buttons[i], now);
        }
      }
    }
    r
  }

  /** The combo trackers and their latches come out of checkButtons the same
      whatever the UI state, so a hold the current state ignores is still consumed. */
  lemma CombosLatchWhateverTheMode(m: Machine, readings: seq<int>, now: nat, mode: Mode)
    requires |m.buttons| == NumButtons && |readings| == NumButtons
    requires StampsBefore(m, now)
    ensures CheckButtons(m.(mode := mode), readings, now).combo23 == CheckButtons(m, readings, now).combo23
    ensures CheckButtons(m.(mode := mode), readings, now).combo123 == CheckButtons(m, readings, now).combo123
  {
  }
}
