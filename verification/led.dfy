/** The three indicator lights as a function of the UI state. */
module Led {
  import opened Globals

  /** Levels of the green, red and alarm lights (true = on). */
  datatype Lights = Lights(green: bool, red: bool, alarm: bool)

  /** updateLights. */
  function UpdateLights(m: Machine): (l: Lights)
    ensures l.green <==> m.mode == DisplayTime
    ensures l.red <==> m.mode != DisplayTime
    ensures l.alarm <==>
      m.mode == AlarmTriggered || (m.mode == DisplayTime && m.clock.minutes == m.alarm.minutes)
  {
    match m.mode
    case DisplayTime => Lights(true, false, m.clock.minutes == m.alarm.minutes)
    case SetAlarmMinute => Lights(false, true, false)
    case SetAlarmSecond => Lights(false, true, false)
    case AlarmTriggered => Lights(false, true, true)
  }

  /** The lights depend only on the state and the two minute fields, never on seconds. */
  lemma LightsDependOnModeAndMinutes(m1: Machine, m2: Machine)
    requires m1.mode == m2.mode
    requires m1.clock.minutes == m2.clock.minutes && m1.alarm.minutes == m2.alarm.minutes
    ensures UpdateLights(m1) == UpdateLights(m2)
  {
  }
}
