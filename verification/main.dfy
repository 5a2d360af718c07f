/**
  One iteration of the firmware's loop: tick the clock with its own sample,
  then buttons and state machine, then the display scan, then the lights; and
  runs of iterations from power-on.
 */
module Loop {
  import opened Wrappers
  import opened Globals
  import opened Buttons
  import opened StateMachine
  import opened Ticker
  import opened Display
  import opened Led

  datatype Output = Output(machine: Machine, frame: Option<Frame>, lights: Lights)

  /** One loop iteration. `now` is the loop's clock sample, shared by the
      buttons and the display; `tickNow` is the later sample the ticker takes. */
  function Step(m: Machine, readings: seq<int>, now: nat, tickNow: nat): (r: Output)
    requires Valid(m, now) && now <= tickNow && |readings| == NumButtons
    ensures Valid(r.machine, tickNow)
    ensures r.machine.clock == UpdateTime(m.clock, tickNow)
    // the minute-match check sees this iteration's tick
    ensures m.mode == DisplayTime && r.machine.clock.minutes == m.alarm.minutes ==>
      r.machine.mode == AlarmTriggered
    // buttons and display share the loop's sample
    ensures forall i :: 0 <= i < NumButtons ==>
      r.machine.buttons[i].changedAt == m.buttons[i].changedAt || r.machine.buttons[i].changedAt == now
    ensures r.machine.scan.lastScan == m.scan.lastScan || r.machine.scan.lastScan == now
    // the display and the lights read the state the state machine left
    ensures r.frame.Some? ==> r.frame.value == Render(r.machine.(scan := m.scan), r.machine.scan.blink)
    ensures r.frame.None? ==> r.machine.scan == m.scan
    ensures r.lights == UpdateLights(r.machine)
  {
    var ticked := m.(clock := UpdateTime(m.clock, tickNow));
    var handled := CheckButtons(ticked, readings, now);
    var shown := MultiplexDisplay(handled, now);
    var after := handled.(scan := shown.scan);
    ButtonsValidLater(after, now, tickNow);
    Output(after, shown.frame, UpdateLights(after))
  }

  /** The inputs of one iteration. */
  datatype Sample = Sample(readings: seq<int>, now: nat, tickNow: nat)

  /** Iteration inputs as the hardware delivers them: three readings each, and
      clock samples that never go backwards. */
  predicate Schedule(from: nat, samples: seq<Sample>)
    decreases |samples|
  {
    samples == [] ||
    (&& |samples[0].readings| == NumButtons
     && from <= samples[0].now <= samples[0].tickNow
     && Schedule(samples[0].tickNow, samples[1..]))
  }

  function EndTime(from: nat, samples: seq<Sample>): nat
    decreases |samples|
  {
    if samples == [] then from else EndTime(samples[0].tickNow, samples[1..])
  }

  /** Runs iterations in order; every state reached is valid, so all clock and
      alarm fields stay in [0,59] and the scan position in [0,4]. */
  function Run(m: Machine, from: nat, samples: seq<Sample>): (r: Machine)
    requires Valid(m, from) && Schedule(from, samples)
    ensures Valid(r, EndTime(from, samples))
    decreases |samples|
  {
    if samples == [] then m
    else
      var s := samples[0];
      ButtonsValidLater(m, from, s.now);
      Run(Step(m, s.readings, s.now, s.tickNow).machine, s.tickNow, samples[1..])
  }

  /** Every state reachable from power-on keeps the invariant. */
  lemma ReachableStatesValid(samples: seq<Sample>)
    requires Schedule(0, samples)
    ensures Valid(Run(Init(), 0, samples), EndTime(0, samples))
  {
  }

  /** Showing 07:59 with the alarm at minute 8, whatever the buttons read,
      the iteration whose tick reaches 08:00 also triggers the alarm. */
  lemma AlarmTriggersOnMinuteMatch(m: Machine, readings: seq<int>, now: nat, tickNow: nat)
    requires Valid(m, now) && now <= tickNow && |readings| == NumButtons
    requires m.mode == DisplayTime && m.clock.minutes == 7 && m.clock.seconds == 59 && m.alarm.minutes == 8
    requires tickNow - m.clock.lastTick >= TickInterval
    ensures Step(m, readings, now, tickNow).machine.mode == AlarmTriggered
    ensures Step(m, readings, now, tickNow).lights == Lights(false, true, true)
  {
  }
}
