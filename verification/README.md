# Polled alarm clock: control layer model

A Dafny model of the control layer of a single-board alarm clock. The firmware
runs one polling loop. Each iteration ticks a minute:second clock, debounces
three analog buttons, derives three long-press signals, drives a four-state UI
(show time, set alarm minute, set alarm second, alarm triggered), advances a
five-position display scan with a blink flag, and sets three indicator lights.

The model keeps the firmware's global variables as one immutable record,
`Globals.Machine`. Each loop stage is a pure function on that record, and
`Loop.Step` composes them in the firmware's order:

- `Ticker.UpdateTime`
- `StateMachine.CheckButtons`, which is `Buttons.ScanButtons` followed by `StateMachine.HandleStateMachine`
- `Display.MultiplexDisplay`
- `Led.UpdateLights`

Modules follow the source files:

- `Globals`: `src/globals.h` and `src/globals.cpp`
- `Buttons`, `ButtonTraces` and `StateMachine`: `src/button.cpp`
- `Ticker`: `src/time.cpp`
- `Display`: `src/display.cpp`
- `Led`: `src/led.cpp`
- `Loop`: the `loop` function of `src/main.cpp`

Modelling choices:

- **Time.** Milliseconds are a `nat` passed in as a parameter. Each stage requires that its stored timestamps are not later than the sample, because `millis()` is monotonic. `updateTime` reads the clock again itself, so `Step` takes two samples, `now <= tickNow`.
- **Hold start times.** The firmware keeps each combo's start time in a static local and uses `0` to mean "unset". The model uses `Option<nat>` instead. The firmware's form is also modelled (`Buttons.TrackComboSentinel`). `Buttons.ScanButtonsMatchesSentinel` proves that the two forms agree on every valid state. The reason: no press can be committed before 51 ms, so no hold starts at time 0. `Buttons.SentinelDiffersAtBoot` shows the one case where they disagree: a hold started at time 0.
- **Integer fields.** The clock, alarm and scan fields are `nat`, since the firmware never makes them negative. Increments and wraps are written as the firmware writes them (`x + 1`, then reset at 60), and the contracts relate them to `% 60` and `% 5`.
- **Display output.** Drawing is a value. `Display.Frame` is the scan step's decision. `Display.Pins` holds the levels it writes. A pin that `clear()` does not touch is `None`.
- **Levels and encodings.** One `Contact` type is used for both button encodings. The debounced state uses 1 = pressed, the raw sample uses 0 = pressed. `Globals.DebouncedCode` and `Globals.RawCode` give the two encodings.

Three behaviours of the firmware worth noting, each modelled as the code does it:

- **Stage order.** The code ticks the clock first, before the buttons and the state machine (`src/main.cpp:38-41`). So the minute-match check sees the current iteration's tick.
- **Debounce comparison.** A change is committed only when strictly more than 50 ms have passed since the last commit, so a sample exactly 50 ms after it is not committed (`src/button.cpp:19`).
- **When `processed` is cleared.** It is cleared on every committed pressed sample, not only on a released→pressed change of the debounced level. A re-press after an uncommitted release commits "pressed" again and re-arms the flag (`ButtonTraces.RepressAfterUncommittedReleaseRearms`).

## Model

| member | source | states |
|---|---|---|
| `Globals.DebouncedCode` | src/globals.h:20 | debounced states encode pressed as 1 and released as 0 |
| `Globals.RawCode` | src/button.cpp:13-14 | raw samples encode pressed as 0 and released as 1 |
| `Globals.CodesAreOpposite` | src/globals.h:20-21 | the raw encoding is the complement of the debounced one |
| `Globals.Init` | src/globals.cpp:26-43 | power-on state: showing time, clock 14:23, alarm 08:00, every button debounced-released with raw sample released, unprocessed and stamped 0, scan at 0 with blink off; it satisfies the loop invariant (three buttons, all fields in range) |
| `Buttons.Classify` | src/button.cpp:12-14 | a reading is pressed iff its intensity is below 500 |
| `Buttons.Debounce` | src/button.cpp:16-37 | the raw sample is always recorded; the debounced level and commit time change only on a commit (sample differs from the last raw sample and more than 50 ms since the last commit), and a commit stamps `now`; `processed` is cleared exactly on a committed press and changes in no other way |
| `Buttons.DebounceAll` | src/button.cpp:10-38 | every button is debounced against its own reading at the same time sample |
| `Buttons.TrackCombo` | src/button.cpp:44-78 | releasing a participant clears start and latch; a new hold starts at `now`; the combo fires iff it was already being held for more than 1000 ms and has not fired; the latch records a fire |
| `Buttons.ScanButtons` | src/button.cpp:8-78 | button 1 is held iff debounced-pressed for more than 1000 ms since its last commit, and then its processed flag is set before the state machine runs; both combos track the post-debounce levels; nothing but the button layer changes; the button invariant is kept |
| `Buttons.TrackComboSentinel` | src/button.cpp:44-56 | the firmware's tracker with 0 as "unset": releasing clears it, a fire needs the condition and an unset latch |
| `Buttons.SentinelAgrees` | src/button.cpp:50 | the 0-sentinel tracker and the Option tracker agree whenever no hold started at time 0 |
| `Buttons.SentinelDiffersAtBoot` | src/button.cpp:50 | a hold started at exactly 0 is restarted by the sentinel form but fires in the Option form |
| `Buttons.ScanButtonsMatchesSentinel` | src/button.cpp:44-71 | on every valid state, both combo trackers behave as the firmware's sentinel form does |
| `ButtonTraces.RunDebounce` | src/button.cpp:17-37 | over any chronological run of samples, the commit list has at most one entry per sample, each the time of a sample, starting with the first sample when it commits; successive commits are more than 50 ms apart (the first more than 50 ms after the previous commit); without a commit the level, its time and `processed` are unchanged; the last raw sample is always the latest one |
| `ButtonTraces.SamplesInsideWindowCommitNothing` | src/button.cpp:19 | samples all taken within 50 ms of the last commit commit nothing, however they bounce |
| `ButtonTraces.RepressAfterUncommittedReleaseRearms` | src/button.cpp:17-36 | a release inside the window is tracked but not committed; a press after the window re-commits and clears `processed` |
| `ButtonTraces.DebounceIdempotent` | src/button.cpp:17 | repeating the last raw sample changes nothing |
| `ButtonTraces.HoldCombo` | src/button.cpp:49-56 | during one continuous combo hold the tracker reports the hold at most once, and never if it had already fired |
| `ButtonTraces.LongHoldFiresOnce` | src/button.cpp:49-52 | a continuous hold that lasts past 1000 ms after its start fires exactly once, however long it continues |
| `StateMachine.WrapInc` | src/button.cpp:103-104 | on [0,59] the increment is `(x + 1) mod 60`, so 59 wraps to 0 |
| `StateMachine.WrapDec` | src/button.cpp:107-108 | on [0,59] the decrement is `(x + 59) mod 60`, so 0 wraps to 59 |
| `StateMachine.WrapIncDecInverse` | src/button.cpp:102-109 | on [0,59] increment and decrement undo each other |
| `StateMachine.HandleStateMachine` | src/button.cpp:85-140 | only mode, alarm and processed flags change, and processed flags are only set; each alarm field changes only in its own setting state, by one wrapped step, and stays in [0,59]. Showing time: alarm triggered iff the minutes match, overriding a same-call short press of button 1; otherwise set-alarm-minute iff button 1 is short-pressed and not held, else it stays showing time. Setting states: button-1 hold, then button 2, then button 3, then the 2+3 combo. Alarm triggered: a short press of button 2 or the 1+2+3 combo returns to showing time |
| `StateMachine.SettingCallHasOneEffect` | src/button.cpp:99-129 | in a setting state one call changes the mode or consumes one press of button 2 or 3, never two of these; the alarm changes only with a consumed press |
| `StateMachine.MinuteWrapScenario` | src/button.cpp:102-105 | setting the minute at 59, a short press of button 2 yields 0 |
| `StateMachine.CheckButtons` | src/button.cpp:8-82 | the last raw sample is the latest one; debounced level and commit time change only on a commit at `now`; a processed flag is cleared only by a committed press; clock and scan untouched; invariants and ranges kept; a minute match while showing time always triggers |
| `StateMachine.CombosLatchWhateverTheMode` | src/button.cpp:75-81 | the combo latches are set before and independently of the state machine, so a hold that the current state ignores is still consumed |
| `Ticker.UpdateTime` | src/time.cpp:4-18 | under 1000 ms since the last tick nothing changes; otherwise the counter `minutes*60+seconds` advances by exactly 1 mod 3600 with both fields in [0,59], minutes change only when seconds wrap to 0, and the tick stamp becomes the sample |
| `Ticker.RunTicker` | src/time.cpp:7-17 | over any run of calls at most one second is added per call, the counter moves by exactly the number of ticks mod 3600, and every call ticks iff the samples are at least 1000 ms apart |
| `Display.SegmentLevels` | src/display.cpp:9-14 | segment i is driven by bit 6-i of the pattern, and a 7-bit pattern is recovered from the levels |
| `Display.DisplayNumber` | src/display.cpp:9-14 | a digit's segment levels are the bits of its table entry |
| `Display.DigitSelect` | src/display.cpp:17-23 | exactly the requested digit position is enabled |
| `Display.Drive` | src/display.cpp:3-32 | a digit frame writes its pattern, enables only its position and turns the colon off; the colon frame enables only position 1 with the colon on and segments off; a blank frame clears the segments and leaves digit and colon pins alone |
| `Display.PatternsFitSevenBits` | src/globals.cpp:12-23 | the table has 10 entries, each below 128 |
| `Display.EightLightsAllSegments` | src/globals.cpp:21 | digit 8 lights all seven segments |
| `Display.OneLightsSegmentsBC` | src/globals.cpp:14 | digit 1 lights only segments b and c |
| `Display.DigitsDistinguishable` | src/globals.cpp:12-23 | no two digits light the same segments |
| `Display.Render` | src/display.cpp:38-81 | a position outside 0-4 draws nothing; a position is blanked iff the blanking rule holds (0-1 only when setting minutes, 2-3 only when setting seconds, colon only when triggered, always with blink off); position 4 otherwise draws the colon; positions 0-3 draw a digit there, below 10 when the fields are in range |
| `Display.NeverBlankedWhenShown` | src/display.cpp:60-81 | nothing is blanked while showing the time or while the blink flag is on |
| `Display.DigitsReassemble` | src/display.cpp:41-51 | tens*10+units of the drawn digits equals the shown minutes or seconds: the clock while showing time or triggered, the alarm while setting |
| `Display.NextPosition` | src/display.cpp:83-84 | on [0,4] the cursor advances to `(p + 1) mod 5` and always lands in [0,4] |
| `Display.MultiplexDisplay` | src/display.cpp:35-87 | under 3 ms since the last scan nothing changes; otherwise the cursor advances mod 5 and the scan stamp becomes `now`, blink flips iff 500 ms have passed since the last flip (which re-stamps it), and the step draws the old position with the new blink flag |
| `Led.UpdateLights` | src/led.cpp:4-26 | green iff showing time, red iff not, alarm light iff triggered or showing time with matching minutes |
| `Led.LightsDependOnModeAndMinutes` | src/led.cpp:5-24 | the lights depend only on the mode and the two minute fields, never on seconds |
| `Loop.Step` | src/main.cpp:36-42 | an iteration keeps the invariant (fields in [0,59], scan in [0,4]); the clock is the ticker's result on its own sample; the minute-match check sees that tick; buttons and display stamp only the shared loop sample; display and lights read the state the state machine left |
| `Loop.Run` | src/main.cpp:36-42 | any run of iterations with non-decreasing clock samples keeps the invariant |
| `Loop.ReachableStatesValid` | src/main.cpp:36-42 | every state reachable from power-on keeps the invariant |
| `Loop.AlarmTriggersOnMinuteMatch` | src/main.cpp:38-39 | showing 07:59 with the alarm at minute 8, the iteration whose tick reaches minute 8 ends triggered with red and alarm lights on |

## Left out

- Pin I/O (`analogRead`, `digitalWrite`, `pinMode`) is left out: readings are parameters and pin levels are values. So is the pin state that stays behind between calls, such as `clear()` leaving digit and colon pins as they were. It is shown only as "not written".
- Serial logging and `setup` are left out: they are side effects with no effect on the control state.
- The pin number tables and the `Arduino.h` include are left out: they are wiring, not behaviour.
- `millis()` becomes a parameter. Its unsigned 32-bit wrap-around after about 49 days is not modelled: time is an unbounded `nat` and must not go backwards.
- Real-time claims are not modelled, for example that a 3 ms scan period looks steady to the eye.
- Out-of-range array indices are excluded by preconditions. In the firmware they would be undefined behaviour: a digit of 10 or more passed to `displayNumber`, or a position of 4 or more passed to `displayDigit`.
