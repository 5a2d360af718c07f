/** The clock ticker: a minute:second counter advanced by at most one second per call. */
module Ticker {
  import opened Globals

  /** Seconds since the top of the hour. */
  function TotalSeconds(c: Clock): nat
  {
    c.minutes * FieldModulus + c.seconds
  }

  const SecondsPerHour: nat := FieldModulus * FieldModulus

  /** updateTime, given the clock sample it takes itself. */
  function UpdateTime(c: Clock, now: nat): (r: Clock)
    requires c.lastTick <= now
    ensures now - c.lastTick < TickInterval ==> r == c
    ensures now - c.lastTick >= TickInterval ==> r.lastTick == now
    ensures c.minutes < FieldModulus && c.seconds < FieldModulus ==>
      r.minutes < FieldModulus && r.seconds < FieldModulus
    ensures c.minutes < FieldModulus && c.seconds < FieldModulus && now - c.lastTick >= TickInterval ==>
      TotalSeconds(r) == (TotalSeconds(c) + 1) % SecondsPerHour
    ensures r.minutes != c.minutes ==> c.seconds + 1 >= FieldModulus && r.seconds == 0
    ensures r.lastTick <= now
  {
    if now - c.lastTick >= TickInterval then
      var seconds := c.seconds + 1;
      if seconds >= FieldModulus then
        var minutes := c.minutes + 1;
        Clock(if minutes >= FieldModulus then 0 else minutes, 0, now)
      else
        Clock(c.minutes, seconds, now)
    else
      c
  }

  datatype TickRun = TickRun(clock: Clock, ticks: nat)

  lemma ModShift(a: nat, k: nat)
    ensures ((a + 1) % SecondsPerHour + k) % SecondsPerHour == (a + 1 + k) % SecondsPerHour
  {
  }

  /** Runs the ticker at each of a chronological run of samples, counting the
      calls that advanced it: never more than one second per call, the
      counter moves by exactly the number of ticks modulo an hour, and every
      call ticks exactly when the samples are at least a second apart. */
  function RunTicker(c: Clock, times: seq<nat>): (r: TickRun)
    requires Chronological(c.lastTick, times)
    ensures r.ticks <= |times|
    ensures c.minutes < FieldModulus && c.seconds < FieldModulus ==>
      r.clock.minutes < FieldModulus && r.clock.seconds < FieldModulus
      && TotalSeconds(r.clock) == (TotalSeconds(c) + r.ticks) % SecondsPerHour
    ensures r.ticks == |times| <==> SpacedBy(c.lastTick, times, TickInterval)
    decreases |times|
  {
    if times == [] then
      TickRun(c, 0)
    else
      var c' := UpdateTime(c, times[0]);
      ChronologicalFromEarlier(c'.lastTick, times[0], times[1..]);
      var rest := RunTicker(c', times[1..]);
      if times[0] - c.lastTick >= TickInterval then
        ModShift(TotalSeconds(c), rest.ticks);
        TickRun(rest.clock, rest.ticks + 1)
      else
        assert c' == c;
        TickRun(rest.clock, rest.ticks)
  }
}
