/**
  Properties of the button layer over many loop iterations: commit spacing of
  the debouncer, bounces inside the window, and the fire-once combo latch.
 */
module ButtonTraces {
  import opened Wrappers
  import opened Globals
  import opened Buttons

  /** One raw sample of one button, with the time it was taken. */
  datatype Reading = Reading(level: Contact, time: nat)

  /** The times at which a run of samples was taken. */
  function Times(rs: seq<Reading>): (ts: seq<nat>)
    ensures |ts| == |rs|
    ensures forall k :: 0 <= k < |rs| ==> ts[k] == rs[k].time
  {
    seq(|rs|, k requires 0 <= k < |rs| => rs[k].time)
  }

  /** The button after a run of samples, and the times at which changes were committed. */
  datatype DebounceRun = DebounceRun(button: Button, commits: seq<nat>)

  /** Feeds a button a chronological run of samples. Every committing sample
      contributes its time to `commits`, in order, and no other time is listed;
      two commits are always more than the debounce delay apart, and without a
      commit the debounced level, its timestamp and the processed flag are what they were. */
  function RunDebounce(b: Button, from: nat, rs: seq<Reading>): (r: DebounceRun)
    requires b.changedAt <= from && Chronological(from, Times(rs))
    ensures SpacedBy(b.changedAt, r.commits, DebounceDelay + 1)
    ensures |r.commits| <= |rs|
    ensures forall k :: 0 <= k < |r.commits| ==> r.commits[k] in Times(rs)
    ensures rs != [] && Commits(b, rs[0].level, rs[0].time) ==>
      r.commits != [] && r.commits[0] == rs[0].time
    ensures r.commits == [] ==>
      r.button.debounced == b.debounced && r.button.changedAt == b.changedAt
      && r.button.processed == b.processed
    ensures r.commits != [] ==> r.button.changedAt == r.commits[|r.commits| - 1]
    ensures rs != [] ==> r.button.lastRaw == rs[|rs| - 1].level
    ensures rs == [] ==> r.button == b
    decreases |rs|
  {
    if rs == [] then DebounceRun(b, [])
    else
      var b' := Debounce(b, rs[0].level, rs[0].time);
      assert Times(rs[1..]) == Times(rs)[1..];
      var rest := RunDebounce(b', rs[0].time, rs[1..]);
      assert forall k :: 0 <= k < |rest.commits| ==> rest.commits[k] in Times(rs);
      if Commits(b, rs[0].level, rs[0].time) then DebounceRun(rest.button, [rs[0].time] + rest.commits)
      else DebounceRun(rest.button, rest.commits)
  }

  /** However fast the input bounces, a run of samples all taken within the
      debounce window of the last commit changes nothing but the tracked raw sample. */
  lemma {:induction false} SamplesInsideWindowCommitNothing(b: Button, from: nat, rs: seq<Reading>)
    requires b.changedAt <= from && Chronological(from, Times(rs))
    requires forall k :: 0 <= k < |rs| ==> rs[k].time <= b.changedAt + DebounceDelay
    ensures RunDebounce(b, from, rs).commits == []
    decreases |rs|
  {
    if rs != [] {
      var b' := Debounce(b, rs[0].level, rs[0].time);
      assert !Commits(b, rs[0].level, rs[0].time);
      assert b'.changedAt == b.changedAt;
      assert Times(rs[1..]) == Times(rs)[1..];
      forall k | 0 <= k < |rs[1..]|
        ensures rs[1..][k].time <= b'.changedAt + DebounceDelay
      {
        assert rs[1..][k] == rs[k + 1];
      }
      SamplesInsideWindowCommitNothing(b', rs[0].time, rs[1..]);
    }
  }

  /** A release inside the window is tracked but not committed; a press after
      the window is then committed again and re-arms the processed flag. */
  lemma RepressAfterUncommittedReleaseRearms(b: Button, t1: nat, t2: nat)
    requires b.debounced == Pressed && b.lastRaw == Pressed && b.processed
    requires b.changedAt <= t1 <= b.changedAt + DebounceDelay
    requires t1 <= t2 && t2 > b.changedAt + DebounceDelay
    ensures var b1 := Debounce(b, Released, t1);
      b1.debounced == Pressed && b1.lastRaw == Released && b1.processed
    ensures var b2 := Debounce(Debounce(b, Released, t1), Pressed, t2);
      b2.debounced == Pressed && !b2.processed && b2.changedAt == t2
  {
  }

  /** Repeating the sample just seen changes nothing. */
  lemma DebounceIdempotent(b: Button, sample: Contact, t1: nat, t2: nat)
    requires b.changedAt <= t1 <= t2
    ensures Debounce(Debounce(b, sample, t1), sample, t2) == Debounce(b, sample, t1)
  {
  }

  datatype ComboRun = ComboRun(tracker: Combo, fires: nat)

  /** Evaluates a combo tracker at each of a run of times while its condition
      holds throughout, counting the calls that report the hold. */
  function HoldCombo(c: Combo, from: nat, times: seq<nat>): (r: ComboRun)
    requires c.start.Some? ==> c.start.value <= from
    requires Chronological(from, times)
    ensures r.fires <= 1
    ensures c.fired ==> r.fires == 0
    ensures r.tracker.fired <==> c.fired || r.fires == 1
    ensures times != [] ==> r.tracker.start.Some?
    decreases |times|
  {
    if times == [] then ComboRun(c, 0)
    else
      var s := TrackCombo(c, true, times[0]);
      var rest := HoldCombo(s.tracker, times[0], times[1..]);
      ComboRun(rest.tracker, rest.fires + (if s.held then 1 else 0))
  }

  /** A continuous hold that outlasts the long-press delay fires exactly once,
      however long it goes on. */
  lemma {:induction false} LongHoldFiresOnce(c: Combo, from: nat, times: seq<nat>)
    requires c.start.Some? && c.start.value <= from && !c.fired
    requires Chronological(from, times) && times != []
    requires times[|times| - 1] - c.start.value > LongPressDelay
    ensures HoldCombo(c, from, times).fires == 1
    decreases |times|
  {
    var s := TrackCombo(c, true, times[0]);
    if !s.held {
      assert s.tracker == c;
      if |times| > 1 {
        assert times[1..][|times[1..]| - 1] == times[|times| - 1];
        LongHoldFiresOnce(c, times[0], times[1..]);
      }
    }
  }
}
