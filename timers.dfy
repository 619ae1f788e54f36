/** The interval timer behind ball possession and game time. The game clock
    (Unity's Time.time) is an explicit parameter `now` of every operation that
    reads it. */
module Timers {

  /** The timer's three fields: whether an interval is open, when the last
      interval was started, and the sum of the intervals closed so far. */
  datatype TimerState = TimerState(running: bool, startTime: real, intervalSum: real)

  /** A timer as its constructor leaves it (C# zero-initialises the fields). */
  const Fresh: TimerState := TimerState(false, 0.0, 0.0)

  /** EllapsedTotal at time `now`: the closed intervals plus the open one. */
  function Elapsed(s: TimerState, now: real): real
  {
    s.intervalSum + (if s.running then now - s.startTime else 0.0)
  }

  /** Reset: the sum is cleared and no interval is open; the start time is
      left as it was. */
  function Cleared(s: TimerState): (r: TimerState)
    ensures !r.running && r.startTime == s.startTime && r.intervalSum == 0.0
  {
    TimerState(false, s.startTime, 0.0)
  }

  /** StartInterval: opens an interval at `now`, also when one is open. */
  function Started(s: TimerState, now: real): (r: TimerState)
    ensures r.running && r.startTime == now
    ensures Elapsed(r, now) == s.intervalSum
  {
    TimerState(true, now, s.intervalSum)
  }

  /** StopInterval: adds the time since the last start to the sum, whether or
      not an interval is open. */
  function Stopped(s: TimerState, now: real): (r: TimerState)
    ensures !r.running && r.startTime == s.startTime
    ensures s.running ==> r.intervalSum == Elapsed(s, now)
    ensures !s.running ==> r.intervalSum == Elapsed(s, now) + (now - s.startTime)
  {
    TimerState(false, s.startTime, s.intervalSum + (now - s.startTime))
  }

  /** What holds of a timer at time `now` when the clock never runs
      backwards: it was started in the past and its sum is not negative. */
  predicate TimerInv(s: TimerState, now: real)
  {
    0.0 <= s.startTime <= now && 0.0 <= s.intervalSum
  }

  lemma FreshInv(now: real)
    requires now >= 0.0
    ensures TimerInv(Fresh, now) && Elapsed(Fresh, now) == 0.0
  {
  }

  /** Every operation at time `now` keeps the invariant, and it carries over
      to any later time. */
  lemma TimerInvPreserved(s: TimerState, now: real, later: real)
    requires TimerInv(s, now) && now <= later
    ensures TimerInv(Cleared(s), now)
    ensures TimerInv(Started(s, now), now)
    ensures TimerInv(Stopped(s, now), now)
    ensures TimerInv(s, later)
  {
  }

  /** Under the invariant the elapsed time is never negative. */
  lemma ElapsedNonNegative(s: TimerState, now: real)
    requires TimerInv(s, now)
    ensures Elapsed(s, now) >= 0.0
  {
  }

  /** After a reset the timer reads zero, at any time. */
  lemma ResetReadsZero(s: TimerState, now: real)
    ensures Elapsed(Cleared(s), now) == 0.0
    ensures !Cleared(s).running
  {
  }

  /** As time passes the reading grows by the time passed while an interval
      is open and stays put otherwise. */
  lemma ElapsedAdvances(s: TimerState, now: real, later: real)
    requires now <= later
    ensures Elapsed(s, later) == Elapsed(s, now) + (if s.running then later - now else 0.0)
    ensures Elapsed(s, now) <= Elapsed(s, later)
  {
  }

  /** Starting at `now` does not change the reading at `now` when no interval
      was open; on an open interval it drops the time since its start. */
  lemma StartKeepsReading(s: TimerState, now: real)
    ensures !s.running ==> Elapsed(Started(s, now), now) == Elapsed(s, now)
    ensures s.running ==> Elapsed(Started(s, now), now) == Elapsed(s, now) - (now - s.startTime)
  {
  }

  /** With a clock that does not run backwards, stopping never lowers the
      reading, and starting a stopped timer keeps it; only Reset and a
      restart of an open interval lower it. */
  lemma ReadingDropsOnlyOnResetOrRestart(s: TimerState, now: real)
    requires TimerInv(s, now)
    ensures Elapsed(Stopped(s, now), now) >= Elapsed(s, now)
    ensures !s.running ==> Elapsed(Started(s, now), now) == Elapsed(s, now)
    ensures s.running && s.startTime < now ==> Elapsed(Started(s, now), now) < Elapsed(s, now)
    ensures Elapsed(Cleared(s), now) <= Elapsed(s, now)
  {
  }

  /** Stopping an open interval freezes the reading it had at `now`. */
  lemma StopFreezesReading(s: TimerState, now: real, later: real)
    requires s.running
    ensures Elapsed(Stopped(s, now), later) == Elapsed(s, now)
  {
  }

  /** Stopping a timer with no open interval adds the time since its last
      start a second time. */
  lemma StopWhileStoppedCountsAgain(s: TimerState, now: real, later: real)
    requires !s.running
    ensures Elapsed(Stopped(s, now), later) == Elapsed(s, later) + (now - s.startTime)
  {
  }

  /** A start at t0 followed by a stop at t1 adds t1 - t0. */
  lemma StartThenStop(s: TimerState, t0: real, t1: real, later: real)
    ensures !Stopped(Started(s, t0), t1).running
    ensures Elapsed(Stopped(Started(s, t0), t1), later) == s.intervalSum + (t1 - t0)
  {
  }

  /** A sequence of started and stopped intervals, oldest first. */
  datatype Interval = Interval(start: real, stop: real)

  function RunIntervals(s: TimerState, ivs: seq<Interval>): TimerState
    decreases |ivs|
  {
    if ivs == [] then s
    else RunIntervals(Stopped(Started(s, ivs[0].start), ivs[0].stop), ivs[1..])
  }

  function TotalDuration(ivs: seq<Interval>): real
  {
    if ivs == [] then 0.0 else (ivs[0].stop - ivs[0].start) + TotalDuration(ivs[1..])
  }

  /** Replaying start/stop pairs on a stopped timer adds the durations of the
      intervals and leaves it stopped. */
  lemma {:induction false} RunIntervalsSums(s: TimerState, ivs: seq<Interval>, later: real)
    requires !s.running
    ensures !RunIntervals(s, ivs).running
    ensures Elapsed(RunIntervals(s, ivs), later) == Elapsed(s, later) + TotalDuration(ivs)
    decreases |ivs|
  {
    if ivs != [] {
      var next := Stopped(Started(s, ivs[0].start), ivs[0].stop);
      RunIntervalsSums(next, ivs[1..], later);
    }
  }

  /** From a reset, the reading is exactly the total of the intervals run. */
  lemma {:induction false} FromResetReadsTotal(s: TimerState, ivs: seq<Interval>, later: real)
    ensures Elapsed(RunIntervals(Cleared(s), ivs), later) == TotalDuration(ivs)
  {
    RunIntervalsSums(Cleared(s), ivs, later);
  }

  /** Timer.cs: Unity's float timer with the clock passed in. */
  class Timer {
    var running: bool
    var startTime: real
    var intervalSum: real

    function State(): TimerState
      reads this
    {
      TimerState(running, startTime, intervalSum)
    }

    constructor ()
      ensures State() == Fresh
    {
      running := false;
      startTime := 0.0;
      intervalSum := 0.0;
    }

    /** IsRunning. */
    function IsRunning(): (r: bool)
      reads this
      ensures r == State().running
    {
      running
    }

    /** EllapsedTotal at time `now`. */
    method EllapsedTotal(now: real) returns (r: real)
      ensures r == Elapsed(State(), now)
    {
      var live := 0.0;
      if running {
        live := now - startTime;
      }
      r := intervalSum + live;
    }

    method Reset()
      modifies this
      ensures State() == Cleared(old(State()))
    {
      intervalSum := 0.0;
      running := false;
    }

    method StartInterval(now: real)
      modifies this
      ensures State() == Started(old(State()), now)
    {
      startTime := now;
      running := true;
    }

    method StopInterval(now: real)
      modifies this
      ensures State() == Stopped(old(State()), now)
    {
      intervalSum := intervalSum + (now - startTime);
      running := false;
    }
  }
}
