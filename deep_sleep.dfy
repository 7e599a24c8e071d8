/**
  * MyDeepSleep: when the box has to sleep, how long the next deep sleep is
  * (an oversized sleep is split into steps of at most one hour, the part
  * still to sleep kept in the RTC block), and restoring that block on wake.
  *
  * The WiFi shutdown, the delay, the log line and ESP.deepSleep with its
  * float correction factor are not part of this model; millis() and the
  * crc32 step are parameters.
  */
module DeepSleep {
  import opened Data
  import Options

  /** No deep sleep while the active time of all cycles is at most two minutes. */
  const NO_DEEP_SLEEP_STARTUP_TIME: int := 120
  /** The longest single deep sleep: one hour. */
  const MAX_DEEP_SLEEP_TIME_SEC: int := 60 * 60

  /**
    * haveToSleep on its inputs: a pending remainder always means sleep;
    * otherwise deep sleep must be on, the grace period over and the
    * configured active time used up.
    */
  predicate SleepDue(rest: int, enabled: bool, activeSum: int, awake: int, activeTimeSec: int) {
    rest > 0
    || (enabled && activeSum > NO_DEEP_SLEEP_STARTUP_TIME && awake >= activeTimeSec)
  }

  function Max(a: int, b: int): int {
    if a >= b then a else b
  }

  /**
    * updateTimeToSleep on its inputs: -1 with deep sleep off, otherwise the
    * seconds until both the active time and the grace period are used up.
    */
  function TimeToSleep(enabled: bool, activeSum: int, awake: int, activeTimeSec: int): int {
    if !enabled then -1
    else Max(activeTimeSec - awake, NO_DEEP_SLEEP_STARTUP_TIME - activeSum)
  }

  /** One sleep: how long it lasts and the remainder it leaves in the RTC block. */
  datatype Step = Step(slept: int, rest: int)

  /**
    * What sleep decides: the pending remainder, or else the configured time,
    * capped at one hour with the excess kept as the new remainder. A
    * configured sleep under an hour leaves the remainder field as it was.
    */
  function SleepStep(rest: int, configured: int): (r: Step)
    ensures r.slept <= MAX_DEEP_SLEEP_TIME_SEC
    ensures rest > 0 ==> r.slept + r.rest == rest && r.rest >= 0
    ensures rest <= 0 && configured >= MAX_DEEP_SLEEP_TIME_SEC ==>
      r.slept + r.rest == configured && r.rest >= 0
    ensures rest <= 0 && configured < MAX_DEEP_SLEEP_TIME_SEC ==> r == Step(configured, rest)
    ensures r.rest > 0 ==> r.slept == MAX_DEEP_SLEEP_TIME_SEC
  {
    var secs := if rest > 0 then rest else configured;
    var rest1 := if rest > 0 && secs < MAX_DEEP_SLEEP_TIME_SEC then 0 else rest;
    if secs >= MAX_DEEP_SLEEP_TIME_SEC then
      var excess := secs - MAX_DEEP_SLEEP_TIME_SEC;
      Step(MAX_DEEP_SLEEP_TIME_SEC, if excess < 0 then 0 else excess)
    else
      Step(secs, rest1)
  }

  /** `n` successive sleeps, each one starting from the remainder the one before left. */
  function Run(rest: int, configured: int, n: nat): seq<Step>
    decreases n
  {
    if n == 0 then []
    else
      var st := SleepStep(rest, configured);
      [st] + Run(st.rest, configured, n - 1)
  }

  /** How many sleeps of at most an hour a total of `t` seconds takes. */
  function StepsFor(t: int): nat
    decreases t
  {
    if t <= MAX_DEEP_SLEEP_TIME_SEC then 1 else 1 + StepsFor(t - MAX_DEEP_SLEEP_TIME_SEC)
  }

  function SleptSum(run: seq<Step>): int {
    if run == [] then 0 else run[0].slept + SleptSum(run[1..])
  }

  /** Every sleep of the run is positive and at most an hour. */
  predicate Bounded(run: seq<Step>) {
    forall i :: 0 <= i < |run| ==> 0 < run[i].slept <= MAX_DEEP_SLEEP_TIME_SEC
  }

  /** Every sleep but the last leaves a remainder, so the box goes straight back to sleep. */
  predicate Chained(run: seq<Step>) {
    forall i :: 0 <= i < |run| - 1 ==> run[i].rest > 0
  }

  /**
    * A pending remainder of `t` seconds is slept off in StepsFor(t) sleeps of
    * at most an hour that add up to `t`, leaving no remainder.
    */
  lemma {:induction false} RemainderDrains(t: int, configured: int)
    requires t > 0
    ensures var run := Run(t, configured, StepsFor(t));
      && |run| == StepsFor(t)
      && SleptSum(run) == t
      && Bounded(run) && Chained(run)
      && run[|run| - 1].rest == 0
    decreases t
  {
    var st := SleepStep(t, configured);
    var run := Run(t, configured, StepsFor(t));
    if t <= MAX_DEEP_SLEEP_TIME_SEC {
      assert StepsFor(t) == 1;
      assert Run(st.rest, configured, 0) == [];
      assert run == [st];
      assert st == Step(t, 0);
    } else {
      assert st == Step(MAX_DEEP_SLEEP_TIME_SEC, t - MAX_DEEP_SLEEP_TIME_SEC);
      var tail := Run(st.rest, configured, StepsFor(st.rest));
      RemainderDrains(st.rest, configured);
      assert run == [st] + tail;
      PrependStep(st, tail);
    }
  }

  /** A full sleep that leaves a remainder, in front of a run that drains it. */
  lemma PrependStep(st: Step, tail: seq<Step>)
    requires 0 < st.slept <= MAX_DEEP_SLEEP_TIME_SEC && st.rest > 0
    requires tail != [] && Bounded(tail) && Chained(tail)
    ensures SleptSum([st] + tail) == st.slept + SleptSum(tail)
    ensures Bounded([st] + tail) && Chained([st] + tail)
    ensures ([st] + tail)[|tail|] == tail[|tail| - 1]
  {
    var run := [st] + tail;
    assert run[1..] == tail;
    forall i | 1 <= i < |run|
      ensures run[i] == tail[i - 1]
    {
    }
  }

  /**
    * A configured sleep of `c` seconds with no remainder pending: the same
    * split into steps of at most an hour adding up to `c`.
    */
  lemma ConfiguredDrains(rest: int, c: int)
    requires rest <= 0 && c > 0
    ensures var run := Run(rest, c, StepsFor(c));
      && SleptSum(run) == c
      && Bounded(run) && Chained(run)
      && run[|run| - 1].rest == (if c < MAX_DEEP_SLEEP_TIME_SEC then rest else 0)
  {
    var st := SleepStep(rest, c);
    var run := Run(rest, c, StepsFor(c));
    if c <= MAX_DEEP_SLEEP_TIME_SEC {
      assert StepsFor(c) == 1;
      assert Run(st.rest, c, 0) == [];
      assert run == [st];
    } else {
      assert st == Step(MAX_DEEP_SLEEP_TIME_SEC, c - MAX_DEEP_SLEEP_TIME_SEC);
      var tail := Run(st.rest, c, StepsFor(st.rest));
      RemainderDrains(st.rest, c);
      assert StepsFor(c) == 1 + StepsFor(st.rest);
      assert run == [st] + tail;
      PrependStep(st, tail);
    }
  }

  /** Three hours and ten seconds: three full hours, then ten seconds. */
  lemma ThreeHoursAndTenSeconds()
    ensures Run(0, 3 * MAX_DEEP_SLEEP_TIME_SEC + 10, 4) == [
      Step(MAX_DEEP_SLEEP_TIME_SEC, 2 * MAX_DEEP_SLEEP_TIME_SEC + 10),
      Step(MAX_DEEP_SLEEP_TIME_SEC, MAX_DEEP_SLEEP_TIME_SEC + 10),
      Step(MAX_DEEP_SLEEP_TIME_SEC, 10),
      Step(10, 0)]
  {
    var c := 3 * MAX_DEEP_SLEEP_TIME_SEC + 10;
    assert Run(0, c, 1) == [Step(MAX_DEEP_SLEEP_TIME_SEC, 2 * MAX_DEEP_SLEEP_TIME_SEC + 10)] + Run(2 * MAX_DEEP_SLEEP_TIME_SEC + 10, c, 0);
    assert Run(2 * MAX_DEEP_SLEEP_TIME_SEC + 10, c, 3)
        == [Step(MAX_DEEP_SLEEP_TIME_SEC, MAX_DEEP_SLEEP_TIME_SEC + 10)] + Run(MAX_DEEP_SLEEP_TIME_SEC + 10, c, 2);
    assert Run(MAX_DEEP_SLEEP_TIME_SEC + 10, c, 2) == [Step(MAX_DEEP_SLEEP_TIME_SEC, 10)] + Run(10, c, 1);
    assert Run(10, c, 1) == [Step(10, 0)] + Run(0, c, 0);
  }

  /** A pending remainder decides alone: the box sleeps whatever the options say. */
  lemma RemainderForcesSleep(rest: int, enabled: bool, activeSum: int, awake: int, activeTimeSec: int)
    requires rest > 0
    ensures SleepDue(rest, enabled, activeSum, awake, activeTimeSec)
  {
  }

  /** No deep sleep in the first two minutes of cumulative active time, unless a remainder is pending. */
  lemma GracePeriod(rest: int, enabled: bool, activeSum: int, awake: int, activeTimeSec: int)
    requires rest <= 0 && activeSum <= NO_DEEP_SLEEP_STARTUP_TIME
    ensures !SleepDue(rest, enabled, activeSum, awake, activeTimeSec)
  {
  }

  /**
    * With deep sleep on and no remainder pending, the countdown that
    * updateTimeToSleep shows agrees with haveToSleep: a negative countdown
    * means sleep is due, and a due sleep never shows a positive countdown.
    * A zero countdown is the one boundary where they differ: at exactly two
    * minutes of active time the countdown has run out, but haveToSleep waits
    * for the next second.
    */
  lemma CountdownAgrees(rest: int, activeSum: int, awake: int, activeTimeSec: int)
    requires rest <= 0
    ensures TimeToSleep(true, activeSum, awake, activeTimeSec) < 0 ==>
      SleepDue(rest, true, activeSum, awake, activeTimeSec)
    ensures SleepDue(rest, true, activeSum, awake, activeTimeSec) ==>
      TimeToSleep(true, activeSum, awake, activeTimeSec) <= 0
    ensures TimeToSleep(true, activeSum, awake, activeTimeSec) == 0 ==>
      (SleepDue(rest, true, activeSum, awake, activeTimeSec) <==> activeSum > NO_DEEP_SLEEP_STARTUP_TIME)
  {
  }

  /**
    * The countdown with deep sleep on is the later of the two deadlines:
    * never before either of them, and equal to one of them.
    */
  lemma CountdownIsLaterDeadline(activeSum: int, awake: int, activeTimeSec: int)
    ensures var r := TimeToSleep(true, activeSum, awake, activeTimeSec);
      && r >= activeTimeSec - awake
      && r >= NO_DEEP_SLEEP_STARTUP_TIME - activeSum
      && (r == activeTimeSec - awake || r == NO_DEEP_SLEEP_STARTUP_TIME - activeSum)
  {
  }

  /**
    * The standard cycle: one minute active, fifteen minutes asleep, deep
    * sleep on, past the grace period. After 61 seconds awake the box sleeps
    * for exactly 900 seconds and leaves no remainder.
    */
  lemma StandardCycle(activeSum: int)
    requires activeSum > NO_DEEP_SLEEP_STARTUP_TIME
    ensures SleepDue(0, true, activeSum, 61, 60)
    ensures SleepStep(0, 900) == Step(900, 0)
  {
  }

  /** begin on images: a block that passes isValid replaces the current one, any other is ignored. */
  function Restore(crc32: Crc32, current: RtcImage, read: RtcImage): RtcImage {
    if Sealed(crc32, read) then read else current
  }

  class MyDeepSleep {
    const options: Options.Options
    const data: MyData

    constructor (options: Options.Options, data: MyData)
      ensures this.options == options && this.data == data
    {
      this.options := options;
      this.data := data;
    }

    /**
      * haveToSleep on the current options and data at time `millis`: a
      * pending remainder forces sleep; without one, deep sleep must be on,
      * more than two minutes of cumulative active time must have passed and
      * this wake cycle's active time must be used up, all three.
      */
    function HaveToSleep(millis: Millis): (due: bool)
      reads this, options, data, data.rtcData
      ensures data.rtcData.deepSleepTimeRestSec > 0 ==> due
      ensures data.rtcData.deepSleepTimeRestSec <= 0 ==>
        (due <==>
           && options.isDeepSleepEnabled
           && data.ActiveTimeSumSec(millis) > NO_DEEP_SLEEP_STARTUP_TIME
           && ActiveTimeSec(millis) - data.awakeTimeOffsetSec >= options.activeTimeSec)
    {
      SleepDue(data.rtcData.deepSleepTimeRestSec, options.isDeepSleepEnabled,
               data.ActiveTimeSumSec(millis), ActiveTimeSec(millis) - data.awakeTimeOffsetSec,
               options.activeTimeSec)
    }

    /** updateTimeToSleep: store the countdown; nothing else changes. */
    method UpdateTimeToSleep(millis: Millis)
      modifies data`secondsToDeepSleep
      ensures data.secondsToDeepSleep ==
        TimeToSleep(options.isDeepSleepEnabled, data.ActiveTimeSumSec(millis),
                    ActiveTimeSec(millis) - data.awakeTimeOffsetSec, options.activeTimeSec)
    {
      data.secondsToDeepSleep := -1;
      if options.isDeepSleepEnabled {
        var activeTimeSec := ActiveTimeSec(millis) - data.awakeTimeOffsetSec;
        data.secondsToDeepSleep := Max(options.activeTimeSec - activeTimeSec,
                                       NO_DEEP_SLEEP_STARTUP_TIME - data.ActiveTimeSumSec(millis));
      }
    }

    /**
      * sleep, up to the write of the RTC block: decide the length of this
      * sleep and the remainder, add this cycle's active time and the sleep to
      * the sums, seal the block. Returns the seconds to sleep and the block
      * written to the RTC memory.
      */
    method Sleep(millis: Millis, crc32: Crc32) returns (sleptSec: int, written: RtcImage)
      modifies data.rtcData
      ensures var st := SleepStep(old(data.rtcData.deepSleepTimeRestSec), options.deepSleepTimeSec);
        && sleptSec == st.slept
        && data.rtcData.Image() == Seal(crc32, old(data.rtcData.Image()).(
             activeTimeSumSec := old(data.ActiveTimeSumSec(millis)),
             deepSleepTimeSumSec := old(data.DeepSleepTimeSumSec()) + st.slept,
             deepSleepTimeRestSec := st.rest))
      ensures data.DeepSleepTimeSumSec() == old(data.DeepSleepTimeSumSec()) + sleptSec
      ensures data.rtcData.IsValid(crc32)
      ensures written == data.rtcData.Image()
    {
      var rtc := data.rtcData;
      var deepSleepTimeSec := options.deepSleepTimeSec;
      if rtc.deepSleepTimeRestSec > 0 {
        deepSleepTimeSec := rtc.deepSleepTimeRestSec;
        if deepSleepTimeSec < MAX_DEEP_SLEEP_TIME_SEC {
          rtc.deepSleepTimeRestSec := 0;
        }
      }
      if deepSleepTimeSec >= MAX_DEEP_SLEEP_TIME_SEC {
        var excess := deepSleepTimeSec - MAX_DEEP_SLEEP_TIME_SEC;
        if excess < 0 {
          excess := 0;
        }
        rtc.deepSleepTimeRestSec := excess;
        deepSleepTimeSec := MAX_DEEP_SLEEP_TIME_SEC;
      }
      rtc.activeTimeSumSec := rtc.activeTimeSumSec + ActiveTimeSec(millis);
      rtc.deepSleepTimeSumSec := rtc.deepSleepTimeSumSec + deepSleepTimeSec;
      rtc.SetCrc(crc32);
      written := rtc.Image();
      sleptSec := deepSleepTimeSec;
    }

    /**
      * begin: a fresh RtcData overwritten with the block read from the RTC
      * memory is adopted when its checksum matches; begin always succeeds.
      */
    method Begin(read: RtcImage, crc32: Crc32) returns (ok: bool)
      modifies data.rtcData
      ensures ok
      ensures data.rtcData.Image() == Restore(crc32, old(data.rtcData.Image()), read)
    {
      var candidate := new RtcData(crc32);
      candidate.Assign(read);
      if candidate.IsValid(crc32) {
        data.rtcData.Assign(candidate.Image());
      }
      ok := true;
    }
  }

  /**
    * The block sleep writes passes the check begin makes after the wake-up,
    * so the counters and the remainder survive the sleep.
    */
  lemma WrittenBlockRestored(crc32: Crc32, current: RtcImage, img: RtcImage)
    ensures Restore(crc32, current, Seal(crc32, img)) == Seal(crc32, img)
  {
  }

  /** A block whose checksum does not match (after power-on, say) leaves the data as it was. */
  lemma InvalidBlockIgnored(crc32: Crc32, current: RtcImage, read: RtcImage)
    requires read.crcValue != CrcOf(crc32, read)
    ensures Restore(crc32, current, read) == current
  {
  }
}
