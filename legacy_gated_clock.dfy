/** The gated frame clock of the earlier runtime. It has no mailbox and no
    tie-break: a request for a frame made while running is answered by a
    synchronous frame, a rising edge of `isRunning` sends one frame, and a
    frame's time is the nanoseconds elapsed since the clock was created.
    The monotonic time source is a parameter (`now`). */
module LegacyGatedClock {
  import opened Compose

  /** The frame time the clock sends at instant `now`. */
  function FrameTime(start: int, now: int): (t: int)
    ensures t + start == now
  {
    now - start
  }

  /** Frame times follow the time source: a later instant never gives an
      earlier frame time, and frames sent at the same instant get the same
      time (there is no tie-break in this version). */
  lemma FrameTimesFollowTheSource(start: int, now1: int, now2: int)
    ensures now1 <= now2 <==> FrameTime(start, now1) <= FrameTime(start, now2)
    ensures now1 == now2 <==> FrameTime(start, now1) == FrameTime(start, now2)
  {
  }

  /** `GatedFrameClock` of the earlier runtime. */
  class GatedFrameClock {
    var isRunning: bool
    /** `TimeSource.Monotonic.markNow()` at construction. */
    const start: int
    const clock: BroadcastFrameClock

    /** A new clock runs. */
    constructor (now: int)
      ensures isRunning && start == now && fresh(clock)
      ensures clock.awaiters == 0 && clock.frames == [] && clock.resumed == []
    {
      isRunning := true;
      start := now;
      clock := new BroadcastFrameClock();
    }

    /** The private `sendFrame()`. */
    method SendFrame(now: int)
      modifies clock
      ensures clock.frames == old(clock.frames) + [FrameTime(start, now)]
      ensures clock.resumed == old(clock.resumed) + [old(clock.awaiters)] && clock.awaiters == 0
    {
      clock.SendFrame(now - start);
    }

    /** The `isRunning` setter: a false-to-true transition sends exactly one
        frame; every other assignment only stores the flag. */
    method SetRunning(value: bool, now: int)
      modifies this, clock
      ensures isRunning == value
      ensures value && !old(isRunning) ==>
        && clock.frames == old(clock.frames) + [FrameTime(start, now)]
        && clock.resumed == old(clock.resumed) + [old(clock.awaiters)] && clock.awaiters == 0
      ensures !(value && !old(isRunning)) ==>
        clock.frames == old(clock.frames) && clock.resumed == old(clock.resumed)
        && clock.awaiters == old(clock.awaiters)
    {
      var started := value && !isRunning;
      isRunning := value;
      if started {
        SendFrame(now);
      }
    }

    /** `withFrameNanos` delegates to the inner clock. When the caller is the
        first awaiter the inner clock calls back, and while running the
        callback sends a frame synchronously, resuming that caller at once;
        while stopped nothing is sent and the caller waits for the next
        rising edge. */
    method WithFrameNanos(now: int)
      modifies clock
      ensures old(clock.awaiters) == 0 && isRunning ==>
        && clock.frames == old(clock.frames) + [FrameTime(start, now)]
        && clock.resumed == old(clock.resumed) + [1] && clock.awaiters == 0
      ensures !(old(clock.awaiters) == 0 && isRunning) ==>
        && clock.frames == old(clock.frames) && clock.resumed == old(clock.resumed)
        && clock.awaiters == old(clock.awaiters) + 1
    {
      var first := clock.AddAwaiter();
      if first && isRunning {
        SendFrame(now);
      }
    }
  }

  /** While running, every request is served on the spot; while stopped,
      requests pile up and the rising edge serves them with one frame. */
  method GatingScenario()
  {
    var c := new GatedFrameClock(100);
    c.WithFrameNanos(150);
    assert c.clock.frames == [50] && c.clock.resumed == [1];
    c.SetRunning(false, 160);
    c.WithFrameNanos(170);
    c.WithFrameNanos(180);
    assert c.clock.frames == [50] && c.clock.awaiters == 2;
    c.SetRunning(true, 200);
    assert c.clock.frames == [50, 100] && c.clock.resumed == [1, 2];
    c.SetRunning(true, 210);
    assert |c.clock.frames| == 2;
  }
}
