/** The gated frame clock of the current runtime: a `MonotonicFrameClock`
    that is either running or stopped. Requests for a frame made while it
    runs put a token into a conflated mailbox that a pump drains, one frame
    per token; requests made while it is stopped wait for the next rising
    edge of `isRunning`, which sends a frame directly. Frame times are the
    raw clock reading plus an offset that breaks ties between frames sent at
    the same raw time. The raw reading (`nanoTime()`) is a parameter. */
module GatedClock {
  import opened Compose

  /** The outcome of the tie-break in `sendFrame`: the offset added to the
      raw time, and the new `lastNanos` and `lastOffset`. */
  datatype TieBreakResult = TieBreakResult(offset: int, lastNanos: int, lastOffset: int)

  /** `sendFrame`'s tie-break: a raw time equal to `lastNanos` gets the
      previous offset plus one; any other raw time becomes `lastNanos` and
      gets offset zero. Either way `lastOffset` becomes the offset used. */
  function TieBreak(raw: int, lastNanos: int, lastOffset: int): (r: TieBreakResult)
    ensures r.offset == (if raw == lastNanos then lastOffset + 1 else 0)
    ensures r.lastNanos == raw
    ensures r.lastOffset == r.offset
  {
    var offset := if raw == lastNanos then lastOffset + 1 else 0;
    var nanos := if raw == lastNanos then lastNanos else raw;
    TieBreakResult(offset, nanos, offset)
  }

  /** The frame times sent by successive `sendFrame` calls that read the raw
      times `raws`, starting from the given `lastNanos` and `lastOffset`. */
  function Stamps(lastNanos: int, lastOffset: int, raws: seq<int>): (r: seq<int>)
    ensures |r| == |raws|
    decreases |raws|
  {
    if raws == [] then []
    else
      var t := TieBreak(raws[0], lastNanos, lastOffset);
      [raws[0] + t.offset] + Stamps(t.lastNanos, t.lastOffset, raws[1..])
  }

  predicate StrictlyIncreasing(s: seq<int>)
  {
    forall i, j :: 0 <= i < j < |s| ==> s[i] < s[j]
  }

  /** No frame time is below its raw time, as long as the carried offset is
      not negative (it starts at zero). */
  lemma {:induction false} StampsNotBelowRaw(lastNanos: int, lastOffset: int, raws: seq<int>)
    requires lastOffset >= 0
    ensures forall i :: 0 <= i < |raws| ==> Stamps(lastNanos, lastOffset, raws)[i] >= raws[i]
    decreases |raws|
  {
    if raws != [] {
      var t := TieBreak(raws[0], lastNanos, lastOffset);
      StampsNotBelowRaw(t.lastNanos, t.lastOffset, raws[1..]);
      var s := Stamps(lastNanos, lastOffset, raws);
      forall i | 0 <= i < |raws|
        ensures s[i] >= raws[i]
      {
        if i > 0 {
          assert s[i] == Stamps(t.lastNanos, t.lastOffset, raws[1..])[i - 1];
        }
      }
    }
  }

  /** Frames sent at one raw time `raw` get the times `raw + k`, `raw + k + 1`,
      ... for consecutive `k`: strictly increasing, whatever the previous
      state was. */
  lemma {:induction false} SameRawStamps(lastNanos: int, lastOffset: int, raw: int, n: nat)
    ensures var s := Stamps(lastNanos, lastOffset, seq(n, _ => raw));
      forall i :: 0 <= i < n ==>
        s[i] == raw + (if raw == lastNanos then lastOffset + 1 + i else i)
    decreases n
  {
    if n > 0 {
      var raws := seq(n, _ => raw);
      assert raws[0] == raw && raws[1..] == seq(n - 1, _ => raw);
      var t := TieBreak(raw, lastNanos, lastOffset);
      SameRawStamps(t.lastNanos, t.lastOffset, raw, n - 1);
      var s := Stamps(lastNanos, lastOffset, raws);
      var rest := Stamps(t.lastNanos, t.lastOffset, raws[1..]);
      assert s == [raw + t.offset] + rest;
      forall i | 0 <= i < n
        ensures s[i] == raw + (if raw == lastNanos then lastOffset + 1 + i else i)
      {
        if i > 0 {
          assert rest == Stamps(t.lastNanos, t.lastOffset, seq(n - 1, _ => raw));
          assert rest[i - 1] == raw + t.lastOffset + 1 + (i - 1);
          assert s[i] == rest[i - 1];
        }
      }
    }
  }

  /** The condition under which the "always increases" comment of
      `sendFrame` holds: each raw time either repeats the previous one or
      exceeds the previous frame time (previous raw plus previous offset). */
  predicate Orderly(lastNanos: int, lastOffset: int, raws: seq<int>)
    decreases |raws|
  {
    raws == [] ||
    ((raws[0] == lastNanos || raws[0] > lastNanos + lastOffset) &&
     var t := TieBreak(raws[0], lastNanos, lastOffset);
     Orderly(t.lastNanos, t.lastOffset, raws[1..]))
  }

  /** Under `Orderly` the frame times strictly increase, each beyond the
      previous frame time `lastNanos + lastOffset`. */
  lemma {:induction false} OrderlyStampsIncrease(lastNanos: int, lastOffset: int, raws: seq<int>)
    requires Orderly(lastNanos, lastOffset, raws)
    ensures StrictlyIncreasing(Stamps(lastNanos, lastOffset, raws))
    ensures forall i :: 0 <= i < |raws| ==> Stamps(lastNanos, lastOffset, raws)[i] > lastNanos + lastOffset
    decreases |raws|
  {
    if raws != [] {
      var t := TieBreak(raws[0], lastNanos, lastOffset);
      var rest := Stamps(t.lastNanos, t.lastOffset, raws[1..]);
      OrderlyStampsIncrease(t.lastNanos, t.lastOffset, raws[1..]);
      var s := Stamps(lastNanos, lastOffset, raws);
      assert s == [raws[0] + t.offset] + rest;
      assert s[0] == t.lastNanos + t.lastOffset;
      assert s[0] > lastNanos + lastOffset;
    }
  }

  /** Without `Orderly` the frame times need not increase: raw times 5, 5, 6
      from a new clock give frame times 5, 6, 6. */
  lemma UnorderedRawTimesRepeatAStamp()
    ensures Stamps(0, 0, [5, 5, 6]) == [5, 6, 6]
    ensures !Orderly(0, 0, [5, 5, 6])
  {
  }

  /** `GatedFrameClock`. `frameSends` is the `Channel(CONFLATED)` mailbox:
      it holds at most one token, so it is a flag. */
  class GatedFrameClock {
    var isRunning: bool
    var lastNanos: int
    var lastOffset: int
    var frameSends: bool
    const clock: BroadcastFrameClock

    ghost predicate Valid()
      reads this
    {
      lastOffset >= 0
    }

    /** A new clock runs, with `lastNanos = 0`, `lastOffset = 0` and an empty
        mailbox; launching the pump loop into the scope sends nothing yet. */
    constructor ()
      ensures Valid() && fresh(clock)
      ensures isRunning && lastNanos == 0 && lastOffset == 0 && !frameSends
      ensures clock.awaiters == 0 && clock.frames == [] && clock.resumed == []
    {
      isRunning := true;
      lastNanos := 0;
      lastOffset := 0;
      frameSends := false;
      clock := new BroadcastFrameClock();
    }

    /** The private `sendFrame()`, reading the raw time `raw`. */
    method SendFrame(raw: int)
      requires Valid()
      modifies this, clock
      ensures Valid()
      ensures var t := TieBreak(raw, old(lastNanos), old(lastOffset));
        && lastNanos == t.lastNanos && lastOffset == t.lastOffset
        && clock.frames == old(clock.frames) + [raw + t.offset]
      ensures clock.resumed == old(clock.resumed) + [old(clock.awaiters)] && clock.awaiters == 0
      ensures isRunning == old(isRunning) && frameSends == old(frameSends)
    {
      var offset: int;
      if raw == lastNanos {
        offset := lastOffset + 1;
      } else {
        lastNanos := raw;
        offset := 0;
      }
      lastOffset := offset;
      clock.SendFrame(raw + offset);
    }

    /** The `isRunning` setter: on a rising edge it sends exactly one frame
        directly; any other assignment sends nothing. */
    method SetRunning(value: bool, raw: int)
      requires Valid()
      modifies this, clock
      ensures Valid()
      ensures isRunning == value && frameSends == old(frameSends)
      ensures value && !old(isRunning) ==>
        var t := TieBreak(raw, old(lastNanos), old(lastOffset));
        && lastNanos == t.lastNanos && lastOffset == t.lastOffset
        && clock.frames == old(clock.frames) + [raw + t.offset]
        && clock.resumed == old(clock.resumed) + [old(clock.awaiters)] && clock.awaiters == 0
      ensures !(value && !old(isRunning)) ==>
        lastNanos == old(lastNanos) && lastOffset == old(lastOffset)
        && clock.frames == old(clock.frames) && clock.resumed == old(clock.resumed)
        && clock.awaiters == old(clock.awaiters)
    {
      var started := value && !isRunning;
      isRunning := value;
      if started {
        SendFrame(raw);
      }
    }

    /** `withFrameNanos`: delegates to the inner clock. When the caller is the
        first awaiter the inner clock calls back, and the callback posts a
        token only while the clock runs; a stopped clock records nothing and
        the awaiter waits for the next rising edge. */
    method WithFrameNanos()
      requires Valid()
      modifies this, clock
      ensures Valid()
      ensures clock.awaiters == old(clock.awaiters) + 1
      ensures clock.frames == old(clock.frames) && clock.resumed == old(clock.resumed)
      ensures frameSends == (old(frameSends) || (old(clock.awaiters) == 0 && isRunning))
      ensures isRunning == old(isRunning) && lastNanos == old(lastNanos) && lastOffset == old(lastOffset)
    {
      var first := clock.AddAwaiter();
      if first && isRunning {
        frameSends := true;
      }
    }

    /** One turn of the pump `for (send in frameSends) sendFrame()`: a token
        in the mailbox is drained and one frame is sent, whether or not the
        clock still runs; with no token the pump stays suspended. */
    method PumpStep(raw: int) returns (sent: bool)
      requires Valid()
      modifies this, clock
      ensures Valid()
      ensures sent == old(frameSends) && !frameSends && isRunning == old(isRunning)
      ensures sent ==>
        var t := TieBreak(raw, old(lastNanos), old(lastOffset));
        && lastNanos == t.lastNanos && lastOffset == t.lastOffset
        && clock.frames == old(clock.frames) + [raw + t.offset]
        && clock.resumed == old(clock.resumed) + [old(clock.awaiters)] && clock.awaiters == 0
      ensures !sent ==>
        lastNanos == old(lastNanos) && lastOffset == old(lastOffset)
        && clock.frames == old(clock.frames) && clock.resumed == old(clock.resumed)
        && clock.awaiters == old(clock.awaiters)
    {
      sent := frameSends;
      if sent {
        frameSends := false;
        SendFrame(raw);
      }
    }
  }

  /** Several awaiters that arrive while the clock is stopped share one frame:
      the rising edge sends a single frame that resumes all of them. Requests
      made while running coalesce into one token. */
  method CoalescingScenario(raw: int)
  {
    var c := new GatedFrameClock();
    c.SetRunning(false, raw);
    c.WithFrameNanos();
    c.WithFrameNanos();
    c.WithFrameNanos();
    assert !c.frameSends && c.clock.frames == [];
    c.SetRunning(true, raw);
    assert c.clock.frames == [raw + (if raw == 0 then 1 else 0)];
    assert c.clock.resumed == [3];

    c.WithFrameNanos();
    c.WithFrameNanos();
    assert c.frameSends;
    var sent := c.PumpStep(raw);
    assert sent && c.clock.resumed == [3, 2];
    sent := c.PumpStep(raw);
    assert !sent && |c.clock.frames| == 2;
  }
}
