/** The test harness shared by `testMolecule` and the earlier
    `launchMoleculeForTest`: the `Event` type, the unlimited `events`
    channel, the emitter and exception handler that fill it, and
    `TickOnDemandMoleculeTurbine`, which advances a `BroadcastFrameClock` on
    demand and matches the head event. Both harness files declare these
    identically. What the molecule produces while the clock advances is a
    parameter: the events that arrive during each pulse. */
module Turbine {
  import opened Kotlin
  import Compose

  /** `Event<T>`: an emitted item or a throwable the molecule raised. */
  datatype Event<+T> = Item(value: T) | Error(throwable: Throwable)

  /** `Event.toString()`: `Item(<value>)`, or `Error(<simple class name>)`.
      `show` is `T`'s own `toString`. */
  function EventString<T>(e: Event<T>, show: T -> string): (r: string)
  {
    match e
    case Item(v) => "Item(" + show(v) + ")"
    case Error(t) => "Error(" + t.simpleName + ")"
  }

  /** The rendering tells the two kinds apart and closes with a parenthesis. */
  lemma EventStringTellsKind<T>(e: Event<T>, show: T -> string)
    ensures |EventString(e, show)| >= 6 && EventString(e, show)[|EventString(e, show)| - 1] == ')'
    ensures EventString(e, show)[..5] == "Item(" <==> e.Item?
    ensures EventString(e, show)[..6] == "Error(" <==> e.Error?
  {
    var r := EventString(e, show);
    if e.Item? {
      assert r[..5] == "Item(";
      assert r[4] != "Error("[4];
    } else {
      assert r[..6] == "Error(";
      assert r[0] != "Item("[0];
    }
  }

  /** The message of `unexpectedEvent(event, expected)`. */
  function UnexpectedMessage<T>(event: Event<T>, expected: string, show: T -> string): (m: string)
  {
    "Expected " + expected + " but found " + EventString(event, show)
  }

  /** `unexpectedEvent`: an `AssertionError` naming what was expected and
      what was found, whose cause is the found throwable when the event is an
      `Error` and `null` otherwise. */
  method UnexpectedEvent<T>(event: Event<T>, expected: string, show: T -> string) returns (e: Throwable)
    ensures e.simpleName == "AssertionError"
    ensures e.message == UnexpectedMessage(event, expected, show)
    ensures event.Error? ==> e.cause == event.throwable
    ensures event.Item? ==> e.cause == null
  {
    var cause: Throwable? := if event.Error? then event.throwable else null;
    e := new Throwable("AssertionError", UnexpectedMessage(event, expected, show), cause);
  }

  /** The message a test sees when a `RuntimeException` arrives where an item
      was expected. */
  lemma ItemExpectedErrorFound(t: Throwable, show: int -> string)
    requires t.simpleName == "RuntimeException"
    ensures UnexpectedMessage(Error(t), "item", show) == "Expected item but found " + "Error(RuntimeException)"
  {
    var found := EventString(Error(t), show);
    assert found == "Error(RuntimeException)";
    assert UnexpectedMessage(Error(t), "item", show) == "Expected item but found " + found by {
      assert "Expected " + "item" + " but found " == "Expected item but found ";
    }
  }

  /** The message a test sees when `Unit` arrives where an error was
      expected. */
  lemma ErrorExpectedUnitFound()
    ensures UnexpectedMessage(Item(()), "error", (_: ()) => "kotlin.Unit")
            == "Expected error but found Item(kotlin.Unit)"
  {
  }

  /** The throwables of the `Error` events, in order. */
  function ErrorsOf<T>(events: seq<Event<T>>): (r: seq<Throwable>)
    ensures |r| <= |events|
  {
    if events == [] then []
    else (if events[0].Error? then [events[0].throwable] else []) + ErrorsOf(events[1..])
  }

  lemma {:induction false} ErrorsOfAppend<T>(a: seq<Event<T>>, b: seq<Event<T>>)
    ensures ErrorsOf(a + b) == ErrorsOf(a) + ErrorsOf(b)
    decreases |a|
  {
    if a == [] {
      assert a + b == b;
    } else {
      assert (a + b)[0] == a[0] && (a + b)[1..] == a[1..] + b;
      ErrorsOfAppend(a[1..], b);
    }
  }

  /** The throwables of the `Error` events other than `t`, in order: what
      draining adds to `t`'s suppressed list. */
  function SuppressibleErrors<T>(events: seq<Event<T>>, t: Throwable): seq<Throwable>
  {
    if events == [] then []
    else (if events[0].Error? && events[0].throwable != t then [events[0].throwable] else [])
         + SuppressibleErrors(events[1..], t)
  }

  /** Only `t` itself is left out: when `t` was never queued, draining
      suppresses every queued error. */
  lemma {:induction false} SuppressibleAreTheOtherErrors<T>(events: seq<Event<T>>, t: Throwable)
    ensures forall x :: x in SuppressibleErrors(events, t) <==> x in ErrorsOf(events) && x != t
    ensures (forall i :: 0 <= i < |events| ==> events[i] != Error(t)) ==>
              SuppressibleErrors(events, t) == ErrorsOf(events)
    decreases |events|
  {
    if events != [] {
      SuppressibleAreTheOtherErrors(events[1..], t);
      if forall i :: 0 <= i < |events| ==> events[i] != Error(t) {
        assert forall i :: 0 <= i < |events[1..]| ==> events[1..][i] == events[i + 1];
      }
    }
  }

  /** The events a molecule launch queues: an `Item` per value the emitter
      received, in order, then an `Error` carrying the very throwable that
      the launch raised, if it raised one. */
  function SetupEvents<T>(emissions: seq<T>, failure: Option<Throwable>): (r: seq<Event<T>>)
    ensures |r| == |emissions| + (if failure.Some? then 1 else 0)
    ensures forall i :: 0 <= i < |emissions| ==> r[i] == Item(emissions[i])
    ensures failure.Some? ==> r[|emissions|] == Error(failure.value)
  {
    seq(|emissions|, i requires 0 <= i < |emissions| => Item(emissions[i]))
    + (if failure.Some? then [Error(failure.value)] else [])
  }

  /** The only throwable a launch queues is the one it raised. */
  lemma SetupErrors<T>(emissions: seq<T>, failure: Option<Throwable>)
    ensures ErrorsOf(SetupEvents(emissions, failure)) == (if failure.Some? then [failure.value] else [])
  {
    var items := seq(|emissions|, i requires 0 <= i < |emissions| => Item(emissions[i]));
    assert SetupEvents(emissions, failure) == items + (if failure.Some? then [Error(failure.value)] else []);
    ErrorsOfAppend(items, if failure.Some? then [Error(failure.value)] else []);
    NoErrorsAmongItems(items);
    if failure.Some? {
      assert ErrorsOf<T>([Error(failure.value)]) == [failure.value];
    }
  }

  lemma {:induction false} NoErrorsAmongItems<T>(events: seq<Event<T>>)
    requires forall i :: 0 <= i < |events| ==> events[i].Item?
    ensures ErrorsOf(events) == []
    decreases |events|
  {
    if events != [] {
      assert forall i :: 0 <= i < |events[1..]| ==> events[1..][i] == events[i + 1];
      NoErrorsAmongItems(events[1..]);
    }
  }

  /** The `Channel<Event<T>>(UNLIMITED)` both sides share: sends never fail. */
  class EventChannel<T> {
    var queue: seq<Event<T>>

    constructor ()
      ensures queue == []
    {
      queue := [];
    }

    method Send(e: Event<T>)
      modifies this
      ensures queue == old(queue) + [e]
    {
      queue := queue + [e];
    }

    /** The events sent, one `send` after the other, while one pulse runs. */
    method SendAll(batch: seq<Event<T>>)
      modifies this
      ensures queue == old(queue) + batch
    {
      var k := 0;
      while k < |batch|
        invariant 0 <= k <= |batch|
        invariant queue == old(queue) + batch[..k]
      {
        Send(batch[k]);
        assert batch[..k + 1] == batch[..k] + [batch[k]];
        k := k + 1;
      }
      assert batch[..k] == batch;
    }

    method TryReceive() returns (r: Option<Event<T>>)
      modifies this
      ensures r.None? <==> old(queue) == []
      ensures r.Some? ==> r.value == old(queue)[0] && queue == old(queue)[1..]
      ensures r.None? ==> queue == old(queue)
    {
      if queue == [] {
        r := None;
      } else {
        r := Some(queue[0]);
        queue := queue[1..];
      }
    }
  }

  /** The emitter handed to `launchMolecule`: every value becomes an `Item`.
      The channel is unlimited, so the "Unable to send item" branch never
      runs. */
  method EmitItem<T>(events: EventChannel<T>, value: T)
    modifies events
    ensures events.queue == old(events.queue) + [Item(value)]
  {
    events.Send(Item(value));
  }

  /** The `catch` around the launch: the throwable becomes an `Error`. */
  method LaunchFailed<T>(events: EventChannel<T>, t: Throwable)
    modifies events
    ensures events.queue == old(events.queue) + [Error(t)]
  {
    events.Send(Error(t));
  }

  /** A launch whose first composition emitted `emissions` and which then
      raised `failure`, if any, queues exactly `SetupEvents`. */
  method Launch<T>(events: EventChannel<T>, emissions: seq<T>, failure: Option<Throwable>)
    modifies events
    ensures events.queue == old(events.queue) + SetupEvents(emissions, failure)
  {
    var i := 0;
    while i < |emissions|
      invariant 0 <= i <= |emissions|
      invariant events.queue == old(events.queue) + SetupEvents(emissions[..i], None)
    {
      EmitItem(events, emissions[i]);
      assert SetupEvents(emissions[..i + 1], None) == SetupEvents(emissions[..i], None) + [Item(emissions[i])];
      i := i + 1;
    }
    assert emissions[..i] == emissions;
    if failure.Some? {
      LaunchFailed(events, failure.value);
    }
  }

  /** `EventEmittingExceptionHandler`: an asynchronous failure of the
      molecule becomes an `Error` carrying the same throwable. */
  class EventEmittingExceptionHandler<T> {
    const events: EventChannel<T>

    constructor (events: EventChannel<T>)
      ensures this.events == events
    {
      this.events := events;
    }

    method HandleException(exception: Throwable)
      modifies events
      ensures events.queue == old(events.queue) + [Error(exception)]
    {
      events.Send(Error(exception));
    }
  }

  /** The concatenation of the arrival batches. */
  function Flatten<T>(batches: seq<seq<T>>): seq<T>
  {
    if batches == [] then [] else Flatten(batches[..|batches| - 1]) + batches[|batches| - 1]
  }

  /** What arrives during the `k`-th pulse; nothing once the batches run out. */
  function ArrivalAt<T>(arrivals: seq<seq<T>>, k: nat): seq<T>
  {
    if k < |arrivals| then arrivals[k] else []
  }

  /** What has arrived after `k` pulses. */
  function ArrivedAfter<T>(arrivals: seq<seq<T>>, k: nat): seq<T>
  {
    Flatten(arrivals[..if k < |arrivals| then k else |arrivals|])
  }

  lemma ArrivedAfterNext<T>(arrivals: seq<seq<T>>, k: nat)
    ensures ArrivedAfter(arrivals, k + 1) == ArrivedAfter(arrivals, k) + ArrivalAt(arrivals, k)
  {
    if k < |arrivals| {
      assert arrivals[..k + 1][..k] == arrivals[..k];
    }
  }

  /** One more pulse adds two frames to the `2 * pulses` already sent. */
  lemma TwoMoreFrames(frames: seq<int>, pulses: nat)
    ensures frames + seq(2 * pulses, _ => 0) + [0, 0] == frames + seq(2 * (pulses + 1), _ => 0)
  {
    assert seq(2 * pulses, _ => 0) + [0, 0] == seq(2 * (pulses + 1), _ => 0);
  }

  /** The outcome of a suspending call under `withTimeout`: a value, a
      raised throwable, or a call that never returns (the do-while keeps
      pulsing the clock). */
  datatype Outcome<+T> = Got(value: T) | Failed(error: Throwable) | NeverReturns

  /** `TickOnDemandMoleculeTurbine`. `timeout` is in milliseconds; zero
      means no limit. */
  class TickOnDemandMoleculeTurbine<T> {
    const events: EventChannel<T>
    const clock: Compose.BroadcastFrameClock
    const timeout: nat
    const show: T -> string

    constructor (events: EventChannel<T>, clock: Compose.BroadcastFrameClock, timeout: nat, show: T -> string)
      ensures this.events == events && this.clock == clock && this.timeout == timeout && this.show == show
    {
      this.events := events;
      this.clock := clock;
      this.timeout := timeout;
      this.show := show;
    }

    /** `awaitFrame`: twice, an awaiter is launched undispatched and then
        `sendFrame(0L)` resumes it together with every other awaiter. The
        first frame resumes the awaiters already waiting; `between` more
        (the frame loops that re-register as soon as they are resumed)
        suspend before the second. */
    method AwaitFrame(between: nat)
      modifies clock
      ensures clock.frames == old(clock.frames) + [0, 0]
      ensures clock.resumed == old(clock.resumed) + [old(clock.awaiters) + 1, between + 1]
      ensures clock.awaiters == 0
    {
      var k := 0;
      while k < 2
        invariant 0 <= k <= 2
        invariant clock.frames == old(clock.frames) + seq(k, _ => 0)
        invariant k == 0 ==> clock.awaiters == old(clock.awaiters) && clock.resumed == old(clock.resumed)
        invariant k == 1 ==> clock.awaiters == 0 && clock.resumed == old(clock.resumed) + [old(clock.awaiters) + 1]
        invariant k == 2 ==>
          clock.awaiters == 0 && clock.resumed == old(clock.resumed) + [old(clock.awaiters) + 1, between + 1]
      {
        if k == 1 {
          clock.AddAwaiters(between);
        }
        var first := clock.AddAwaiter();
        clock.SendFrame(0);
        k := k + 1;
      }
    }

    /** One pulse: the events sent while it runs reach the queue, then
        `awaitFrame` runs its two frames, with `between` awaiters
        registering between them. */
    method Pulse(batch: seq<Event<T>>, between: nat)
      modifies events, clock
      ensures events.queue == old(events.queue) + batch
      ensures clock.frames == old(clock.frames) + [0, 0]
    {
      events.SendAll(batch);
      AwaitFrame(between);
    }

    /** `awaitEvent`: a do-while that pulses (yield, then two frames) until
        the queue is non-empty, then takes its head. It pulses at least once
        even when an event is already queued, and stops at the first pulse
        after which one is. When the arrivals run out first, the call times
        out, or under a zero timeout never returns, pulsing the clock on
        every turn. `reRegistered[k]` awaiters register between the two
        frames of pulse `k` (none after the sequence ends). */
    method AwaitEvent(arrivals: seq<seq<Event<T>>>, reRegistered: seq<nat>) returns (r: Outcome<Event<T>>, pulses: nat)
      modifies events, clock
      ensures 1 <= pulses && (pulses == 1 || pulses <= |arrivals|)
      ensures clock.frames == old(clock.frames) + seq(2 * pulses, _ => 0)
      ensures var seen := old(events.queue) + ArrivedAfter(arrivals, pulses);
        && (r.Got? <==> seen != [])
        && (r.Got? ==> r.value == seen[0] && events.queue == seen[1..])
        && (!r.Got? ==> events.queue == [] && ArrivedAfter(arrivals, |arrivals|) == [])
      ensures pulses > 1 ==> old(events.queue) + ArrivedAfter(arrivals, pulses - 1) == []
      ensures r.Failed? <==> !r.Got? && timeout != 0
      ensures r.Failed? ==> r.error.simpleName == "TimeoutCancellationException"
    {
      pulses := 0;
      ghost var start := events.queue;
      while true
        invariant events.queue == start + ArrivedAfter(arrivals, pulses)
        invariant clock.frames == old(clock.frames) + seq(2 * pulses, _ => 0)
        invariant pulses > 1 ==> start + ArrivedAfter(arrivals, pulses - 1) == []
        invariant pulses == 0 || pulses == 1 || pulses <= |arrivals|
        decreases |arrivals| + 1 - pulses
      {
        if pulses > 0 && (events.queue != [] || pulses >= |arrivals|) {
          break;
        }
        Pulse(ArrivalAt(arrivals, pulses), if pulses < |reRegistered| then reRegistered[pulses] else 0);
        TwoMoreFrames(old(clock.frames), pulses);
        ArrivedAfterNext(arrivals, pulses);
        pulses := pulses + 1;
      }
      if events.queue == [] {
        assert pulses >= |arrivals|;
        assert ArrivedAfter(arrivals, |arrivals|) == ArrivedAfter(arrivals, pulses);
        if timeout == 0 {
          r := NeverReturns;
        } else {
          var e := new Throwable("TimeoutCancellationException", "", null);
          r := Failed(e);
        }
      } else {
        var head := events.TryReceive();
        r := Got(head.value);
      }
    }

    /** `awaitItem`: the head must be an `Item`, whose value is returned;
        an `Error` head raises the `AssertionError` of `unexpectedEvent`
        with that error's throwable as cause. */
    method AwaitItem(arrivals: seq<seq<Event<T>>>, reRegistered: seq<nat>) returns (r: Outcome<T>, pulses: nat)
      modifies events, clock
      ensures 1 <= pulses && (pulses == 1 || pulses <= |arrivals|)
      ensures clock.frames == old(clock.frames) + seq(2 * pulses, _ => 0)
      ensures var seen := old(events.queue) + ArrivedAfter(arrivals, pulses);
        && (seen != [] ==> events.queue == seen[1..])
        && (seen != [] && seen[0].Item? ==> r == Got(seen[0].value))
        && (seen != [] && seen[0].Error? ==>
              r.Failed? && r.error.simpleName == "AssertionError"
              && r.error.message == UnexpectedMessage(seen[0], "item", show)
              && r.error.cause == seen[0].throwable)
        && (seen == [] ==> events.queue == [] && (if timeout == 0 then r.NeverReturns? else r.Failed?))
    {
      var event;
      event, pulses := AwaitEvent(arrivals, reRegistered);
      match event {
        case Got(Item(v)) => r := Got(v);
        case Got(e) =>
          var error := UnexpectedEvent(e, "item", show);
          r := Failed(error);
        case Failed(t) => r := Failed(t);
        case NeverReturns => r := NeverReturns;
      }
    }

    /** `awaitError`: the head must be an `Error`, whose throwable (the very
        one the molecule raised) is returned; an `Item` head raises the
        `AssertionError` of `unexpectedEvent`, without a cause. */
    method AwaitError(arrivals: seq<seq<Event<T>>>, reRegistered: seq<nat>) returns (r: Outcome<Throwable>, pulses: nat)
      modifies events, clock
      ensures 1 <= pulses && (pulses == 1 || pulses <= |arrivals|)
      ensures clock.frames == old(clock.frames) + seq(2 * pulses, _ => 0)
      ensures var seen := old(events.queue) + ArrivedAfter(arrivals, pulses);
        && (seen != [] ==> events.queue == seen[1..])
        && (seen != [] && seen[0].Error? ==> r == Got(seen[0].throwable))
        && (seen != [] && seen[0].Item? ==>
              r.Failed? && r.error.simpleName == "AssertionError"
              && r.error.message == UnexpectedMessage(seen[0], "error", show)
              && r.error.cause == null)
        && (seen == [] ==> events.queue == [] && (if timeout == 0 then r.NeverReturns? else r.Failed?))
    {
      var event;
      event, pulses := AwaitEvent(arrivals, reRegistered);
      match event {
        case Got(Error(t)) => r := Got(t);
        case Got(e) =>
          var error := UnexpectedEvent(e, "error", show);
          r := Failed(error);
        case Failed(t) => r := Failed(t);
        case NeverReturns => r := NeverReturns;
      }
    }
  }
}
