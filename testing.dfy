/** `testMolecule`: launches the molecule on a fresh `BroadcastFrameClock`
    under a supervisor job, with emissions and failures redirected into the
    events channel, runs the validation against a
    `TickOnDemandMoleculeTurbine`, and, when the validation throws, drains
    the channel into the thrown error's suppressed list before rethrowing it.
    The molecule job is cancelled and joined on every exit. The validation
    lambda is external: what it throws, if anything, is a parameter. */
module Testing {
  import opened Kotlin
  import Compose
  import opened Turbine

  /** The default `timeout` of one second, in milliseconds. */
  const DefaultTimeout: nat := 1000

  /** The `catch` of `testMolecule`: takes every remaining event, in order,
      and adds each `Error`'s throwable to `t`'s suppressed list; `Item`s are
      dropped. */
  method DrainSuppressed<T>(events: EventChannel<T>, t: Throwable)
    modifies events, t
    ensures events.queue == []
    ensures t.suppressed == old(t.suppressed) + SuppressibleErrors(old(events.queue), t)
  {
    ghost var taken: seq<Event<T>> := [];
    while true
      invariant old(events.queue) == taken + events.queue
      invariant t.suppressed == old(t.suppressed) + SuppressibleErrors(taken, t)
      decreases |events.queue|
    {
      var event := events.TryReceive();
      if event.None? {
        break;
      }
      SuppressibleAppend(taken, [event.value], t);
      taken := taken + [event.value];
      match event.value {
        case Error(e) => var added := t.AddSuppressed(e);
        case Item(_) =>
      }
    }
    assert taken == old(events.queue);
  }

  lemma {:induction false} SuppressibleAppend<T>(a: seq<Event<T>>, b: seq<Event<T>>, t: Throwable)
    ensures SuppressibleErrors(a + b, t) == SuppressibleErrors(a, t) + SuppressibleErrors(b, t)
    decreases |a|
  {
    if a == [] {
      assert a + b == b;
    } else {
      var rest := a[1..];
      assert a + b != [] && (a + b)[0] == a[0] && (a + b)[1..] == rest + b;
      SuppressibleAppend(rest, b, t);
      var head := if a[0].Error? && a[0].throwable != t then [a[0].throwable] else [];
      assert SuppressibleErrors(a + b, t) == head + SuppressibleErrors(rest + b, t);
      assert SuppressibleErrors(a, t) == head + SuppressibleErrors(rest, t);
    }
  }

  /** One `testMolecule` call. */
  class MoleculeTest<T> {
    const events: EventChannel<T>
    const clock: Compose.BroadcastFrameClock
    const exceptionHandler: EventEmittingExceptionHandler<T>
    const turbine: TickOnDemandMoleculeTurbine<T>
    var moleculeJobCancelled: bool

    /** Everything up to `validate`: the first composition emitted
        `emissions`, and the launch then raised `failure`, if it did. */
    constructor (emissions: seq<T>, failure: Option<Throwable>, timeout: nat, show: T -> string)
      ensures fresh(events) && fresh(clock) && events.queue == SetupEvents(emissions, failure)
      ensures clock.frames == [] && clock.awaiters == 0
      ensures exceptionHandler.events == events
      ensures turbine.events == events && turbine.clock == clock && turbine.timeout == timeout
      ensures !moleculeJobCancelled
    {
      var ev := new EventChannel<T>();
      var c := new Compose.BroadcastFrameClock();
      exceptionHandler := new EventEmittingExceptionHandler(ev);
      Launch(ev, emissions, failure);
      turbine := new TickOnDemandMoleculeTurbine(ev, c, timeout, show);
      events := ev;
      clock := c;
      moleculeJobCancelled := false;
    }

    /** After `validate` returned (`thrown == None`) or threw: a throwable is
        rethrown unchanged, after the queued errors other than itself were
        added to its suppressed list; the job is cancelled either way. */
    method Finish(thrown: Option<Throwable>) returns (r: Result<()>)
      modifies this, events, if thrown.Some? then {thrown.value} else {}
      ensures moleculeJobCancelled
      ensures r.Ok? <==> thrown.None?
      ensures thrown.None? ==> events.queue == old(events.queue)
      ensures thrown.Some? ==>
        && r.error == thrown.value && events.queue == []
        && thrown.value.suppressed == old(thrown.value.suppressed) + SuppressibleErrors(old(events.queue), thrown.value)
    {
      match thrown {
        case None => r := Ok(());
        case Some(t) =>
          DrainSuppressed(events, t);
          r := Raised(t);
      }
      moleculeJobCancelled := true;
    }
  }

  /** A body that emits 1 and then fails: the validation sees the item, then
      fails on the error with the body's throwable as the cause. */
  method TestMoleculeScenario()
  {
    var boom := new Throwable("RuntimeException", "boom", null);
    var test := new MoleculeTest([1], Some(boom), DefaultTimeout, (_: int) => "1");
    var item, pulses := test.turbine.AwaitItem([], []);
    assert seq(2, _ => 0) == [0, 0];
    assert item == Got(1) && pulses == 1 && test.clock.frames == [0, 0];
    var second, more := test.turbine.AwaitItem([], []);
    assert second.Failed? && second.error.cause == boom;
    ItemExpectedErrorFound(boom, (_: int) => "1");
    assert second.error.message == "Expected item but found " + "Error(RuntimeException)";
  }

  /** The same body, when the validation throws at once: the body's
      throwable is suppressed into the validation's. */
  method SuppressedErrorScenario()
  {
    var boom := new Throwable("RuntimeException", "boom", null);
    var failing := new MoleculeTest([1], Some(boom), 0, (_: int) => "1");
    var validation := new Throwable("AssertionError", "validation", null);
    var queued: seq<Event<int>> := failing.events.queue;
    assert queued == [Item(1), Error(boom)];
    assert SuppressibleErrors(queued, validation) == [boom] by {
      assert boom != validation;
      assert queued[1..] == [Error(boom)];
      assert SuppressibleErrors(queued[1..], validation) == [boom] + SuppressibleErrors(queued[1..][1..], validation);
      assert |queued[1..][1..]| == 0;
    }
    var r := failing.Finish(Some(validation));
    assert r == Raised(validation) && failing.moleculeJobCancelled;
    assert validation.suppressed == [boom];
  }
}
