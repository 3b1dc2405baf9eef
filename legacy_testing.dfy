/** `launchMoleculeForTest`, the earlier test entry point: the same events channel,
    emitter, exception handler and turbine, on a scope with its own
    dispatcher and a `BroadcastFrameClock`. After the validation the scope
    is cancelled; `finally` cancels and joins its job on every exit. A
    throwable from the validation propagates unchanged: nothing is drained
    into its suppressed list. */
module LegacyTesting {
  import opened Kotlin
  import Compose
  import opened Turbine

  /** The default `timeout` of one second, in milliseconds. */
  const DefaultTimeout: nat := 1000

  /** One `launchMoleculeForTest` call. */
  class MoleculeTestScope<T> {
    const events: EventChannel<T>
    const clock: Compose.BroadcastFrameClock
    const exceptionHandler: EventEmittingExceptionHandler<T>
    const turbine: TickOnDemandMoleculeTurbine<T>
    var scopeCancelled: bool
    var scopeJoined: bool

    /** Everything up to `validate`: the first composition emitted
        `emissions`, and `scope.launchMolecule` then raised `failure`, if it
        did. */
    constructor (emissions: seq<T>, failure: Option<Throwable>, timeout: nat, show: T -> string)
      ensures fresh(events) && fresh(clock) && events.queue == SetupEvents(emissions, failure)
      ensures clock.frames == [] && clock.awaiters == 0
      ensures exceptionHandler.events == events
      ensures turbine.events == events && turbine.clock == clock && turbine.timeout == timeout
      ensures !scopeCancelled && !scopeJoined
    {
      var ev := new EventChannel<T>();
      var c := new Compose.BroadcastFrameClock();
      exceptionHandler := new EventEmittingExceptionHandler(ev);
      Launch(ev, emissions, failure);
      turbine := new TickOnDemandMoleculeTurbine(ev, c, timeout, show);
      events := ev;
      clock := c;
      scopeCancelled := false;
      scopeJoined := false;
    }

    /** After `validate` returned (`thrown == None`) or threw: the scope is
        cancelled and joined either way, and a thrown throwable propagates as
        it is, with the queue and its suppressed list untouched. */
    method Finish(thrown: Option<Throwable>) returns (r: Result<()>)
      modifies this
      ensures scopeCancelled && scopeJoined
      ensures r.Ok? <==> thrown.None?
      ensures thrown.Some? ==> r.error == thrown.value
    {
      if thrown.None? {
        // `scope.cancel()` after a validation that returned.
        scopeCancelled := true;
      }
      // `finally`: the scope's job is cancelled and joined on every exit.
      scopeCancelled := true;
      scopeJoined := true;
      r := if thrown.Some? then Raised(thrown.value) else Ok(());
    }
  }

  /** An error queued by the body stays in the queue when the validation
      throws; only the validation's throwable propagates. */
  method LaunchMoleculeForTestScenario()
  {
    var boom := new Throwable("RuntimeException", "boom", null);
    var test := new MoleculeTestScope<int>([], Some(boom), DefaultTimeout, (_: int) => "");
    var thrown, pulses := test.turbine.AwaitError([], []);
    assert seq(2, _ => 0) == [0, 0];
    assert thrown == Got(boom) && test.clock.frames == [0, 0];
    var validation := new Throwable("AssertionError", "validation", null);
    var r := test.Finish(Some(validation));
    assert r == Raised(validation) && validation.suppressed == [];
  }
}
