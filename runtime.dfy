/** The current runtime's entry points: `moleculeFlow` in its two recomposition
    modes, the `launchMolecule` variants returning a `StateFlow`, and the
    core `launchMolecule` that owns the Recomposer session. The Recomposer
    itself is external: what a composition emits is given as a sequence of
    values, and frames reach it through the clocks modelled here. */
module Runtime {
  import opened Kotlin
  import opened Compose
  import opened Cells
  import GatedClock

  /** `RecompositionMode`. */
  datatype RecompositionMode = ContextClock | Immediate

  /** The two flows `moleculeFlow` can build. */
  datatype FlowStrategy = ContextClockFlow | ImmediateClockFlow

  /** `moleculeFlow(mode, …)`: both overloads dispatch on the mode alone. */
  function MoleculeFlow(mode: RecompositionMode): (s: FlowStrategy)
    ensures s == ImmediateClockFlow <==> mode == Immediate
  {
    match mode
    case ContextClock => ContextClockFlow
    case Immediate => ImmediateClockFlow
  }

  /** The value-returning body overloads adapt `body` as `emitter(body())`:
      every composition emits exactly the one value it returns. */
  function EmittingBody<T>(value: T): (emissions: seq<T>)
    ensures |emissions| == 1 && emissions[0] == value
  {
    [value]
  }

  /** What the core `launchMolecule` adds to the coroutine context. */
  datatype ClockContext = NothingAdded | FreshGatedClock

  function ClockContextFor(mode: RecompositionMode): (c: ClockContext)
    ensures c == FreshGatedClock <==> mode == Immediate
  {
    match mode
    case ContextClock => NothingAdded
    case Immediate => FreshGatedClock
  }

  /** The core `launchMolecule(mode, emitter, body)`: chooses the clock
      context, creates the session (Recomposer, write observer with its
      `applyScheduled` flag, completion handler disposing the composition and
      the observer handle) and installs the content. The emissions of the
      first composition are left to the caller's emitter. */
  method LaunchMolecule(mode: RecompositionMode) returns (session: Session, clock: GatedClock.GatedFrameClock?)
    ensures fresh(session) && session.Valid() && session.State() == Launched
    ensures clock != null <==> ClockContextFor(mode) == FreshGatedClock
    ensures clock != null ==> fresh(clock) && fresh(clock.clock) && clock.Valid() && clock.isRunning
  {
    match ClockContextFor(mode) {
      case NothingAdded => clock := null;
      case FreshGatedClock => clock := new GatedClock.GatedFrameClock();
    }
    session := new Session();
  }

  /** `launchMolecule(mode, emittingBody): StateFlow<T>`: the first
      composition's emissions go through the latest-value cell; the call
      fails with a `NullPointerException` if the body emitted nothing. A
      body that throws (`failure`, after emitting `firstComposition`) makes
      `setContent` rethrow that same throwable out of the call, so no
      StateFlow is returned. */
  method LaunchMoleculeStateFlow<T>(mode: RecompositionMode, firstComposition: seq<T>, failure: Option<Throwable>)
    returns (r: Result<ValueHolder<T>>)
    ensures failure.Some? ==> r == Raised(failure.value)
    ensures r.Ok? <==> failure.None? && firstComposition != []
    ensures r.Ok? ==> r.value.value == firstComposition[|firstComposition| - 1]
    ensures failure.None? && r.Raised? ==> r.error.simpleName == "NullPointerException"
  {
    r := LaunchCell(firstComposition, failure);
  }

  /** `launchMolecule(mode, body): StateFlow<T>`: the body, adapted as
      `emitter(body())`, either returns a value, which the first composition
      emits exactly once so that the StateFlow returned already holds it, or
      throws before anything is emitted, and that same throwable leaves the
      call. */
  method LaunchMoleculeOfValue<T>(mode: RecompositionMode, body: Result<T>) returns (r: Result<ValueHolder<T>>)
    ensures body.Raised? ==> r == Raised(body.error)
    ensures body.Ok? ==> r.Ok? && r.value.value == body.value
  {
    match body {
      case Ok(first) =>
        r := LaunchMoleculeStateFlow(mode, EmittingBody(first), None);
      case Raised(e) =>
        r := LaunchMoleculeStateFlow(mode, [], Some(e));
    }
  }

  /** `contextClockFlow`: a `channelFlow` that launches the core with the
      `ContextClock` mode and the forwarding emitter; frames come from the
      collector's context. The first composition runs during the launch.
      When `collectorWaiting` (the collector already suspended in
      `receive()`), its first value goes straight to the collector; the rest
      are buffered in order until one does not fit, which is raised out of
      the launch. A body that emits all its values and then throws
      `failure` makes the launch rethrow that same throwable. Either
      exception fails the producer coroutine, whose completion disposes the
      composition and the observer handle. */
  method CollectContextClockFlow<T>(collectorWaiting: bool, firstComposition: seq<T>, failure: Option<Throwable>)
    returns (flow: ChannelFlow<T>, session: Session, r: Result<()>)
    ensures flow.Valid() && session.Valid()
    ensures session.State() == if r.Ok? then Launched else OnJobCompletion(Launched)
    ensures var accepted := ChannelFlowCapacity + (if collectorWaiting then 1 else 0);
      && (r.Ok? <==> |firstComposition| <= accepted && failure.None?)
      && (|firstComposition| <= accepted ==> flow.delivered + flow.channel.elements == firstComposition)
      && (|firstComposition| <= accepted && failure.Some? ==> r == Raised(failure.value))
      && (|firstComposition| > accepted ==> flow.delivered + flow.channel.elements == firstComposition[..accepted]
                                            && r.Raised? && r.error.simpleName == "IllegalStateException")
    ensures flow.delivered == if collectorWaiting && firstComposition != [] then [firstComposition[0]] else []
  {
    flow := new ChannelFlow();
    if collectorWaiting {
      var none := flow.Collect();
    }
    var clock;
    session, clock := LaunchMolecule(ContextClock);
    ghost var accepted := ChannelFlowCapacity + (if collectorWaiting then 1 else 0);
    r := Ok(());
    var i := 0;
    while i < |firstComposition| && r.Ok?
      invariant 0 <= i <= |firstComposition| && flow.Valid()
      invariant session.Valid() && session.State() == Launched
      invariant flow.receiving <==> collectorWaiting && i == 0
      invariant flow.delivered == if collectorWaiting && i > 0 then [firstComposition[0]] else []
      invariant r.Ok? ==> i <= accepted && flow.delivered + flow.channel.elements == firstComposition[..i]
      invariant r.Raised? ==> i == accepted && i < |firstComposition|
                              && flow.delivered + flow.channel.elements == firstComposition[..accepted]
                              && r.error.simpleName == "IllegalStateException"
      decreases |firstComposition| - i, if r.Ok? then 1 else 0
    {
      assert firstComposition[..i + 1] == firstComposition[..i] + [firstComposition[i]];
      r := flow.Emit(firstComposition[i]);
      if r.Ok? {
        i := i + 1;
      }
    }
    if r.Ok? && failure.Some? {
      r := Raised(failure.value);
    }
    if r.Raised? {
      session.JobCompletes();
    }
  }

  /** `immediateClockFlow`: one collection of the flow. The emitter stops the
      gated clock and hands the value to the collector if it is suspended in
      `receive()`, or else puts it into the capacity-1 `outputBuffer`,
      raising if the slot is taken. The collector loop takes a buffered value
      without touching the clock; only when the buffer is empty does it set
      the clock running and suspend in `receive()`. `accepted` records every
      value the emitter managed to pass on. */
  class ImmediateClockFlowCollection<T> {
    const clock: GatedClock.GatedFrameClock
    const outputBuffer: Channel<T>
    /** The session of the core launched into the collection's scope, and the
        clock that launch added to its context. */
    const session: Session
    const coreClock: GatedClock.GatedFrameClock?
    /** The collector is suspended in `outputBuffer.receive()`. */
    var receiving: bool
    /** Values passed downstream by `emit(value)`, in order. */
    var collected: seq<T>
    ghost var accepted: seq<T>
    /** The throwable the collection fails with, if the body threw. */
    var failure: Option<Throwable>

    /** At most one value is pending, every accepted value is collected
        exactly once and in order, the clock is stopped while a value is
        pending, and a suspended collector waits on an empty buffer and a
        running clock. */
    ghost predicate Valid()
      reads this, clock, outputBuffer, session
    {
      && session.Valid() && clock.Valid() && outputBuffer.Valid() && outputBuffer.capacity == 1
      && |outputBuffer.elements| <= 1
      && accepted == collected + outputBuffer.elements
      && (outputBuffer.elements != [] ==> !clock.isRunning)
      && (receiving ==> outputBuffer.elements == [] && clock.isRunning)
    }

    /** `GatedFrameClock(this)`, `Channel<T>(1)`, and the core launched with
        `ContextClock` on that clock: the core adds no clock of its own, so
        the collection runs on exactly one gated clock. The first
        composition's values reach `Emitter` next. */
    constructor ()
      ensures Valid() && fresh(clock) && fresh(clock.clock) && fresh(outputBuffer)
      ensures coreClock == null && fresh(session) && session.Valid() && session.State() == Launched
      ensures clock.isRunning && !receiving && collected == [] && accepted == []
      ensures outputBuffer.elements == [] && clock.clock.frames == [] && !clock.frameSends
      ensures failure == None
    {
      clock := new GatedClock.GatedFrameClock();
      outputBuffer := new Channel(1);
      receiving := false;
      collected := [];
      accepted := [];
      failure := None;
      var s, c := LaunchMolecule(ContextClock);
      session := s;
      coreClock := c;
    }

    /** The body throws `e` in the first composition: `setContent` rethrows
        it out of the core `launchMolecule` inside the launched child, the
        child fails and its completion disposes the composition and the
        observer handle. The failed child cancels the collection's
        `coroutineScope`, so collecting the flow fails with that same
        throwable, and nothing more is collected. The body runs its first
        composition inside the constructor's launch, before the collector
        loop starts, so nothing has been collected yet; every later step of
        the collection requires that it has not failed. */
    method BodyThrows(e: Throwable)
      requires Valid() && failure.None? && collected == [] && !receiving
      modifies this, session
      ensures Valid() && failure == Some(e)
      ensures session.State() == OnJobCompletion(old(session.State()))
      ensures collected == old(collected) && accepted == old(accepted) && receiving == old(receiving)
    {
      failure := Some(e);
      session.JobCompletes();
    }

    /** The emitter handed to `launchMolecule`: `clock.isRunning = false`,
        then `outputBuffer.trySend(it).getOrThrow()`. A collector suspended
        in `receive()` resumes with the value and emits it downstream;
        otherwise the value takes the free slot or is raised. Stopping the
        clock never sends a frame. */
    method Emitter(value: T) returns (r: Result<()>)
      requires Valid() && failure.None?
      modifies this, clock, clock.clock, outputBuffer
      ensures Valid() && failure.None?
      ensures !clock.isRunning && !receiving
      ensures clock.clock.frames == old(clock.clock.frames) && clock.clock.awaiters == old(clock.clock.awaiters)
      ensures clock.frameSends == old(clock.frameSends)
      ensures r.Ok? <==> old(outputBuffer.elements) == []
      ensures r.Ok? ==> accepted == old(accepted) + [value]
      ensures old(receiving) ==> collected == old(collected) + [value] && outputBuffer.elements == []
      ensures !old(receiving) ==> collected == old(collected)
      ensures !old(receiving) && r.Ok? ==> outputBuffer.elements == [value]
      ensures r.Raised? ==> outputBuffer.elements == old(outputBuffer.elements) && accepted == old(accepted)
                            && r.error.simpleName == "IllegalStateException"
    {
      // The falling edge reads no time.
      clock.SetRunning(false, 0);
      if receiving {
        receiving := false;
        collected := collected + [value];
        accepted := accepted + [value];
        r := Ok(());
      } else {
        r := outputBuffer.TrySendOrThrow(value);
        if r.Ok? {
          accepted := accepted + [value];
        }
      }
    }

    /** One turn of the collector's `while (true)` loop at raw time `raw`.
        A pending value is taken by `tryReceive` and emitted downstream,
        and the clock is left alone. With the buffer empty and the collector not yet waiting, it
        sets `clock.isRunning = true` (a rising edge sends a frame) and
        suspends; an already waiting collector keeps waiting. */
    method CollectStep(raw: int) returns (value: Option<T>)
      requires Valid() && failure.None?
      modifies this, clock, clock.clock, outputBuffer
      ensures Valid() && failure.None? && accepted == old(accepted) && clock.frameSends == old(clock.frameSends)
      ensures value.Some? <==> old(outputBuffer.elements) != []
      ensures value.Some? ==>
        && value.value == old(outputBuffer.elements)[0]
        && collected == old(collected) + [value.value] && !receiving
        && clock.isRunning == old(clock.isRunning) && clock.clock.frames == old(clock.clock.frames)
        && clock.clock.awaiters == old(clock.clock.awaiters)
      ensures value.None? ==> collected == old(collected) && receiving && clock.isRunning
      ensures value.None? && (old(receiving) || old(clock.isRunning)) ==>
        clock.clock.frames == old(clock.clock.frames) && clock.clock.awaiters == old(clock.clock.awaiters)
      ensures value.None? && !old(receiving) && !old(clock.isRunning) ==>
        |clock.clock.frames| == |old(clock.clock.frames)| + 1 && clock.clock.awaiters == 0
    {
      var result := outputBuffer.TryReceive();
      if result.Some? {
        receiving := false;
        collected := collected + [result.value];
        value := result;
      } else if !receiving {
        clock.SetRunning(true, raw);
        receiving := true;
        value := None;
      } else {
        value := None;
      }
    }

    /** The Recomposer asks the gated clock for its next frame. */
    method RecomposerAwaitsFrame()
      requires Valid() && failure.None?
      modifies clock, clock.clock
      ensures Valid()
      ensures clock.isRunning == old(clock.isRunning) && clock.clock.frames == old(clock.clock.frames)
      ensures clock.clock.awaiters == old(clock.clock.awaiters) + 1
      ensures clock.frameSends == (old(clock.frameSends) || (old(clock.clock.awaiters) == 0 && clock.isRunning))
    {
      clock.WithFrameNanos();
    }

    /** The clock's pump loop takes one turn. */
    method PumpStep(raw: int) returns (sent: bool)
      requires Valid() && failure.None?
      modifies clock, clock.clock
      ensures Valid()
      ensures clock.isRunning == old(clock.isRunning)
      ensures sent == old(clock.frameSends)
      ensures !clock.frameSends
      ensures |clock.clock.frames| == |old(clock.clock.frames)| + (if sent then 1 else 0)
      ensures sent ==> clock.clock.awaiters == 0
    {
      sent := clock.PumpStep(raw);
    }
  }

  /** The immediate clock with a waiting collector: the first composition's
      value is emitted, the clock restarts while the collector waits, and a
      recomposition emitting twice hands the first value to the waiting
      collector and buffers the second. The body here emits the counter it
      reads. */
  method SlowCollectorScenario()
  {
    var f := new ImmediateClockFlowCollection<int>();
    var count := 0;
    // The first composition runs when the molecule is launched.
    var r := f.Emitter(count);
    var v := f.CollectStep(10);
    assert v == Some(0);
    // Nothing pending: the collector restarts the clock and waits.
    v := f.CollectStep(20);
    assert v.None? && f.receiving && f.clock.isRunning;
    // A state write invalidates the composition: the Recomposer asks for a
    // frame, the running clock queues a token and the pump sends it.
    count := 1;
    f.RecomposerAwaitsFrame();
    var sent := f.PumpStep(30);
    assert sent;
    // This composition emits twice: the waiting collector takes the first
    // value, the second fills the empty slot.
    r := f.Emitter(count);
    assert r.Ok? && f.collected == [0, 1] && !f.clock.isRunning;
    r := f.Emitter(count + 1);
    assert r.Ok? && f.outputBuffer.elements == [2];
    v := f.CollectStep(40);
    assert v == Some(2) && f.collected == [0, 1, 2];
  }

  /** The collector is busy downstream after receiving a value: frame
      requests find the clock stopped and send nothing, and when the
      collector comes back one frame recomposes with the latest state. */
  method BusyCollectorScenario()
  {
    var f := new ImmediateClockFlowCollection<int>();
    var count := 1;
    var r := f.Emitter(count);
    var v := f.CollectStep(10);
    assert v == Some(1) && !f.clock.isRunning;
    // The counter moves on while the collector is busy.
    count := 2;
    f.RecomposerAwaitsFrame();
    assert !f.clock.frameSends;
    count := 3;
    count := 4;
    // Back in the loop: empty buffer, so the rising edge sends one frame,
    // which recomposes once, with the latest state, and hands it over.
    var before := |f.clock.clock.frames|;
    v := f.CollectStep(20);
    assert v.None? && |f.clock.clock.frames| == before + 1;
    r := f.Emitter(count);
    assert f.collected == [1, 4];
  }

  /** A body that throws on its first composition: the immediate flow's
      collection fails with that same exception and collects nothing, the
      context-clock flow's launch rethrows it after forwarding what the body
      emitted first, and the session is torn down in both. */
  method FailingBodyScenario()
  {
    var e := new Throwable("RuntimeException", "boom", null);
    var f := new ImmediateClockFlowCollection<int>();
    f.BodyThrows(e);
    assert f.failure == Some(e) && f.collected == [];
    assert f.session.State().compositionDisposed && f.session.State().handleDisposed;
    var g, s, r := CollectContextClockFlow(false, [1, 2], Some(e));
    assert r == Raised(e) && g.channel.elements == [1, 2];
    assert s.State().handleDisposed;
  }

  /** Later emissions overwrite the StateFlow returned by `launchMolecule`;
      the first value is present on return, unless the body throws, which
      the call rethrows as is. */
  method StateFlowScenario()
  {
    var r := LaunchMoleculeOfValue(Immediate, Ok(42));
    assert r.Ok? && r.value.value == 42;
    var e := new Throwable("RuntimeException", "boom", null);
    r := LaunchMoleculeOfValue(Immediate, Raised(e));
    assert r == Raised(e);
    var cell := new LatestValueCell<int>();
    cell.Emit(1);
    var first := cell.holder;
    cell.Emit(2);
    cell.Emit(3);
    assert cell.holder == first && first != null && first.value == 3;
  }
}
