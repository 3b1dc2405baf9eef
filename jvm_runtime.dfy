/** The JVM runtime of the earlier generation. Its core `launchMolecule`
    sets the content first, so the first value is emitted during the call,
    and then launches a coroutine that forwards global snapshot writes
    through a conflated channel: each signal it consumes sends the apply
    notifications and, when the context's clock is a `BroadcastFrameClock`,
    a frame at time 0 to force a recomposition. The handle of the write
    observer is disposed in `finally`. */
module JvmRuntime {
  import opened Kotlin
  import Compose
  import opened Cells

  /** What the launched coroutine has done so far: whether the conflated
      `globalWrites` channel holds a signal, how many times it called
      `Snapshot.sendApplyNotifications()`, the frames of the context's
      broadcast clock, and whether the observer handle was disposed. */
  datatype WriteState = WriteState(
    pendingSignal: bool,
    notifications: nat,
    frames: seq<int>,
    handleDisposed: bool)

  /** The state right after launch, on a clock that already sent `frames`. */
  function Launched(frames: seq<int>): WriteState
  {
    WriteState(false, 0, frames, false)
  }

  /** The write observer: `globalWrites.trySend(Unit)` on a conflated
      channel, which keeps at most one signal and never fails. A disposed
      observer is no longer called. */
  function OnGlobalWrite(s: WriteState): (r: WriteState)
    ensures r.pendingSignal == (s.pendingSignal || !s.handleDisposed)
    ensures r.notifications == s.notifications && r.frames == s.frames
    ensures r.handleDisposed == s.handleDisposed
  {
    if s.handleDisposed then s else s.(pendingSignal := true)
  }

  /** The collector consumes the pending signal, if any: it sends the apply
      notifications, then `broadcastFrameClock?.sendFrame(0)`. */
  function CollectSignal(s: WriteState, broadcast: bool): (r: WriteState)
    ensures !r.pendingSignal && r.handleDisposed == s.handleDisposed
    ensures r.notifications == s.notifications + (if s.pendingSignal then 1 else 0)
    ensures r.frames == s.frames + (if s.pendingSignal && broadcast then [0] else [])
  {
    if !s.pendingSignal then s
    else s.(pendingSignal := false, notifications := s.notifications + 1,
            frames := if broadcast then s.frames + [0] else s.frames)
  }

  /** The `finally` block: the handle is disposed however the coroutine
      ends. */
  function Finally(s: WriteState): (r: WriteState)
    ensures r.handleDisposed
    ensures r.pendingSignal == s.pendingSignal && r.notifications == s.notifications && r.frames == s.frames
  {
    s.(handleDisposed := true)
  }

  datatype WriteEvent = Write | Collect | Finish

  function Step(s: WriteState, e: WriteEvent, broadcast: bool): WriteState
  {
    match e
    case Write => OnGlobalWrite(s)
    case Collect => CollectSignal(s, broadcast)
    case Finish => Finally(s)
  }

  function Replay(s: WriteState, es: seq<WriteEvent>, broadcast: bool): WriteState
    decreases |es|
  {
    if es == [] then s else Replay(Step(s, es[0], broadcast), es[1..], broadcast)
  }

  function CountWrites(es: seq<WriteEvent>): nat
  {
    if es == [] then 0 else (if es[0] == Write then 1 else 0) + CountWrites(es[1..])
  }

  /** Any number of writes before the collector runs leave one signal, so the
      collector then sends the notifications once and at most one frame. */
  lemma {:induction false} WritesConflate(s: WriteState, n: nat, broadcast: bool)
    requires !s.handleDisposed && n > 0
    ensures var w := Replay(s, seq(n, _ => Write), broadcast);
      && w.pendingSignal && w.notifications == s.notifications && w.frames == s.frames
      && CollectSignal(w, broadcast).notifications == s.notifications + 1
      && CollectSignal(w, broadcast).frames == s.frames + (if broadcast then [0] else [])
    decreases n
  {
    var es := seq(n, _ => Write);
    assert es[0] == Write && es[1..] == seq(n - 1, _ => Write);
    if n > 1 {
      WritesConflate(OnGlobalWrite(s), n - 1, broadcast);
    }
  }

  /** Frames follow notifications: a broadcast clock receives exactly one
      frame, at time 0, per notification pass, and any other clock none. */
  lemma {:induction false} FramesFollowNotifications(s: WriteState, es: seq<WriteEvent>, broadcast: bool)
    ensures var r := Replay(s, es, broadcast);
      && r.notifications >= s.notifications
      && |r.frames| == |s.frames| + (if broadcast then r.notifications - s.notifications else 0)
      && r.frames[..|s.frames|] == s.frames
      && forall i :: |s.frames| <= i < |r.frames| ==> r.frames[i] == 0
    decreases |es|
  {
    if es != [] {
      var t := Step(s, es[0], broadcast);
      FramesFollowNotifications(t, es[1..], broadcast);
      var r := Replay(s, es, broadcast);
      assert r == Replay(t, es[1..], broadcast);
      assert t.frames[..|s.frames|] == s.frames;
      assert r.frames[..|t.frames|] == t.frames;
      assert r.frames[..|s.frames|] == t.frames[..|s.frames|];
      forall i | |s.frames| <= i < |r.frames|
        ensures r.frames[i] == 0
      {
        if i < |t.frames| {
          assert r.frames[i] == t.frames[i];
        }
      }
    }
  }

  /** Every notification pass is caused by a write. */
  lemma {:induction false} NotificationsNeedWrites(s: WriteState, es: seq<WriteEvent>, broadcast: bool)
    ensures var r := Replay(s, es, broadcast);
      r.notifications + (if r.pendingSignal then 1 else 0)
      <= s.notifications + (if s.pendingSignal then 1 else 0) + CountWrites(es)
    decreases |es|
  {
    if es != [] {
      NotificationsNeedWrites(Step(s, es[0], broadcast), es[1..], broadcast);
    }
  }

  /** The launched coroutine of the core `launchMolecule`: the conflated
      channel, the write observer's handle and the context's clock, when
      that clock is a `BroadcastFrameClock` (`null` otherwise, as the
      `as?` cast gives). */
  class WriteForwarding {
    var pendingSignal: bool
    var notifications: nat
    var handleDisposed: bool
    const broadcastFrameClock: Compose.BroadcastFrameClock?

    function State(): WriteState
      reads this, broadcastFrameClock
    {
      WriteState(pendingSignal, notifications,
                 if broadcastFrameClock == null then [] else broadcastFrameClock.frames,
                 handleDisposed)
    }

    constructor (broadcastFrameClock: Compose.BroadcastFrameClock?)
      ensures this.broadcastFrameClock == broadcastFrameClock
      ensures State() == Launched(if broadcastFrameClock == null then [] else broadcastFrameClock.frames)
    {
      pendingSignal := false;
      notifications := 0;
      handleDisposed := false;
      this.broadcastFrameClock := broadcastFrameClock;
    }

    method GlobalWrite()
      modifies this
      ensures State() == OnGlobalWrite(old(State()))
    {
      if !handleDisposed {
        pendingSignal := true;
      }
    }

    /** One turn of `globalWrites.consumeAsFlow().collect { … }`. The
        collector is a child of the coroutine whose `finally` disposes the
        handle, so it only takes turns before that. */
    method CollectStep()
      requires !handleDisposed
      modifies this, broadcastFrameClock
      ensures State() == CollectSignal(old(State()), broadcastFrameClock != null)
    {
      if pendingSignal {
        pendingSignal := false;
        notifications := notifications + 1;
        if broadcastFrameClock != null {
          broadcastFrameClock.SendFrame(0);
        }
      }
    }

    /** `finally { snapshotHandle.dispose() }`. */
    method Exit()
      modifies this
      ensures State() == Finally(old(State()))
    {
      handleDisposed := true;
    }
  }

  /** `launchMolecule(body): StateFlow<T>`: the content is set before the
      coroutine is launched, so the cell already holds the first value when
      the call returns. A body that throws makes `setContent` rethrow that
      same throwable before the forwarding coroutine is launched, so neither
      a StateFlow nor a write observer exists. */
  method LaunchMoleculeStateFlow<T>(first: Result<T>, broadcastFrameClock: Compose.BroadcastFrameClock?)
    returns (r: Result<ValueHolder<T>>, forwarding: WriteForwarding?)
    ensures first.Raised? ==> r == Raised(first.error) && forwarding == null
    ensures first.Ok? ==> r.Ok? && fresh(r.value) && r.value.value == first.value
    ensures first.Ok? ==> forwarding != null && fresh(forwarding) && forwarding.broadcastFrameClock == broadcastFrameClock
                          && forwarding.State() == Launched(if broadcastFrameClock == null then [] else broadcastFrameClock.frames)
  {
    match first {
      case Raised(e) =>
        r, forwarding := Raised(e), null;
      case Ok(value) =>
        var cell := new LatestValueCell<T>();
        cell.Emit(value);
        r := Ok(cell.holder);
        forwarding := new WriteForwarding(broadcastFrameClock);
    }
  }

  /** `moleculeFlow(body)`: a `channelFlow` forwarding every value with
      `trySend(it).getOrThrow()`; the first value, sent during the launch,
      goes straight to the collector when `collectorWaiting` (it already
      suspended in `receive()`), and is buffered otherwise. A body that
      throws sends nothing and leaves the producer with that same
      throwable, before the forwarding coroutine is launched. */
  method MoleculeFlow<T>(collectorWaiting: bool, first: Result<T>, broadcastFrameClock: Compose.BroadcastFrameClock?)
    returns (flow: ChannelFlow<T>, forwarding: WriteForwarding?, r: Result<()>)
    ensures fresh(flow) && fresh(flow.channel) && flow.Valid()
    ensures first.Ok? ==> r.Ok? && !flow.receiving
    ensures first.Ok? && collectorWaiting ==> flow.delivered == [first.value] && flow.channel.elements == []
    ensures first.Ok? && !collectorWaiting ==> flow.delivered == [] && flow.channel.elements == [first.value]
    ensures first.Ok? ==> forwarding != null && fresh(forwarding) && forwarding.broadcastFrameClock == broadcastFrameClock
    ensures first.Raised? ==> r == Raised(first.error) && forwarding == null
                              && flow.delivered == [] && flow.channel.elements == []
                              && flow.receiving == collectorWaiting
  {
    flow := new ChannelFlow();
    if collectorWaiting {
      var none := flow.Collect();
    }
    match first {
      case Raised(e) =>
        r, forwarding := Raised(e), null;
      case Ok(value) =>
        r := flow.Emit(value);
        forwarding := new WriteForwarding(broadcastFrameClock);
    }
  }

  /** Three writes before the collector runs: one notification pass and one
      frame at time 0 on the broadcast clock; after `finally`, writes are
      ignored. A body that throws launches no forwarding at all. */
  method ForwardingScenario()
  {
    var clock := new Compose.BroadcastFrameClock();
    var e := new Throwable("RuntimeException", "boom", null);
    var failed, none := LaunchMoleculeStateFlow<int>(Raised(e), clock);
    assert failed == Raised(e) && none == null;
    var r, launched := LaunchMoleculeStateFlow(Ok(7), clock);
    assert r.Ok? && r.value.value == 7;
    var w: WriteForwarding := launched;
    w.GlobalWrite();
    w.GlobalWrite();
    w.GlobalWrite();
    w.CollectStep();
    w.CollectStep();
    assert w.notifications == 1 && clock.frames == [0];
    w.Exit();
    w.GlobalWrite();
    assert !w.pendingSignal && w.notifications == 1 && clock.frames == [0];
  }
}
