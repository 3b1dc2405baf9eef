/** The two emitters the runtimes hand to their core `launchMolecule`.
    The latest-value cell behind every `launchMolecule(...): StateFlow<T>` and
    `moleculeComposeState(...): State<T>` is a nullable local `flow` (or
    `mutableState`) that the emitter closure creates on the first emission
    and overwrites on every later one, and that the launcher returns with
    `!!`. The `channelFlow` emitter behind `moleculeFlow` forwards every
    value with `trySend(it).getOrThrow()`. */
module Cells {
  import opened Kotlin

  /** A `MutableStateFlow<T>` or a Compose `MutableState<T>`: one value that
      each assignment overwrites. */
  class ValueHolder<T> {
    var value: T

    constructor (value: T)
      ensures this.value == value
    {
      this.value := value;
    }
  }

  /** The captured `var flow: MutableStateFlow<T>? = null` and the emitter
      that writes it. */
  class LatestValueCell<T> {
    var holder: ValueHolder?<T>

    constructor ()
      ensures holder == null
    {
      holder := null;
    }

    /** The emitter: the first value creates the holder, every later value
        overwrites the same holder. */
    method Emit(value: T)
      modifies this, holder
      ensures holder != null && holder.value == value
      ensures old(holder) == null ==> fresh(holder)
      ensures old(holder) != null ==> holder == old(holder)
    {
      var outputFlow := holder;
      if outputFlow != null {
        outputFlow.value := value;
      } else {
        holder := new ValueHolder(value);
      }
    }
  }

  /** The message-less `NullPointerException` that `!!` throws on `null`. */
  method NullPointer() returns (e: Throwable)
    ensures fresh(e) && e.simpleName == "NullPointerException" && e.message == "" && e.cause == null
  {
    e := new Throwable("NullPointerException", "", null);
  }

  /** Runs the emissions of the first composition through a new cell and
      returns `flow!!`: the holder, carrying the last value emitted, or a
      `NullPointerException` when the composition emitted nothing. When the
      composition ends by throwing `failure`, that same throwable leaves the
      launch before `!!` is reached, and no holder is returned. */
  method LaunchCell<T>(firstComposition: seq<T>, failure: Option<Throwable>) returns (r: Result<ValueHolder<T>>)
    ensures failure.Some? ==> r == Raised(failure.value)
    ensures r.Ok? <==> failure.None? && firstComposition != []
    ensures r.Ok? ==> r.value.value == firstComposition[|firstComposition| - 1]
    ensures failure.None? && r.Raised? ==> r.error.simpleName == "NullPointerException"
  {
    var cell := new LatestValueCell<T>();
    var i := 0;
    while i < |firstComposition|
      invariant 0 <= i <= |firstComposition|
      invariant fresh(cell) && (cell.holder != null ==> fresh(cell.holder))
      invariant cell.holder == null <==> i == 0
      invariant cell.holder != null ==> cell.holder.value == firstComposition[i - 1]
    {
      cell.Emit(firstComposition[i]);
      i := i + 1;
    }
    var flow := cell.holder;
    if failure.Some? {
      r := Raised(failure.value);
    } else if flow == null {
      var e := NullPointer();
      r := Raised(e);
    } else {
      r := Ok(flow);
    }
  }

  /** Default buffer of `channelFlow` (`Channel.BUFFERED`). */
  const ChannelFlowCapacity: nat := 64

  /** A collected `channelFlow { … }`: its producer scope's buffer, which the
      collector drains downstream. A collector suspended in `receive()` on
      the empty buffer takes the next value straight from the sender. */
  class ChannelFlow<T> {
    const channel: Channel<T>
    /** The collector is suspended in `receive()`. */
    var receiving: bool
    /** Values handed straight to the suspended collector, in order. */
    var delivered: seq<T>

    ghost predicate Valid()
      reads this, channel
    {
      && channel.Valid() && channel.capacity == ChannelFlowCapacity
      && (receiving ==> channel.elements == [])
    }

    constructor ()
      ensures Valid() && fresh(channel) && channel.elements == []
      ensures !receiving && delivered == []
    {
      channel := new Channel(ChannelFlowCapacity);
      receiving := false;
      delivered := [];
    }

    /** The emitter `{ trySend(it).getOrThrow() }`: a suspended collector
        receives the value directly, otherwise it is buffered; a value that
        does not fit is raised, never dropped. */
    method Emit(value: T) returns (r: Result<()>)
      requires Valid()
      modifies this, channel
      ensures Valid()
      ensures r.Ok? <==> |old(channel.elements)| < ChannelFlowCapacity
      ensures !receiving
      ensures old(receiving) ==> delivered == old(delivered) + [value] && channel.elements == old(channel.elements)
      ensures !old(receiving) ==> delivered == old(delivered)
      ensures !old(receiving) && r.Ok? ==> channel.elements == old(channel.elements) + [value]
      ensures r.Raised? ==> channel.elements == old(channel.elements)
                            && r.error.simpleName == "IllegalStateException"
    {
      if receiving {
        receiving := false;
        delivered := delivered + [value];
        r := Ok(());
      } else {
        r := channel.TrySendOrThrow(value);
      }
    }

    /** The collector takes the oldest buffered value downstream, or
        suspends in `receive()` when the buffer is empty. */
    method Collect() returns (value: Option<T>)
      requires Valid()
      modifies this, channel
      ensures Valid() && delivered == old(delivered)
      ensures value.None? <==> old(channel.elements) == []
      ensures value.Some? ==> value.value == old(channel.elements)[0]
                              && channel.elements == old(channel.elements)[1..]
                              && receiving == old(receiving)
      ensures value.None? ==> channel.elements == old(channel.elements) && receiving
    {
      value := channel.TryReceive();
      if value.None? {
        receiving := true;
      }
    }
  }
}
