/** The common runtime of the earlier generation: `moleculeFlow` over a
    `channelFlow`, `launchMolecule` returning a `StateFlow`,
    `moleculeComposeState` returning a Compose `State`, and the core
    `launchMolecule`. There is no recomposition mode: frames always come
    from the `MonotonicFrameClock` of the caller's context, and the body
    returns its value, so every composition calls `emitter(body())` exactly
    once. The values successive compositions return are parameters. */
module LegacyRuntime {
  import opened Kotlin
  import opened Compose
  import opened Cells

  /** The core `launchMolecule(emitter, body)`: creates the Recomposer and
      the composition, registers the debounced write observer and the
      completion handler that disposes both, then sets the content, which
      composes once and hands the returned value to the emitter. This model
      returns the session together with the value of that first composition;
      each later composition is one more `emitter(body())` call. A body that
      throws emits nothing, and `setContent` rethrows that same throwable
      out of the call, after the session was set up. */
  method LaunchMolecule<T>(body: Result<T>) returns (session: Session, emitted: seq<T>, r: Result<()>)
    ensures fresh(session) && session.Valid() && session.State() == Launched
    ensures body.Ok? ==> emitted == [body.value] && r.Ok?
    ensures body.Raised? ==> emitted == [] && r == Raised(body.error)
  {
    session := new Session();
    match body {
      case Ok(value) =>
        emitted := [value];
        r := Ok(());
      case Raised(e) =>
        emitted := [];
        r := Raised(e);
    }
  }

  /** `moleculeFlow(body)`: a `channelFlow` whose emitter is
      `trySend(it).getOrThrow()`. Launching it composes once; the first value
      goes straight to the collector when `collectorWaiting` (it already
      suspended in `receive()`), and is buffered otherwise. A body that
      throws leaves the producer with that same throwable and nothing sent;
      the failed producer's completion disposes the session. */
  method MoleculeFlow<T>(collectorWaiting: bool, first: Result<T>)
    returns (flow: ChannelFlow<T>, session: Session, r: Result<()>)
    ensures fresh(flow) && fresh(flow.channel) && flow.Valid()
    ensures first.Ok? ==> r.Ok? && !flow.receiving && session.State() == Launched
    ensures first.Ok? && collectorWaiting ==> flow.delivered == [first.value] && flow.channel.elements == []
    ensures first.Ok? && !collectorWaiting ==> flow.delivered == [] && flow.channel.elements == [first.value]
    ensures first.Raised? ==> r == Raised(first.error) && flow.delivered == [] && flow.channel.elements == []
                              && flow.receiving == collectorWaiting
                              && session.State() == OnJobCompletion(Launched)
    ensures session.Valid()
  {
    flow := new ChannelFlow();
    if collectorWaiting {
      var none := flow.Collect();
    }
    var emitted;
    session, emitted, r := LaunchMolecule(first);
    if r.Ok? {
      r := flow.Emit(emitted[0]);
    } else {
      session.JobCompletes();
    }
  }

  /** A later composition of a `moleculeFlow`: one value, handed to a
      waiting collector, buffered, or raised. */
  method Recompose<T>(flow: ChannelFlow<T>, value: T) returns (r: Result<()>)
    requires flow.Valid()
    modifies flow, flow.channel
    ensures flow.Valid()
    ensures r.Ok? <==> |old(flow.channel.elements)| < ChannelFlowCapacity
    ensures old(flow.receiving) ==> flow.delivered == old(flow.delivered) + [value]
                                    && flow.channel.elements == old(flow.channel.elements)
    ensures !old(flow.receiving) ==> flow.delivered == old(flow.delivered)
    ensures !old(flow.receiving) && r.Ok? ==> flow.channel.elements == old(flow.channel.elements) + [value]
    ensures r.Raised? ==> flow.channel.elements == old(flow.channel.elements)
  {
    r := flow.Emit(value);
  }

  /** What `launchMolecule(body): StateFlow<T>` and `moleculeComposeState(body):
      State<T>` return: the session and the cell whose holder the first
      composition created through the emitter. */
  class LatestValueMolecule<T> {
    const session: Session
    const cell: LatestValueCell<T>

    ghost predicate Valid()
      reads this, cell
    {
      cell.holder != null
    }

    /** The returned `StateFlow` or `State`. */
    function Output(): ValueHolder<T>
      reads this, cell
      requires Valid()
    {
      cell.holder
    }

    constructor (session: Session, cell: LatestValueCell<T>)
      requires cell.holder != null
      ensures Valid() && this.session == session && this.cell == cell
    {
      this.session := session;
      this.cell := cell;
    }

    /** A later composition overwrites the value of the same holder. */
    method Recompose(value: T)
      requires Valid()
      modifies cell, Output()
      ensures Valid() && Output() == old(Output()) && Output().value == value
    {
      cell.Emit(value);
    }
  }

  /** `launchMolecule(body): StateFlow<T>`: the first composition creates the
      holder through the emitter, so `flow!!` never fails and the holder
      carries the first value on return. A body that throws emits nothing
      and that same throwable leaves the call before `flow!!`. */
  method LaunchMoleculeStateFlow<T>(body: Result<T>) returns (r: Result<LatestValueMolecule<T>>)
    ensures body.Raised? ==> r == Raised(body.error)
    ensures body.Ok? ==> r.Ok? && r.value.Valid() && fresh(r.value.cell) && fresh(r.value.Output())
                         && r.value.Output().value == body.value
    ensures body.Ok? ==> fresh(r.value.session) && r.value.session.Valid() && r.value.session.State() == Launched
  {
    var session, emitted, launched := LaunchMolecule(body);
    if launched.Raised? {
      return Raised(launched.error);
    }
    var cell := new LatestValueCell<T>();
    cell.Emit(emitted[0]);
    var m := new LatestValueMolecule(session, cell);
    r := Ok(m);
  }

  /** `moleculeComposeState(body)`: the same create-then-overwrite cell over
      a Compose `MutableState`, with `mutableState!!` in place of `flow!!`. */
  method MoleculeComposeState<T>(body: Result<T>) returns (r: Result<LatestValueMolecule<T>>)
    ensures body.Raised? ==> r == Raised(body.error)
    ensures body.Ok? ==> r.Ok? && r.value.Valid() && fresh(r.value.Output()) && r.value.Output().value == body.value
  {
    r := LaunchMoleculeStateFlow(body);
  }

  /** The first value is present on return and each later composition
      replaces it in place; a body that throws on its first composition
      makes each launcher fail with that same throwable. */
  method StateFlowScenario()
  {
    var launched := LaunchMoleculeStateFlow(Ok(1));
    var m := launched.value;
    var flow := m.Output();
    assert flow.value == 1;
    m.Recompose(2);
    m.Recompose(3);
    assert m.Output() == flow && flow.value == 3;
    var f, s, r := MoleculeFlow(false, Ok("a"));
    r := Recompose(f, "b");
    assert f.channel.elements == ["a", "b"];
    var g, t, q := MoleculeFlow(true, Ok("a"));
    r := Recompose(g, "b");
    assert g.delivered == ["a"] && g.channel.elements == ["b"];
    var e := new Throwable("RuntimeException", "boom", null);
    var failed := LaunchMoleculeStateFlow<int>(Raised(e));
    assert failed == Raised(e);
    failed := MoleculeComposeState(Raised(e));
    assert failed == Raised(e);
    var h, u, p := MoleculeFlow<string>(true, Raised(e));
    assert p == Raised(e) && h.delivered == [] && h.channel.elements == [];
  }
}
