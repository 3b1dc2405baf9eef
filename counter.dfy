/** The counter sample's presenter: a count and a loading flag in Compose
    state, updated by a loop over the events. `Change(delta)` adds to the
    count with Kotlin's `Int` wrap-around; `Randomize` raises the loading
    flag and launches a request to the random service for a number in
    [-20, 20], whose completion sets the count and clears the flag in one
    snapshot. The service is external: the number it returns is a
    parameter. */
module Counter {
  import opened Kotlin

  datatype CounterEvent = Change(delta: Int32) | Randomize

  datatype CounterModel = CounterModel(value: Int32, loading: bool)

  /** The model before any event. */
  const Initial: CounterModel := CounterModel(0, false)

  /** The range every random request asks for. */
  const RandomLow: int := -20
  const RandomHigh: int := 20

  /** What the collect loop does with one event. */
  function OnEvent(m: CounterModel, e: CounterEvent): (r: CounterModel)
    ensures e.Change? ==> r.loading == m.loading && (r.value - (m.value + e.delta)) % IntRange == 0
    ensures e.Randomize? ==> r.value == m.value && r.loading
  {
    match e
    case Change(delta) => m.(value := Wrap(m.value + delta))
    case Randomize => m.(loading := true)
  }

  /** The launched request completes with `result`: count and flag change
      together. */
  function OnRandomResult(m: CounterModel, result: Int32): (r: CounterModel)
    ensures r == CounterModel(result, false)
  {
    CounterModel(result, false)
  }

  /** The model after the events, in order, with no request completing. */
  function Fold(m: CounterModel, events: seq<CounterEvent>): CounterModel
    decreases |events|
  {
    if events == [] then m else Fold(OnEvent(m, events[0]), events[1..])
  }

  function SumDeltas(events: seq<CounterEvent>): int
  {
    if events == [] then 0
    else (if events[0].Change? then events[0].delta else 0) + SumDeltas(events[1..])
  }

  function CountRandomize(events: seq<CounterEvent>): nat
  {
    if events == [] then 0 else (if events[0].Randomize? then 1 else 0) + CountRandomize(events[1..])
  }

  /** The count is the start plus the sum of the deltas, wrapped into `Int`
      once (intermediate wrap-arounds do not matter); the loading flag is up
      iff it was up already or a `Randomize` arrived. */
  lemma {:induction false} FoldSums(m: CounterModel, events: seq<CounterEvent>)
    ensures Fold(m, events).value == Wrap(m.value + SumDeltas(events))
    ensures Fold(m, events).loading <==> m.loading || CountRandomize(events) > 0
    decreases |events|
  {
    if events == [] {
    } else {
      var next := OnEvent(m, events[0]);
      FoldSums(next, events[1..]);
      if events[0].Change? {
        WrapAdd(m.value + events[0].delta, SumDeltas(events[1..]));
      } else {
        WrapAdd(m.value, SumDeltas(events[1..]));
      }
    }
  }

  /** A random request sent to the service. */
  datatype RandomRequest = RandomRequest(low: int, high: int)

  /** `CounterPresenter`'s state. */
  class CounterPresenter {
    var count: Int32
    var loading: bool

    function Model(): CounterModel
      reads this
    {
      CounterModel(count, loading)
    }

    constructor ()
      ensures Model() == Initial
    {
      count := 0;
      loading := false;
    }

    /** `events.collect { … }` over `events`: the state follows `Fold`, and
        one request for [-20, 20] is launched per `Randomize`. */
    method Collect(events: seq<CounterEvent>) returns (requests: seq<RandomRequest>)
      modifies this
      ensures Model() == Fold(old(Model()), events)
      ensures |requests| == CountRandomize(events)
      ensures forall i :: 0 <= i < |requests| ==> requests[i] == RandomRequest(RandomLow, RandomHigh)
    {
      requests := [];
      var i := 0;
      while i < |events|
        invariant 0 <= i <= |events|
        invariant Fold(old(Model()), events) == Fold(Model(), events[i..])
        invariant |requests| + CountRandomize(events[i..]) == CountRandomize(events)
        invariant forall k :: 0 <= k < |requests| ==> requests[k] == RandomRequest(RandomLow, RandomHigh)
      {
        assert events[i..][0] == events[i] && events[i..][1..] == events[i + 1..];
        match events[i] {
          case Change(delta) =>
            count := Wrap(count + delta);
          case Randomize =>
            loading := true;
            requests := requests + [RandomRequest(RandomLow, RandomHigh)];
        }
        i := i + 1;
      }
    }

    /** The launched request completes inside `withMutableSnapshot`. */
    method RandomResult(result: Int32)
      modifies this
      ensures Model() == OnRandomResult(old(Model()), result)
    {
      count := result;
      loading := false;
    }
  }

  /** The local changes of the sample's test: +1, +1, then -10. */
  method CounterScenario()
  {
    var p := new CounterPresenter();
    var requests := p.Collect([Change(1)]);
    assert p.Model() == CounterModel(1, false);
    requests := p.Collect([Change(1)]);
    assert p.Model() == CounterModel(2, false);
    requests := p.Collect([Change(-10)]);
    assert p.Model() == CounterModel(-8, false) && requests == [];
  }

  /** The random changes of the sample's test: the service's numbers (18,
      then -4 from its seeded generator) are given. */
  method RandomizeScenario()
  {
    var p := new CounterPresenter();
    var requests := p.Collect([Randomize]);
    assert p.Model() == CounterModel(0, true) && requests == [RandomRequest(-20, 20)];
    p.RandomResult(18);
    assert p.Model() == CounterModel(18, false);
    requests := p.Collect([Randomize]);
    assert p.Model() == CounterModel(18, true);
    p.RandomResult(-4);
    assert p.Model() == CounterModel(-4, false);
  }
}
