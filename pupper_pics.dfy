/** The view-model sample's presenter. Four pieces of Compose state (the
    breed list, the selected breed, the picture URL and a fetch counter)
    start from a seed model; one effect loads the breed list and selects its
    first entry, one effect keyed on (selected breed, fetch counter) clears
    the URL and then loads a picture for the selected breed, and one effect
    collects the UI events. The service is external: the lists and URLs it
    returns are parameters, and the effects' suspension points are separate
    steps. */
module PupperPics {
  import opened Kotlin

  datatype Event = SelectBreed(breed: string) | FetchAgain

  datatype Model = Model(loading: bool, breeds: seq<string>, currentBreed: Option<string>, currentUrl: Option<string>)

  /** `dropdownText`: the selected breed, or the prompt when none is. */
  function DropdownText(m: Model): (t: string)
    ensures m.currentBreed.Some? ==> t == m.currentBreed.value
    ensures m.currentBreed.None? ==> t == "Select breed"
  {
    match m.currentBreed
    case Some(b) => b
    case None => "Select breed"
  }

  /** The view model's seed: nothing loaded, nothing selected. */
  const Seed: Model := Model(false, [], None, None)

  /** The presenter's remembered state. */
  datatype PresenterState = PresenterState(breeds: seq<string>, currentBreed: Option<string>, currentUrl: Option<string>, fetchId: Int32)

  /** The state remembered on the first composition. */
  function Seeded(seed: Model): (s: PresenterState)
    ensures s.breeds == seed.breeds && s.currentBreed == seed.currentBreed
    ensures s.currentUrl == seed.currentUrl && s.fetchId == 0
  {
    PresenterState(seed.breeds, seed.currentBreed, seed.currentUrl, 0)
  }

  /** The model each composition returns. */
  function Present(s: PresenterState): (m: Model)
    ensures m.loading <==> s.currentBreed.None?
    ensures m.breeds == s.breeds && m.currentBreed == s.currentBreed && m.currentUrl == s.currentUrl
  {
    Model(s.currentBreed.None?, s.breeds, s.currentBreed, s.currentUrl)
  }

  /** The key of the picture effect; a change restarts it. */
  function FetchKey(s: PresenterState): (Option<string>, Int32)
  {
    (s.currentBreed, s.fetchId)
  }

  /** What the event collector does with one event. */
  function OnEvent(s: PresenterState, e: Event): PresenterState
  {
    match e
    case SelectBreed(b) => s.(currentBreed := Some(b))
    case FetchAgain => s.(fetchId := Wrap(s.fetchId + 1))
  }

  function Fold(s: PresenterState, events: seq<Event>): PresenterState
    decreases |events|
  {
    if events == [] then s else Fold(OnEvent(s, events[0]), events[1..])
  }

  function CountFetchAgain(events: seq<Event>): nat
  {
    if events == [] then 0 else (if events[0].FetchAgain? then 1 else 0) + CountFetchAgain(events[1..])
  }

  /** The breed effect after `listBreeds()` returned `list`: the list is
      stored first, then `first()` selects its head; on an empty list
      `first()` throws and the selection is left as it was. */
  function OnBreedsLoaded(s: PresenterState, list: seq<string>): PresenterState
  {
    if list == [] then s.(breeds := list)
    else s.(breeds := list, currentBreed := Some(list[0]))
  }

  /** The picture effect up to its suspension: the URL is cleared. */
  function OnFetchStarted(s: PresenterState): PresenterState
  {
    s.(currentUrl := None)
  }

  /** The picture effect's service call returned `url`. */
  function OnFetchCompleted(s: PresenterState, url: string): PresenterState
  {
    s.(currentUrl := Some(url))
  }

  /** `FetchAgain` always changes the effect key, so it always restarts the
      picture effect, even when the counter wraps around. */
  lemma FetchAgainRestartsFetch(s: PresenterState)
    ensures FetchKey(OnEvent(s, FetchAgain)) != FetchKey(s)
  {
    WrapSuccDiffers(s.fetchId);
  }

  /** Selecting a breed restarts the picture effect exactly when it is not
      the breed already selected. */
  lemma SelectBreedRestartsOnChange(s: PresenterState, b: string)
    ensures FetchKey(OnEvent(s, SelectBreed(b))) != FetchKey(s) <==> s.currentBreed != Some(b)
  {
  }

  /** Events move only the selection and the counter: the breed list and the
      URL are the effects' business. The counter advances by the number of
      `FetchAgain` events, wrapped into `Int`; the selection is the last
      breed selected, if any. */
  lemma {:induction false} FoldTouchesSelectionAndCounter(s: PresenterState, events: seq<Event>)
    ensures Fold(s, events).breeds == s.breeds && Fold(s, events).currentUrl == s.currentUrl
    ensures Fold(s, events).fetchId == Wrap(s.fetchId + CountFetchAgain(events))
    ensures Fold(s, events).currentBreed == LastSelected(s.currentBreed, events)
    decreases |events|
  {
    if events != [] {
      var t, rest := OnEvent(s, events[0]), events[1..];
      FoldTouchesSelectionAndCounter(t, rest);
      assert Fold(s, events) == Fold(t, rest);
      assert LastSelected(s.currentBreed, events) == LastSelected(t.currentBreed, rest);
    }
    FoldCounter(s, events);
    CounterAfterWraps(s.fetchId, events);
  }

  /** The counter after `events`, one `Int` increment per `FetchAgain`. */
  function CounterAfter(fetchId: Int32, events: seq<Event>): Int32
    decreases |events|
  {
    if events == [] then fetchId
    else CounterAfter(if events[0].FetchAgain? then Wrap(fetchId + 1) else fetchId, events[1..])
  }

  lemma {:induction false} FoldCounter(s: PresenterState, events: seq<Event>)
    ensures Fold(s, events).fetchId == CounterAfter(s.fetchId, events)
    decreases |events|
  {
    if events != [] {
      FoldCounter(OnEvent(s, events[0]), events[1..]);
    }
  }

  /** Wrapping after each increment is wrapping once at the end. */
  lemma {:induction false} CounterAfterWraps(fetchId: Int32, events: seq<Event>)
    ensures CounterAfter(fetchId, events) == Wrap(fetchId + CountFetchAgain(events))
    decreases |events|
  {
    if events != [] {
      var later := CountFetchAgain(events[1..]);
      if events[0].FetchAgain? {
        CounterAfterWraps(Wrap(fetchId + 1), events[1..]);
        WrapAdd(fetchId + 1, later);
      } else {
        CounterAfterWraps(fetchId, events[1..]);
      }
    }
  }

  /** The breed of the last `SelectBreed` in `events`, or `current`. */
  function LastSelected(current: Option<string>, events: seq<Event>): (r: Option<string>)
    ensures current.Some? ==> r.Some?
    decreases |events|
  {
    if events == [] then current
    else LastSelected(if events[0].SelectBreed? then Some(events[0].breed) else current, events[1..])
  }

  /** A non-empty breed list ends the loading state and puts its first
      breed in the dropdown; an empty one leaves the selection as it was. */
  lemma BreedsLoadedEndsLoading(s: PresenterState, list: seq<string>)
    ensures Present(OnBreedsLoaded(s, list)).breeds == list
    ensures list != [] ==> !Present(OnBreedsLoaded(s, list)).loading
                           && DropdownText(Present(OnBreedsLoaded(s, list))) == list[0]
    ensures list == [] ==> Present(OnBreedsLoaded(s, list)).loading == Present(s).loading
  {
  }

  /** Once a breed is selected, no event and no effect brings back the
      loading state. */
  lemma {:induction false} SelectionIsKept(s: PresenterState, events: seq<Event>)
    requires s.currentBreed.Some?
    ensures !Present(Fold(s, events)).loading
  {
    FoldTouchesSelectionAndCounter(s, events);
  }

  /** A restarted picture effect shows no picture until its call returns,
      and then shows the returned one; the rest of the model is unchanged. */
  lemma FetchShowsOnlyTheNewPicture(s: PresenterState, url: string)
    ensures Present(OnFetchStarted(s)).currentUrl.None?
    ensures Present(OnFetchCompleted(OnFetchStarted(s), url)).currentUrl == Some(url)
    ensures Present(OnFetchStarted(s)).currentBreed == Present(s).currentBreed
    ensures Present(OnFetchStarted(s)).breeds == Present(s).breeds
  {
  }

  /** `PupperPicsPresenter`'s remembered state. */
  class PupperPicsPresenter {
    var breeds: seq<string>
    var currentBreed: Option<string>
    var currentUrl: Option<string>
    var fetchId: Int32

    function State(): PresenterState
      reads this
    {
      PresenterState(breeds, currentBreed, currentUrl, fetchId)
    }

    constructor (seed: Model)
      ensures State() == Seeded(seed)
    {
      breeds := seed.breeds;
      currentBreed := seed.currentBreed;
      currentUrl := seed.currentUrl;
      fetchId := 0;
    }

    /** `present(events)`'s return value. */
    function Model(): Model
      reads this
    {
      Present(State())
    }

    /** The breed effect: `breeds = listBreeds(); currentBreed = breeds.first()`.
        `first()` on an empty list throws `NoSuchElementException`. */
    method BreedsLoaded(list: seq<string>) returns (r: Result<()>)
      modifies this
      ensures State() == OnBreedsLoaded(old(State()), list)
      ensures r.Raised? <==> list == []
      ensures r.Raised? ==> fresh(r.error) && r.error.simpleName == "NoSuchElementException"
                            && r.error.message == "List is empty."
    {
      breeds := list;
      if breeds == [] {
        var e := new Throwable("NoSuchElementException", "List is empty.", null);
        r := Raised(e);
      } else {
        currentBreed := Some(breeds[0]);
        r := Ok(());
      }
    }

    /** The picture effect's start: clear the URL and name the breed to
        query; with no breed selected there is no call and the URL stays
        cleared. */
    method FetchStarted() returns (request: Option<string>)
      modifies this
      ensures State() == OnFetchStarted(old(State()))
      ensures request == currentBreed
    {
      currentUrl := None;
      request := currentBreed;
    }

    /** `randomImageUrlFor` returned `url`. */
    method FetchCompleted(url: string)
      modifies this
      ensures State() == OnFetchCompleted(old(State()), url)
    {
      currentUrl := Some(url);
    }

    /** `events.collect { … }`, with the key of the picture effect after
        each event: one entry per event, so a caller sees which events
        restart it. */
    method Collect(events: seq<Event>) returns (keys: seq<(Option<string>, Int32)>)
      modifies this
      ensures State() == Fold(old(State()), events)
      ensures |keys| == |events|
      ensures forall i :: 0 <= i < |keys| ==> keys[i] == FetchKey(Fold(old(State()), events[..i + 1]))
    {
      keys := [];
      var i := 0;
      while i < |events|
        invariant 0 <= i <= |events|
        invariant State() == Fold(old(State()), events[..i])
        invariant |keys| == i
        invariant forall k :: 0 <= k < i ==> keys[k] == FetchKey(Fold(old(State()), events[..k + 1]))
      {
        FoldSnoc(old(State()), events[..i], events[i]);
        assert events[..i + 1] == events[..i] + [events[i]];
        match events[i] {
          case SelectBreed(b) => currentBreed := Some(b);
          case FetchAgain => fetchId := Wrap(fetchId + 1);
        }
        keys := keys + [FetchKey(State())];
        i := i + 1;
      }
      assert events[..|events|] == events;
    }
  }

  lemma {:induction false} FoldSnoc(s: PresenterState, events: seq<Event>, e: Event)
    ensures Fold(s, events + [e]) == OnEvent(Fold(s, events), e)
    decreases |events|
  {
    if events != [] {
      assert (events + [e])[1..] == events[1..] + [e];
      FoldSnoc(OnEvent(s, events[0]), events[1..], e);
    }
  }

  /** The sequence the sample's tests walk through: seed, breed list, first
      picture, then selecting "boxer" and fetching again. */
  method PupperPicsScenario()
  {
    var p := new PupperPicsPresenter(Seed);
    assert p.Model().loading && DropdownText(p.Model()) == "Select breed";
    var r := p.BreedsLoaded(["akita", "boxer", "corgi"]);
    assert !p.Model().loading && DropdownText(p.Model()) == "akita";
    var request := p.FetchStarted();
    assert request == Some("akita");
    p.FetchCompleted("akita.jpg");
    var events := [SelectBreed("boxer"), FetchAgain];
    ghost var before := p.State();
    var keys := p.Collect(events);
    assert events[..1] == [SelectBreed("boxer")] && events[..2] == events;
    assert Fold(before, events[..1]) == before.(currentBreed := Some("boxer"));
    assert p.fetchId == 1 && p.currentBreed == Some("boxer");
    assert keys[0] == (Some("boxer"), 0) && keys[1] == (Some("boxer"), 1);
  }
}
