/** The first `moleculeFlow`, whose body returns an `Action`: `Emit(item)`
    asks for `item` to be emitted, `Skip` asks for nothing. A composition
    only records the item and raises the `valueChanged` flag; the flow's own
    loop emits the recorded item when the flag is up, clearing it first, and
    then waits for the next frame of the context's clock. The actions the
    compositions return are parameters: the first composition runs when the
    content is set, and the compositions of each frame run while the loop
    waits for that frame. */
module ActionFlow {
  import opened Kotlin
  import Compose

  /** `Action<T>`: `Emit(item)` or `Skip`. */
  datatype Action<+T> = Emit(item: T) | Skip

  /** The `item` state and the `valueChanged` flag the compositions write. */
  datatype Slot<+T> = Slot(item: Option<T>, valueChanged: bool)

  /** A raised flag always comes with an item: the unchecked `item as T`
      never sees the initial `null`. */
  predicate Recorded<T>(s: Slot<T>)
  {
    s.valueChanged ==> s.item.Some?
  }

  /** One composition: `Emit(x)` stores `x` and raises the flag, `Skip`
      changes nothing. */
  function RunComposition<T>(s: Slot<T>, a: Action<T>): (r: Slot<T>)
    ensures a.Emit? ==> r == Slot(Some(a.item), true)
    ensures a.Skip? ==> r == s
  {
    match a
    case Emit(x) => Slot(Some(x), true)
    case Skip => s
  }

  /** Several compositions in a row. */
  function RunCompositions<T>(s: Slot<T>, actions: seq<Action<T>>): Slot<T>
    decreases |actions|
  {
    if actions == [] then s else RunCompositions(RunComposition(s, actions[0]), actions[1..])
  }

  predicate HasEmit<T>(actions: seq<Action<T>>)
  {
    exists i :: 0 <= i < |actions| && actions[i].Emit?
  }

  /** The item of the last `Emit` among `actions`. */
  function LastEmit<T>(actions: seq<Action<T>>): T
    requires HasEmit(actions)
    decreases |actions|
  {
    var last := actions[|actions| - 1];
    if last.Emit? then last.item
    else
      assert HasEmit(actions[..|actions| - 1]) by {
        var i :| 0 <= i < |actions| && actions[i].Emit?;
        assert actions[..|actions| - 1][i] == actions[i];
      }
      LastEmit(actions[..|actions| - 1])
  }

  /** Compositions between two loop turns conflate: the flag ends up raised
      iff one of them emitted (or it was raised before), and the item is the
      last emitted one. */
  lemma {:induction false} RunCompositionsConflate<T>(s: Slot<T>, actions: seq<Action<T>>)
    ensures var r := RunCompositions(s, actions);
      && (r.valueChanged <==> s.valueChanged || HasEmit(actions))
      && (HasEmit(actions) ==> r.item == Some(LastEmit(actions)))
      && (!HasEmit(actions) ==> r == s)
    decreases |actions|
  {
    if actions != [] {
      var n := |actions|;
      var init := actions[..n - 1];
      RunCompositionsSnoc(s, init, actions[n - 1]);
      assert actions == init + [actions[n - 1]];
      RunCompositionsConflate(s, init);
      if HasEmit(init) && !actions[n - 1].Emit? {
        assert HasEmit(actions) by {
          var i :| 0 <= i < |init| && init[i].Emit?;
          assert actions[i] == init[i];
        }
      }
      if HasEmit(actions) && !actions[n - 1].Emit? {
        assert HasEmit(init) by {
          var i :| 0 <= i < |actions| && actions[i].Emit?;
          assert init[i] == actions[i];
        }
      }
      if !HasEmit(init) && actions[n - 1].Emit? {
        assert HasEmit(actions);
      }
      if HasEmit(init) && actions[n - 1].Emit? {
        assert HasEmit(actions);
      }
    }
  }

  lemma {:induction false} RunCompositionsSnoc<T>(s: Slot<T>, actions: seq<Action<T>>, a: Action<T>)
    ensures RunCompositions(s, actions + [a]) == RunComposition(RunCompositions(s, actions), a)
    decreases |actions|
  {
    if actions == [] {
      assert actions + [a] == [a];
    } else {
      assert (actions + [a])[0] == actions[0];
      assert (actions + [a])[1..] == actions[1..] + [a];
      RunCompositionsSnoc(RunComposition(s, actions[0]), actions[1..], a);
    }
  }

  /** What the flow does, in order: emissions downstream and waits for a
      frame. */
  datatype Step<+T> = Emitted(value: T) | AwaitedFrame

  /** One turn of the `while (true)` loop from `s`: the pending item, if the
      flag is up, then the wait for a frame. */
  function Turn<T>(s: Slot<T>): seq<Step<T>>
    requires Recorded(s)
  {
    (if s.valueChanged then [Emitted(s.item.value)] else []) + [AwaitedFrame]
  }

  /** The loop's trace from `s`, when the compositions of the successive
      frames return `frames[0]`, `frames[1]`, …; after the last frame the
      loop waits until it is cancelled. */
  function Trace<T>(s: Slot<T>, frames: seq<seq<Action<T>>>): seq<Step<T>>
    requires Recorded(s)
    decreases |frames|
  {
    Turn(s) +
    if frames == [] then []
    else
      RunCompositionsRecorded(s.(valueChanged := false), frames[0]);
      Trace(RunCompositions(s.(valueChanged := false), frames[0]), frames[1..])
  }

  lemma {:induction false} RunCompositionsRecorded<T>(s: Slot<T>, actions: seq<Action<T>>)
    requires Recorded(s)
    ensures Recorded(RunCompositions(s, actions))
    decreases |actions|
  {
    if actions != [] {
      RunCompositionsRecorded(RunComposition(s, actions[0]), actions[1..]);
    }
  }

  function CountEmitted<T>(steps: seq<Step<T>>): nat
  {
    if steps == [] then 0 else (if steps[0].Emitted? then 1 else 0) + CountEmitted(steps[1..])
  }

  lemma {:induction false} CountEmittedAppend<T>(a: seq<Step<T>>, b: seq<Step<T>>)
    ensures CountEmitted(a + b) == CountEmitted(a) + CountEmitted(b)
    decreases |a|
  {
    if a != [] {
      assert (a + b)[0] == a[0];
      assert (a + b)[1..] == a[1..] + b;
      CountEmittedAppend(a[1..], b);
    } else {
      assert a + b == b;
    }
  }

  function CountEmitting<T>(frames: seq<seq<Action<T>>>): nat
  {
    if frames == [] then 0 else (if HasEmit(frames[0]) then 1 else 0) + CountEmitting(frames[1..])
  }

  /** Each frame emits at most one value, and exactly one when one of its
      compositions returned `Emit`: `Skip` compositions produce no output
      and several emits in one frame produce one. */
  lemma {:induction false} OneEmissionPerEmittingFrame<T>(s: Slot<T>, frames: seq<seq<Action<T>>>)
    requires Recorded(s)
    ensures CountEmitted(Trace(s, frames)) == (if s.valueChanged then 1 else 0) + CountEmitting(frames)
    decreases |frames|
  {
    CountEmittedAppend(Turn(s), if frames == [] then [] else
      (RunCompositionsRecorded(s.(valueChanged := false), frames[0]);
       Trace(RunCompositions(s.(valueChanged := false), frames[0]), frames[1..])));
    assert CountEmitted(Turn(s)) == if s.valueChanged then 1 else 0 by {
      if s.valueChanged {
        assert Turn(s) == [Emitted(s.item.value), AwaitedFrame];
      } else {
        assert Turn(s) == [AwaitedFrame];
      }
    }
    if frames != [] {
      var cleared := s.(valueChanged := false);
      RunCompositionsRecorded(cleared, frames[0]);
      RunCompositionsConflate(cleared, frames[0]);
      OneEmissionPerEmittingFrame(RunCompositions(cleared, frames[0]), frames[1..]);
    }
  }

  /** Several emits in one frame conflate to the last item: the turn after
      that frame emits it first. */
  lemma FrameEmitsLastItem<T>(s: Slot<T>, frames: seq<seq<Action<T>>>)
    requires Recorded(s) && frames != [] && HasEmit(frames[0])
    ensures var t := Turn(s);
      |Trace(s, frames)| > |t| && Trace(s, frames)[|t|] == Emitted(LastEmit(frames[0]))
  {
    var cleared := s.(valueChanged := false);
    RunCompositionsConflate(cleared, frames[0]);
    RunCompositionsRecorded(cleared, frames[0]);
    var next := RunCompositions(cleared, frames[0]);
    assert Trace(s, frames) == Turn(s) + Trace(next, frames[1..]);
    assert Trace(next, frames[1..])[0] == Emitted(LastEmit(frames[0]));
  }

  /** The first item is emitted before the loop first waits for a frame. */
  lemma FirstItemBeforeFirstFrame<T>(first: T, frames: seq<seq<Action<T>>>)
    ensures var s := RunComposition(Slot(None, false), Emit(first));
      Recorded(s) && Trace(s, frames)[..2] == [Emitted(first), AwaitedFrame]
  {
  }

  /** A body that always skips never emits. */
  lemma SkipOnlyEmitsNothing<T>(frames: seq<seq<Action<T>>>)
    requires forall i, j :: 0 <= i < |frames| && 0 <= j < |frames[i]| ==> frames[i][j] == Skip
    ensures var s := RunComposition(Slot(None, false), Skip);
      Recorded(s) && CountEmitted(Trace(s, frames)) == 0
  {
    var s: Slot<T> := Slot(None, false);
    OneEmissionPerEmittingFrame(s, frames);
    NoEmittingFrames(frames);
  }

  lemma {:induction false} NoEmittingFrames<T>(frames: seq<seq<Action<T>>>)
    requires forall i, j :: 0 <= i < |frames| && 0 <= j < |frames[i]| ==> frames[i][j] == Skip
    ensures CountEmitting(frames) == 0
    decreases |frames|
  {
    if frames != [] {
      assert forall j :: 0 <= j < |frames[0]| ==> !frames[0][j].Emit?;
      assert forall i, j :: 0 <= i < |frames[1..]| && 0 <= j < |frames[1..][i]| ==> frames[1..][i][j] == frames[i + 1][j];
      NoEmittingFrames(frames[1..]);
    }
  }

  /** One loop turn moves the turn's steps from the remaining trace to the
      output. */
  lemma TraceStep<T>(s: Slot<T>, frames: seq<seq<Action<T>>>, out: seq<Step<T>>, total: seq<Step<T>>)
    requires Recorded(s) && frames != [] && out + Trace(s, frames) == total
    ensures Recorded(RunCompositions(s.(valueChanged := false), frames[0]))
    ensures (out + Turn(s)) + Trace(RunCompositions(s.(valueChanged := false), frames[0]), frames[1..]) == total
  {
    RunCompositionsRecorded(s.(valueChanged := false), frames[0]);
  }

  const MissingClockMessage: string := "Coroutine context must have a MonotonicFrameClock"

  /** The head of one loop turn: a raised flag is cleared first and the
      item emitted; then the loop waits for a frame. */
  method TakeTurn<T>(slot: Slot<T>) returns (next: Slot<T>, turn: seq<Step<T>>)
    requires Recorded(slot)
    ensures turn == Turn(slot) && next == slot.(valueChanged := false)
  {
    next := slot;
    turn := [];
    if next.valueChanged {
      next := next.(valueChanged := false);
      turn := [Emitted(next.item.value)];
    }
    turn := turn + [AwaitedFrame];
  }

  /** `setContent` (the first composition returns `first`) and the
      `while (true)` loop, one turn per frame; the compositions of each frame
      run while the loop waits for it. */
  method EmitLoop<T>(first: Action<T>, frames: seq<seq<Action<T>>>) returns (out: seq<Step<T>>)
    ensures Recorded(RunComposition(Slot(None, false), first))
    ensures out == Trace(RunComposition(Slot(None, false), first), frames)
  {
    var slot := RunComposition(Slot(None, false), first);
    ghost var total := Trace(slot, frames);
    out := [];
    var rest := frames;
    while rest != []
      invariant Recorded(slot)
      invariant out + Trace(slot, rest) == total
      decreases |rest|
    {
      var next, turn := TakeTurn(slot);
      TraceStep(slot, rest, out, total);
      RunCompositionsRecorded(next, rest[0]);
      out := out + turn;
      slot := RunCompositions(next, rest[0]);
      rest := rest[1..];
    }
    var next, turn := TakeTurn(slot);
    out := out + turn;
  }

  /** Collecting `moleculeFlow(body)`. Without a `MonotonicFrameClock` in the
      context `checkNotNull` fails before anything is registered. Otherwise
      the session registers the debounced write observer and sets the
      content: a body that throws on this first composition leaves the
      `try` with that same throwable, and `finally` disposes the observer
      handle. Else the loop runs, and when the frames run out the collection
      is cancelled while waiting and `finally` disposes the handle. */
  method Collect<T>(hasClock: bool, first: Result<Action<T>>, frames: seq<seq<Action<T>>>)
    returns (r: Result<seq<Step<T>>>, session: Compose.Session?)
    ensures r.Raised? <==> !hasClock || first.Raised?
    ensures !hasClock ==> session == null && r.Raised? && r.error.simpleName == "IllegalStateException"
                          && r.error.message == MissingClockMessage
    ensures hasClock && first.Raised? ==> r == Raised(first.error)
    ensures r.Ok? ==> Recorded(RunComposition(Slot(None, false), first.value))
                      && r.value == Trace(RunComposition(Slot(None, false), first.value), frames)
    ensures hasClock ==> session != null && session.handleDisposed
  {
    if !hasClock {
      var e := new Throwable("IllegalStateException", MissingClockMessage, null);
      return Raised(e), null;
    }
    session := new Compose.Session();
    match first {
      case Raised(e) =>
        r := Raised(e);
      case Ok(action) =>
        var out := EmitLoop(action, frames);
        r := Ok(out);
    }
    session.HandleDisposed();
  }

  /** A body that throws on its first composition: the collection fails
      with that same throwable, and the observer handle is disposed all the
      same. */
  method FailingBodyScenario()
  {
    var e := new Throwable("RuntimeException", "boom", null);
    var r, session := Collect<int>(true, Raised(e), [[Emit(1)]]);
    assert r == Raised(e) && session != null && session.handleDisposed;
  }
}
