/** The Compose runtime as the core sees it. `BroadcastFrameClock` is an
    external class: only what the core observes of it is kept (how many
    `withFrameNanos` callers are suspended, and which frame times it
    broadcast to how many of them). `Session` is the bookkeeping that every
    `launchMolecule` variant wraps around its Recomposer: the debounced global
    write observer (`applyScheduled`) and the disposal on job completion. */
module Compose {

  /** `androidx.compose.runtime.BroadcastFrameClock`. */
  class BroadcastFrameClock {
    /** `withFrameNanos` callers waiting for the next frame. */
    var awaiters: nat
    /** Every `sendFrame(t)` so far, oldest first. */
    var frames: seq<int>
    /** How many awaiters each of `frames` resumed. */
    var resumed: seq<nat>

    constructor ()
      ensures awaiters == 0 && frames == [] && resumed == []
    {
      awaiters := 0;
      frames := [];
      resumed := [];
    }

    /** A new `withFrameNanos` caller suspends; `first` says the awaiter list
        was empty, which is when the clock invokes its `onNewAwaiters`
        callback. */
    method AddAwaiter() returns (first: bool)
      modifies this
      ensures first == (old(awaiters) == 0)
      ensures awaiters == old(awaiters) + 1
      ensures frames == old(frames) && resumed == old(resumed)
    {
      first := awaiters == 0;
      awaiters := awaiters + 1;
    }

    /** `n` callers of `withFrameNanos` suspend one after the other. */
    method AddAwaiters(n: nat)
      modifies this
      ensures awaiters == old(awaiters) + n
      ensures frames == old(frames) && resumed == old(resumed)
    {
      var k := 0;
      while k < n
        invariant 0 <= k <= n
        invariant awaiters == old(awaiters) + k
        invariant frames == old(frames) && resumed == old(resumed)
      {
        var first := AddAwaiter();
        k := k + 1;
      }
    }

    /** `sendFrame(t)`: every suspended awaiter resumes with the same `t`. */
    method SendFrame(t: int)
      modifies this
      ensures awaiters == 0
      ensures frames == old(frames) + [t]
      ensures resumed == old(resumed) + [old(awaiters)]
    {
      frames := frames + [t];
      resumed := resumed + [awaiters];
      awaiters := 0;
    }
  }

  /** The state a `launchMolecule` session keeps beside its Recomposer:
      the `applyScheduled` flag of the global write observer, the apply
      tasks it launched that have not run yet, how many times
      `Snapshot.sendApplyNotifications()` ran, and whether the composition
      and the observer handle were disposed. */
  datatype SessionState = SessionState(
    applyScheduled: bool,
    pendingApplies: nat,
    notifications: nat,
    compositionDisposed: bool,
    handleDisposed: bool)

  /** A freshly launched session. */
  const Launched: SessionState := SessionState(false, 0, 0, false, false)

  /** What the debounce keeps: at most one apply task is pending, and while
      the observer is registered the flag says exactly whether one is. */
  predicate Debounced(s: SessionState)
  {
    && s.pendingApplies <= 1
    && (!s.handleDisposed ==> (s.applyScheduled <==> s.pendingApplies == 1))
  }

  /** The global write observer is called: when no apply is scheduled it sets
      the flag and launches one apply task. A disposed handle is no longer
      called. */
  function OnGlobalWrite(s: SessionState): (r: SessionState)
    requires Debounced(s)
    ensures Debounced(r)
    ensures r.handleDisposed == s.handleDisposed && r.compositionDisposed == s.compositionDisposed
    ensures r.notifications == s.notifications
    ensures r.pendingApplies == 1 || s.handleDisposed
    ensures r.pendingApplies != s.pendingApplies <==> !s.handleDisposed && !s.applyScheduled
  {
    if s.handleDisposed || s.applyScheduled then s
    else s.(applyScheduled := true, pendingApplies := s.pendingApplies + 1)
  }

  /** The scheduler runs the launched apply task, if there is one: it clears
      the flag first and then sends the apply notifications. */
  function RunApplyTask(s: SessionState): (r: SessionState)
    requires Debounced(s)
    ensures Debounced(r)
    ensures r.pendingApplies == 0 && !(r.applyScheduled && !r.handleDisposed)
    ensures r.notifications == s.notifications + s.pendingApplies
    ensures r.handleDisposed == s.handleDisposed && r.compositionDisposed == s.compositionDisposed
  {
    if s.pendingApplies == 0 then s
    else s.(applyScheduled := false, pendingApplies := 0, notifications := s.notifications + 1)
  }

  /** `job.invokeOnCompletion`: the job completed (normally, by failure or by
      cancellation), so its child tasks are gone and both the composition and
      the observer handle are disposed. */
  function OnJobCompletion(s: SessionState): (r: SessionState)
    ensures r.compositionDisposed && r.handleDisposed && r.pendingApplies == 0
    ensures r.notifications == s.notifications
  {
    s.(pendingApplies := 0, compositionDisposed := true, handleDisposed := true)
  }

  /** `snapshotHandle.dispose()` alone, as a `finally` block does it: the
      observer is gone, an apply task already launched may still run. */
  function DisposeHandle(s: SessionState): (r: SessionState)
    requires Debounced(s)
    ensures Debounced(r) && r.handleDisposed
    ensures r.pendingApplies == s.pendingApplies && r.notifications == s.notifications
    ensures r.compositionDisposed == s.compositionDisposed
  {
    s.(handleDisposed := true)
  }

  datatype SessionEvent = GlobalWrite | ApplyTaskRuns | JobCompletes

  function Step(s: SessionState, e: SessionEvent): SessionState
    requires Debounced(s)
  {
    match e
    case GlobalWrite => OnGlobalWrite(s)
    case ApplyTaskRuns => RunApplyTask(s)
    case JobCompletes => OnJobCompletion(s)
  }

  /** The state after the events `es`, in order. */
  function Replay(s: SessionState, es: seq<SessionEvent>): (r: SessionState)
    requires Debounced(s)
    ensures Debounced(r)
    decreases |es|
  {
    if es == [] then s else Replay(Step(s, es[0]), es[1..])
  }

  function CountWrites(es: seq<SessionEvent>): nat
  {
    if es == [] then 0 else (if es[0] == GlobalWrite then 1 else 0) + CountWrites(es[1..])
  }

  /** However many writes arrive in a row, at most one apply task is pending
      afterwards, and exactly one if the observer is still registered and at
      least one write arrived. */
  lemma {:induction false} WritesCoalesce(s: SessionState, n: nat)
    requires Debounced(s)
    ensures var r := Replay(s, seq(n, _ => GlobalWrite));
      && r.pendingApplies <= 1
      && (n > 0 && !s.handleDisposed ==> r.pendingApplies == 1 && r.applyScheduled)
      && r.notifications == s.notifications
    decreases n
  {
    if n > 0 {
      var es := seq(n, _ => GlobalWrite);
      assert es[0] == GlobalWrite && es[1..] == seq(n - 1, _ => GlobalWrite);
      WritesCoalesce(OnGlobalWrite(s), n - 1);
    }
  }

  /** Every notification pass is caused by a write: from a launched session
      the number of `sendApplyNotifications()` calls never exceeds the number
      of writes, whatever order the scheduler chooses. */
  lemma {:induction false} NotificationsNeedWrites(s: SessionState, es: seq<SessionEvent>)
    requires Debounced(s)
    ensures Replay(s, es).notifications + Replay(s, es).pendingApplies
            <= s.notifications + s.pendingApplies + CountWrites(es)
    decreases |es|
  {
    if es != [] {
      NotificationsNeedWrites(Step(s, es[0]), es[1..]);
    }
  }

  /** Once the job has completed, nothing else happens: further writes are
      not observed and no apply task runs. */
  lemma {:induction false} CompletedIsFinal(s: SessionState, es: seq<SessionEvent>)
    requires Debounced(s) && s.handleDisposed && s.compositionDisposed && s.pendingApplies == 0
    ensures Replay(s, es) == s
    decreases |es|
  {
    if es != [] {
      CompletedIsFinal(Step(s, es[0]), es[1..]);
    }
  }

  /** Once the observer handle is disposed, writes are no longer observed:
      any number of them leaves the session as it was. */
  lemma {:induction false} WritesAfterDisposeIgnored(s: SessionState, n: nat)
    requires Debounced(s)
    ensures Replay(DisposeHandle(s), seq(n, _ => GlobalWrite)) == DisposeHandle(s)
    decreases n
  {
    if n > 0 {
      var es := seq(n, _ => GlobalWrite);
      assert es[0] == GlobalWrite && es[1..] == seq(n - 1, _ => GlobalWrite);
      assert OnGlobalWrite(DisposeHandle(s)) == DisposeHandle(s);
      WritesAfterDisposeIgnored(s, n - 1);
    }
  }

  /** Disposing twice is the same as disposing once. */
  lemma CompletionIdempotent(s: SessionState)
    ensures OnJobCompletion(OnJobCompletion(s)) == OnJobCompletion(s)
  {
  }

  /** The session objects behind `launchMolecule`: the flag captured by the
      write observer, and the composition and observer handle that
      `invokeOnCompletion` disposes. */
  class Session {
    var applyScheduled: bool
    var pendingApplies: nat
    var notifications: nat
    var compositionDisposed: bool
    var handleDisposed: bool

    function State(): SessionState
      reads this
    {
      SessionState(applyScheduled, pendingApplies, notifications, compositionDisposed, handleDisposed)
    }

    ghost predicate Valid()
      reads this
    {
      Debounced(State())
    }

    /** Registers the write observer and the completion handler. */
    constructor ()
      ensures Valid() && State() == Launched
    {
      applyScheduled := false;
      pendingApplies := 0;
      notifications := 0;
      compositionDisposed := false;
      handleDisposed := false;
    }

    method GlobalWrite()
      requires Valid()
      modifies this
      ensures Valid() && State() == OnGlobalWrite(old(State()))
    {
      if !handleDisposed && !applyScheduled {
        applyScheduled := true;
        pendingApplies := pendingApplies + 1;
      }
    }

    method ApplyTaskRuns()
      requires Valid()
      modifies this
      ensures Valid() && State() == RunApplyTask(old(State()))
    {
      if pendingApplies > 0 {
        pendingApplies := 0;
        applyScheduled := false;
        notifications := notifications + 1;
      }
    }

    method HandleDisposed()
      requires Valid()
      modifies this
      ensures Valid() && State() == DisposeHandle(old(State()))
    {
      handleDisposed := true;
    }

    method JobCompletes()
      requires Valid()
      modifies this
      ensures Valid() && State() == OnJobCompletion(old(State()))
    {
      pendingApplies := 0;
      compositionDisposed := true;
      handleDisposed := true;
    }
  }
}
