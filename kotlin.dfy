/** Kotlin and JVM building blocks the model is written in: nullable values,
    calls that throw, the JVM's 32-bit `Int`, `Throwable` with its suppressed
    list, and the bounded `Channel` of kotlinx.coroutines. */
module Kotlin {

  /** A nullable value: `None` is Kotlin's `null`. */
  datatype Option<+T> = None | Some(value: T)

  /** A call that either returns normally or throws `error`. */
  datatype Result<+T> = Ok(value: T) | Raised(error: Throwable)

  const IntMin: int := -0x8000_0000
  const IntMax: int := 0x7fff_ffff
  const IntRange: int := 0x1_0000_0000

  /** Values of Kotlin's `Int`. */
  type Int32 = x: int | IntMin <= x <= IntMax

  /** Two's-complement wrap-around of an exact sum into `Int`, as the JVM's
      `iadd` does. */
  function Wrap(x: int): (r: Int32)
    ensures (r - x) % IntRange == 0
    ensures IntMin <= x <= IntMax ==> r == x
  {
    (x - IntMin) % IntRange + IntMin
  }

  /** Wrapping an intermediate sum does not change the final wrapped sum. */
  lemma WrapAdd(a: int, b: int)
    ensures Wrap(Wrap(a) + b) == Wrap(a + b)
  {
    var k := (a - IntMin) / IntRange;
    assert Wrap(a) == a - k * IntRange;
    assert Wrap(a) + b - IntMin == (a + b - IntMin) - k * IntRange;
    ModShift(a + b - IntMin, k);
  }

  lemma ModShift(x: int, k: int)
    ensures (x - k * IntRange) % IntRange == x % IntRange
  {
    var q := x / IntRange;
    var r := x % IntRange;
    assert x - k * IntRange == (q - k) * IntRange + r;
  }

  /** Adding one to an `Int` always yields a different `Int`, wrap-around
      included. */
  lemma WrapSuccDiffers(x: Int32)
    ensures Wrap(x + 1) != x
  {
    if x == IntMax {
      assert Wrap(x + 1) == IntMin;
    }
  }

  /** A JVM `Throwable`. Its identity is the object's identity, so "the same
      exception" is reference equality. */
  class Throwable {
    const simpleName: string
    const message: string
    const cause: Throwable?
    var suppressed: seq<Throwable>

    constructor (simpleName: string, message: string, cause: Throwable?)
      ensures this.simpleName == simpleName && this.message == message
      ensures this.cause == cause && suppressed == []
    {
      this.simpleName := simpleName;
      this.message := message;
      this.cause := cause;
      suppressed := [];
    }

    /** Kotlin's `Throwable.addSuppressed(exception)`: appends `exception` to
        the suppressed list, except that suppressing the throwable itself is
        ignored; returns whether `e` was added. */
    method AddSuppressed(e: Throwable) returns (added: bool)
      modifies this
      ensures added == (e != this)
      ensures suppressed == if added then old(suppressed) + [e] else old(suppressed)
    {
      added := e != this;
      if added {
        suppressed := suppressed + [e];
      }
    }
  }

  /** The message `ChannelResult.getOrThrow` raises for a send or receive that
      failed without the channel being closed. */
  const FailedResultMessage: string := "Trying to call 'getOrThrow' on a failed channel result: Failed"

  /** A kotlinx.coroutines `Channel` with a fixed capacity that is never
      closed: `trySend` fails when the buffer is full. The channel holds only
      the buffered values; a receiver suspended in `receive()` is tracked by
      its owner (a `receiving` flag), which hands it a sent value directly. */
  class Channel<T> {
    const capacity: nat
    var elements: seq<T>

    ghost predicate Valid()
      reads this
    {
      |elements| <= capacity
    }

    constructor (capacity: nat)
      ensures Valid() && this.capacity == capacity && elements == []
    {
      this.capacity := capacity;
      elements := [];
    }

    /** `trySend(value).getOrThrow()`: appends, or raises when full. */
    method TrySendOrThrow(value: T) returns (r: Result<()>)
      requires Valid()
      modifies this
      ensures Valid()
      ensures r.Ok? <==> |old(elements)| < capacity
      ensures r.Ok? ==> elements == old(elements) + [value]
      ensures r.Raised? ==> elements == old(elements)
      ensures r.Raised? ==> fresh(r.error) && r.error.simpleName == "IllegalStateException"
                            && r.error.message == FailedResultMessage
    {
      if |elements| < capacity {
        elements := elements + [value];
        r := Ok(());
      } else {
        var e := new Throwable("IllegalStateException", FailedResultMessage, null);
        r := Raised(e);
      }
    }

    /** `tryReceive()`: takes the head, or reports the channel empty. */
    method TryReceive() returns (r: Option<T>)
      requires Valid()
      modifies this
      ensures Valid()
      ensures r.None? <==> old(elements) == []
      ensures r.Some? ==> r.value == old(elements)[0] && elements == old(elements)[1..]
      ensures r.None? ==> elements == old(elements)
    {
      if elements == [] {
        r := None;
      } else {
        r := Some(elements[0]);
        elements := elements[1..];
      }
    }
  }
}
