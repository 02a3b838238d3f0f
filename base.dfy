/** Types shared by the whole model: failure-compatible wrappers, bytes and
    the bounds of Java's 32-bit `int`. */
module Base {

  /** A value that may be absent; stands for a Java reference that may be null. */
  datatype Option<+T> = None | Some(value: T)

  /** The outcome of a Java method that returns a value or throws. */
  datatype Result<+T, +E> = Success(value: T) | Failure(error: E)

  /** The outcome of a Java `void` method that may throw. */
  datatype Outcome<+E> = Pass | Fail(error: E)

  /** One byte of a socket stream, as an unsigned value. */
  type Byte = b: int | 0 <= b < 256

  /** A Java `byte[]`: its length is an `int`. */
  type ByteArray = s: seq<Byte> | |s| <= INT_MAX

  /** `Integer.MAX_VALUE` and `Integer.MIN_VALUE`. */
  const INT_MAX: int := 0x7FFF_FFFF
  const INT_MIN: int := -0x8000_0000

  predicate IsJavaInt(i: int) {
    INT_MIN <= i <= INT_MAX
  }

  function Min(a: int, b: int): int {
    if a <= b then a else b
  }

  /** Concatenation is associative; stated once so that proofs about large
      terms need not rediscover it element by element. */
  lemma AppendAssoc<T>(a: seq<T>, b: seq<T>, c: seq<T>)
    ensures (a + b) + c == a + (b + c)
  {
  }
}
