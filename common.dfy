/** Shared vocabulary of both transaction creators: the outcome of a collaborator
    call (it returns, or it raises a tagged error), Kotlin's fixed-width integers,
    and two questions asked of a trace of collaborator calls (how often a call
    occurs, and whether one call comes before another). */
module Common {

  /** The outcome of a collaborator call that returns nothing: it returned
      normally, or it raised `error`. */
  datatype Outcome<+E> = Pass | Fail(error: E)

  /** The outcome of a collaborator call that returns a value. */
  datatype Result<+T, +E> = Success(value: T) | Failure(error: E)

  /** A Kotlin nullable reference. */
  datatype Option<+T> = None | Some(value: T)

  /** Kotlin `Byte`, `Int` and `Long`. The creators only pass these values on,
      so no arithmetic (and no wrap-around) is ever needed on them. */
  newtype Int8 = x: int | -0x80 <= x < 0x80
  newtype Int32 = x: int | -0x8000_0000 <= x < 0x8000_0000
  newtype Int64 = x: int | -0x8000_0000_0000_0000 <= x < 0x8000_0000_0000_0000

  /** The number of times `x` occurs in the trace `s`. */
  function Count<T(==)>(s: seq<T>, x: T): (n: nat)
    ensures n <= |s|
    ensures n > 0 <==> x in s
  {
    if s == [] then 0
    else (if s[0] == x then 1 else 0) + Count(s[1..], x)
  }

  /** Counting distributes over the concatenation of two traces. */
  lemma {:induction false} CountConcat<T>(a: seq<T>, b: seq<T>, x: T)
    ensures Count(a + b, x) == Count(a, x) + Count(b, x)
  {
    if a == [] {
      assert a + b == b;
    } else {
      assert (a + b)[1..] == a[1..] + b;
      CountConcat(a[1..], b, x);
    }
  }

  /** Some occurrence of `x` in `s` comes strictly before some occurrence of `y`. */
  predicate Before<T(==)>(s: seq<T>, x: T, y: T) {
    exists i, j | 0 <= i < j < |s| :: s[i] == x && s[j] == y
  }
}
