/** Shared vocabulary: optional values, results, bytes, and the clock.

    An Instant is a number of nanoseconds since the Unix epoch and a Duration a
    number of nanoseconds, both unbounded; the zero time.Time of the source,
    which it uses for "no deadline", is None. */
module Basics {
  datatype Option<+T> = None | Some(value: T)

  datatype Result<+T, +E> = Ok(value: T) | Err(error: E)

  newtype byte = x: int | 0 <= x < 256

  type Bytes = seq<byte>

  type Instant = int
  type Duration = int

  function Seconds(n: int): Duration {
    n * 1_000_000_000
  }

  function WholeSeconds(d: Duration): int {
    d / 1_000_000_000
  }

  /** The Unix() accessor: whole seconds, rounded towards the past. */
  function Unix(t: Instant): int {
    WholeSeconds(t)
  }

  function FromUnix(seconds: int): Instant {
    Seconds(seconds)
  }

  function Min(a: int, b: int): int {
    if a < b then a else b
  }

  /** What zeroizing leaves behind. */
  predicate AllZero(b: Bytes) {
    forall i :: 0 <= i < |b| ==> b[i] == 0
  }

  lemma SubsetCardinality<T>(a: set<T>, b: set<T>)
    requires a <= b
    ensures |a| <= |b|
    ensures a != b ==> |a| < |b|
  {
    assert b == a + (b - a);
    if a != b {
      var x :| x in b - a;
      assert b - a != {};
    }
  }
}
