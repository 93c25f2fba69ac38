/** Small value types shared by the model: optional values, results with a
    typed error, and sub-sequence occurrence. */
module Common {

  /** A value that may be absent (JavaScript's `undefined`/`null`). */
  datatype Option<+T> = None | Some(value: T)

  /** The settled state of a promise chain: resolved with a value or
      rejected with an error. */
  datatype Result<+T, +E> = Success(value: T) | Failure(error: E)

  /** `needle` appears in `hay` starting at position `i`. */
  predicate OccursAt<T(==)>(needle: seq<T>, hay: seq<T>, i: nat)
  {
    i + |needle| <= |hay| && hay[i..i + |needle|] == needle
  }

  /** `needle` appears somewhere in `hay` as a contiguous block. */
  ghost predicate Occurs<T>(needle: seq<T>, hay: seq<T>)
  {
    exists i: nat :: OccursAt(needle, hay, i)
  }
}
