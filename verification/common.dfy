/** Shared wrappers and Python slicing, used by every module of the model. */
module Common {

  /** A value that may be missing: `None` stands for Python's `None` and for a
      NaN placeholder row. */
  datatype Option<+T> = None | Some(value: T)

  /** The outcome of an operation that may raise: `Err` carries the exception. */
  datatype Result<+T, +E> = Ok(value: T) | Err(error: E)

  /** Python's `s[a:b]` for `0 <= a <= b`: the bounds are clamped to the sequence. */
  function PySlice<T>(s: seq<T>, a: nat, b: nat): (r: seq<T>)
    requires a <= b
    ensures |r| == (if a >= |s| then 0 else (if b <= |s| then b else |s|) - a)
    ensures forall k :: 0 <= k < |r| ==> r[k] == s[a + k]
  {
    if a >= |s| then [] else if b <= |s| then s[a..b] else s[a..]
  }
}
