/** Small value types shared by the modules of the fiber tester model. */
module Basics {

  /** Python's `None` or a value. */
  datatype Option<T> = None | Some(value: T)

  /** The outcome of an operation that can fail with an error of type E. */
  datatype Result<T, E> = Ok(value: T) | Err(error: E)

  /** Python truthiness of an optional string: `None` and `""` are both falsy. */
  predicate Truthy(s: Option<string>)
  {
    s.Some? && s.value != ""
  }

  /** `str.upper()` on one character, for ASCII letters only. */
  function Upper(c: char): char
  {
    if 'a' <= c <= 'z' then (c as int - 32) as char else c
  }

  function Min(a: int, b: int): int
  {
    if a <= b then a else b
  }
}
