/** Failure-carrying wrappers used for the exceptions data_dir.py raises. */
module Wrappers {

  datatype Option<+T> = None | Some(value: T)

  /** A value, or the exception that was raised instead. */
  datatype Result<+T, +E> = Ok(value: T) | Err(error: E)

  /** Success without a value, or the exception that was raised. */
  datatype Outcome<+E> = Pass | Fail(error: E)

  /** Dictionary lookup that reports a missing key as None. */
  function Get<K, V>(m: map<K, V>, k: K): (r: Option<V>)
    ensures r.Some? <==> k in m
    ensures r.Some? ==> r.value == m[k]
  {
    if k in m then Some(m[k]) else None
  }
}
