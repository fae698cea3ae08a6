/** Small failure-carrying datatypes and integer helpers shared by every module. */
module Wrappers {

  /** A value that may be absent; `None` stands for JavaScript's `null`/`undefined`. */
  datatype Option<+T> = None | Some(value: T)

  /** Either a value or the error that was thrown instead. */
  datatype Result<+T, +E> = Success(value: T) | Failure(error: E)

  /** A keyed lookup: the stored value, or nothing when the key is absent. */
  function Lookup<K, V>(m: map<K, V>, key: K): (r: Option<V>)
    ensures r.Some? <==> key in m
    ensures r.Some? ==> r.value == m[key]
  {
    if key in m then Some(m[key]) else None
  }

  /** `Math.min` on integers. */
  function Min(a: int, b: int): (m: int)
    ensures m <= a && m <= b
    ensures m == a || m == b
  {
    if a <= b then a else b
  }
}
