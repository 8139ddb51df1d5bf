/** Option and Result: the absent value (Python's None) and the error path
    (a raised exception) of the modelled functions, and `dict.get` with a default. */
module Wrappers {

  datatype Option<+T> = None | Some(value: T)

  datatype Result<+R, +E> = Success(value: R) | Failure(error: E)

  /** `d.get(key, default)` on a dict, `os.getenv(name, default)` on the
      environment: the stored value when the key is present (even a `None`),
      the default otherwise. */
  function GetOr<K, V>(m: map<K, V>, key: K, default: V): (v: V)
    ensures key in m ==> v == m[key]
    ensures key !in m ==> v == default
  {
    if key in m then m[key] else default
  }
}
