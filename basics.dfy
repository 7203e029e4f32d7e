/** Small shared vocabulary: optional values, the one Python exception the
    core can raise on its own inputs, and map lookups with a default. */
module Basics {

  datatype Option<T> = None | Some(value: T)

  /** The exceptions of the modelled code that depend only on its inputs. */
  datatype PyError = ZeroDivisionError

  datatype Result<T> = Ok(value: T) | Err(error: PyError)

  function Abs(x: real): (r: real)
    ensures r >= 0.0
    ensures r == x || r == -x
  {
    if x < 0.0 then -x else x
  }

  /** `d.get(k, default)` */
  function GetOr<K, V>(m: map<K, V>, k: K, default: V): (v: V)
    ensures k in m ==> v == m[k]
    ensures k !in m ==> v == default
  {
    if k in m then m[k] else default
  }

  /** `x or {}` for an optional dictionary: a missing dictionary becomes empty. */
  function OrEmpty<K, V>(m: Option<map<K, V>>): (r: map<K, V>)
    ensures m.Some? ==> r == m.value
    ensures m.None? ==> r == map[]
  {
    if m.Some? then m.value else map[]
  }
}
