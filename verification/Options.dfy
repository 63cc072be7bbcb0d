/** A value that may be missing: an entry not stored, or the state after a call that threw. */
module Options {

  datatype Option<+T> = None | Some(value: T)

  function Lookup<K, V>(records: map<K, V>, key: K): Option<V>
  {
    if key in records then Some(records[key]) else None
  }

  /** A call that throws is rolled back. */
  function After<T>(before: T, r: Option<T>): T
  {
    if r.Some? then r.value else before
  }
}
