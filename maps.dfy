/** Map insertion as the standard containers do it. */
module Maps {
  /**
   * `try_emplace` / `emplace` / `insert` on a map: inserts `value` under
   * `key` unless the key is already present, in which case nothing changes.
   */
  function TryEmplace<K, V>(m: map<K, V>, key: K, value: V): (r: map<K, V>)
    ensures r.Keys == m.Keys + {key}
    ensures key in m ==> r == m
    ensures key !in m ==> r[key] == value
    ensures forall k :: k in m ==> r[k] == m[k]
  {
    if key in m then m else m[key := value]
  }
}
