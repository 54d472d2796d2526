/** Optional values and dictionary lookups with a default, shared by every module. */
module Options {

  datatype Option<+T> = None | Some(value: T)

  /** `d.get(k, default)` on a dictionary. */
  function GetOr<V>(m: map<string, V>, k: string, default: V): V {
    if k in m then m[k] else default
  }

  /**
   * A lookup reads back what was last stored under its key, is unaffected by stores under
   * other keys, and gives the default on an empty dictionary.
   */
  lemma GetOrAfterStore<V>(m: map<string, V>, k: string, x: V, j: string, default: V)
    ensures GetOr(m[k := x], k, default) == x
    ensures j != k ==> GetOr(m[k := x], j, default) == GetOr(m, j, default)
    ensures GetOr(map[], j, default) == default
  {
  }
}
