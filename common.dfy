/** Value types shared by every manager of the plugin. */
module Common {

  /** A nullable Java reference, or a configuration value that may be missing. */
  datatype Option<T> = None | Some(value: T) {
    function GetOr(default: T): T {
      match this
      case Some(v) => v
      case None => default
    }
  }

  /** A Minecraft player's UUID. Only equality matters to the plugin. */
  datatype Uuid = Uuid(bits: nat)

  /** An online player as the server reports it: identity, display name and the
      permission nodes `hasPermission` answers true for. */
  datatype Player = Player(id: Uuid, name: string, permissions: set<string>)

  /** A block position in a world (the world itself is the instance's). */
  datatype Location = Location(x: real, y: real, z: real)

  /** The value stored under `k` in a map of sets, or the empty set
      (Java's `getOrDefault(k, new HashSet<>())`). */
  function SetAt<K, V>(m: map<K, set<V>>, k: K): set<V> {
    if k in m then m[k] else {}
  }
}
