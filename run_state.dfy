/** The run-state store: the directory-backed key/value store that carries the
    instance name, instance id and host address from one stage to the next,
    held here as an in-memory map. */
module RunState {

  datatype Option<+T> = None | Some(value: T)

  /** What the store holds; a key that was never written reads as absent. */
  type Store = map<string, string>

  const InstanceNameKey: string := "instanceName"
  const InstanceIdKey: string := "instanceId"
  const HostKey: string := "host"

  /** `storage.getItem(key)`: the stored value, `None` (JavaScript's `undefined`) when absent. */
  function Get(s: Store, key: string): Option<string>
  {
    if key in s then Some(s[key]) else None
  }

  /** `storage.setItem(key, value)`. Writing `undefined` (`None`) leaves the key
      reading as absent. A write changes the written key only, and reading it
      back gives exactly the value written. */
  function Put(s: Store, key: string, v: Option<string>): (r: Store)
    ensures Get(r, key) == v
    ensures forall k :: k != key ==> Get(r, k) == Get(s, k)
  {
    if v.Some? then s[key := v.value] else s - {key}
  }
}
