/** The in-process reference storage backend: a plain object mutated in place. */
module StorageMemory {
  import opened Js

  class MemoryStorage {
    /** The backing object `this.storage`. */
    var storage: map<string, JsValue>

    /** A new store holds no keys. The options a factory passes are ignored. */
    constructor (options: JsValue)
      ensures storage == map[]
    {
      storage := map[];
    }

    /** `get(key)`: the stored value, or `undefined` for a key never set.
        Changes nothing. */
    method Get(key: string) returns (v: JsValue)
      ensures key in storage ==> v == storage[key]
      ensures key !in storage ==> v == Undefined
    {
      v := Read(storage, key).GetOr(Undefined);
    }

    /** `set(key, value)`: writes one entry and returns the value written. */
    method Set(key: string, value: JsValue) returns (r: JsValue)
      modifies this
      ensures storage == Write(old(storage), key, value)
      ensures r == value
    {
      storage := Write(storage, key, value);
      r := value;
    }
  }

  /** A `set` followed by a `get` of the same key reads back the value, and
      leaves every other key as it was. */
  method SetThenGet(s: MemoryStorage, key: string, value: JsValue, other: string)
    returns (r: JsValue, o: JsValue)
    modifies s
    requires other != key
    ensures r == value
    ensures o == (if other in old(s.storage) then old(s.storage)[other] else Undefined)
  {
    var w := s.Set(key, value);
    r := s.Get(key);
    o := s.Get(other);
  }
}
