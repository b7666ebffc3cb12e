# dripping-bucket: storage layer and bucket configuration

A Dafny model of the parts of the dripping-bucket rate limiter that have
behaviour in its library code:

- **MemoryStorage** (`lib/storage-memory.js`): the in-process reference backend,
  a plain object updated in place by `set` and read by `get`. It is modelled as
  a class with one `map` field.
- **StorageFactory** (`lib/storage.js`): the registry from storage type name to
  backend factory. `register` overwrites an entry. `create` raises
  "unsupported storage type" when the type is unregistered or registered with a
  falsy value. A registered value that is truthy but not a function fails with
  a TypeError on the call. Otherwise `create` applies the registered factory to
  the options. The module-level singleton has
  `'memory'` registered when the module loads. The registry is a class with one
  `map` field.
- **Bucket constructor** (`lib/bucket.js:17-29`): `Object.assign` merges the
  caller's options over the defaults, one top-level key at a time. The start
  time is `serviceStartedTime`, or the clock reading when that is 0.

Shared pieces live in module `Js`. `JsValue` covers the JavaScript values the
code stores and merges. `Read`/`Write` give the semantics of indexing a plain
object. `Apply` and `LastWrite` describe a history of assignments. The lemma
`LastWriteWins` shows, by induction, that after any history a key reads as its
last assignment.

Closures are not values in the model. A factory passed to `register` is an
abstract tag (`FactoryFn`). The store that a caller's own factory returns is
`Custom(id, options)`: "that factory applied to those options".

The clock (`Date.now()`) is the parameter `now` of the Bucket constructor.
`get` and `set` return promises in the source; here they are synchronous
methods.

What the code does and does not do:

- `getDelay`, `getInfo` and `returnToken` (`lib/bucket.js:39-65`) are
  placeholders that return `entityId + currentTime` or `entityId`. There is no
  delay algorithm to model.
- `Bucket` never uses the storage layer. Its constructor only merges options
  and picks a start time.
- The code gives `waitForTokenMs` no default (`Bucket.NoWaitForTokenDefault`).
- The comments at `lib/bucket.js:8-10` document a default for each field of
  `buckets`. The merge only replaces whole top-level keys
  (`Bucket.PartialBucketsNotFilled`).

## Model

| member | source | states |
|---|---|---|
| Js.Read | lib/storage-memory.js:7 | reading a property yields the stored value when the key is present, and nothing (undefined) exactly when it is absent |
| Js.Write | lib/storage-memory.js:11 | after `obj[k] = v`, `k` reads as `v`, every other key reads as before, and the key set gains exactly `k` |
| Js.LastWriteWins | lib/storage-memory.js:11 | after any sequence of assignments, a key reads as the value of its last assignment (found by scanning backwards), or as before when it was never assigned |
| Js.ApplySnoc | lib/storage-memory.js:11 | performing one more assignment after a history equals one further `Write` on the result |
| Js.WriteOverwrites | lib/storage-memory.js:11 | two writes to the same key leave only the second |
| StorageMemory.MemoryStorage.constructor | lib/storage-memory.js:2-4 | a new store holds no keys, whatever options it is given |
| StorageMemory.MemoryStorage.Get | lib/storage-memory.js:6-8 | returns the stored value for a key that was set, `undefined` for one never set, and modifies nothing |
| StorageMemory.MemoryStorage.Set | lib/storage-memory.js:10-13 | the new store is the old one with `key` written to `value`, and the result is exactly `value` |
| StorageMemory.SetThenGet | lib/storage-memory.js:6-13 | a `get` after `set(k, v)` returns `v`, and a `get` of any other key returns what it held before |
| Storage.Resolve | lib/storage.js:15-17 | `create` finds a factory exactly when the type is registered with a function; it raises "unsupported storage type" exactly for an unregistered type or a falsy entry; it fails with the call's TypeError (`NotAFunction`) exactly for a truthy non-function entry |
| Storage.StorageFactory.constructor | lib/storage.js:9-12 | a new registry has no types registered |
| Storage.StorageFactory.Create | lib/storage.js:15-18 | fails with the error `Resolve` gives; the memory factory yields a fresh, empty store regardless of options; a caller's factory yields its result on the options; the registry is unchanged |
| Storage.StorageFactory.Register | lib/storage.js:21-23 | the new registry is the old one with `type` mapped to the given factory, replacing any earlier entry |
| Storage.RegisterMemoryFn | lib/storage-memory.js:16 | registers the in-memory factory under `'memory'` and changes no other entry |
| Storage.NewSingletonFactory | lib/storage.js:27-28 | the loaded singleton is a new registry holding exactly `'memory'` |
| Storage.EmptyRegistryRejects | lib/storage.js:10-16 | on a new registry, `create` of any type raises "unsupported storage type" |
| Storage.RegisterThenResolve | lib/storage.js:15-23 | after `register(t, fn)` with a function `fn`, `create(t, …)` does not raise and uses `fn` |
| Storage.RegisterKeepsOthers | lib/storage.js:22 | `register(t, fn)` does not change how any other type resolves |
| Storage.LastRegistrationWins | lib/storage.js:22 | after any sequence of registrations, a type resolves by its last registration, or as before if never registered |
| Storage.SingletonSupportsOnlyMemory | lib/storage.js:27-28 | right after module load, before any caller registers more types, the singleton resolves `'memory'` to the memory factory and rejects every other type as unsupported |
| Storage.CreateFromSingleton | lib/storage.js:15-28 | right after module load, creating `'memory'` from the singleton yields a fresh empty store and any other type fails as unsupported |
| Bucket.Defaults | lib/bucket.js:18-27 | the merge target has exactly the keys `storage` = `{type: 'memory'}` and `buckets` = `{size: 100, refreshRate: 50, refreshInterval: 1}` |
| Bucket.OwnProps | lib/bucket.js:18-27 | what `Object.assign` copies from a source: all properties of an object, the characters of a string keyed by index (`CharProps`), and nothing from `undefined`, `null`, booleans or numbers |
| Bucket.IndexKey | lib/bucket.js:18-27 | the property key of an array index is non-empty and ends in the digit of the index's units place |
| Bucket.IndexKeyIsDecimal | lib/bucket.js:18-27 | an index key is canonical decimal: digits only, one digit exactly for indices below 10, no leading `0` otherwise |
| Bucket.IndexKeyRoundTrip | lib/bucket.js:18-27 | reading an index key back as a decimal number gives the index |
| Bucket.IndexKeys | lib/bucket.js:18-27 | the key set of the indices below `n` contains the key of every such index |
| Bucket.IndexKeysExactly | lib/bucket.js:18-27 | the key set of the indices below `n` is exactly the set of their keys, and holds no other key |
| Bucket.Merge | lib/bucket.js:18-27 | the merged options have the union of the keys; each property the caller gave is kept as given, and each default survives only where the caller gave no property of that name |
| Bucket.Bucket.constructor | lib/bucket.js:17-29 | `options` is the merge of the caller's options over the defaults, and `started` is the chosen start time; nothing outside the new object is changed |
| Bucket.DefaultStorageWhenOmitted | lib/bucket.js:18-21 | without a `storage` option the merged `storage` is `{type: 'memory'}` |
| Bucket.DefaultBucketsWhenOmitted | lib/bucket.js:22-26 | without a `buckets` option the merged `buckets` is `{size: 100, refreshRate: 50, refreshInterval: 1}` |
| Bucket.SuppliedReplacesWhole | lib/bucket.js:18-27 | a supplied `storage` or `buckets` object is kept as given, and no default subfield it lacks is filled in |
| Bucket.PartialBucketsNotFilled | lib/bucket.js:8-27 | `{buckets: {size: 10}}` merges to buckets with no `refreshRate`, against the per-field defaults the comments document |
| Bucket.ExtraOptionsPassThrough | lib/bucket.js:18-27 | a key outside the defaults that the caller gives, such as `waitForTokenMs` or `type`, appears unchanged in the merged options |
| Bucket.CharProps | lib/bucket.js:18-27 | a string passed as options contributes exactly the keys `"0"` … `"n-1"`, each mapped to the one-character string at that index |
| Bucket.IndexKeyInjective | lib/bucket.js:18-27 | distinct indices of a string source give distinct property keys (a consequence of the round trip) |
| Bucket.NoOptionsGiveDefaults | lib/bucket.js:17-27 | omitted or `null` options merge to exactly the defaults |
| Bucket.NoWaitForTokenDefault | lib/bucket.js:18-27 | there is no default for `waitForTokenMs`: if omitted it is absent from the merged options |
| Bucket.StartTime | lib/bucket.js:28 | `started` is `serviceStartedTime` when that is non-zero, and the clock reading when it is 0 |
| Bucket.FirstScenarioConfiguration | lib/bucket.spec.js:32-36 | the first test's options give exactly: top-level `type` and `waitForTokenMs` passed through, default `storage`, the supplied `buckets`, and the clock as start time |

## Left out

- The delay algorithm (`getDelay`, `getInfo`, `returnToken`, `lib/bucket.js:39-65`): the code has only one-line placeholders. The expected delay sequences in `lib/bucket.spec.js` have no implementation to check against.
- The test runner `runSequence` (`lib/bucket.spec.js:4-23`): it is test plumbing.
- Asynchrony: `get` and `set` return promises; they are modelled as synchronous methods.
- `Date.now()`: the clock is the `now` parameter of the constructor. An omitted `serviceStartedTime` is its default 0.
- Factory closures: a factory is an abstract `FactoryFn` tag. What a caller's factory does, including throwing, is not modelled; its result is `Custom(id, options)`.
- Inherited object properties: keys such as `toString` or `__proto__`, which a plain object inherits from its prototype, are not modelled. Only keys that were explicitly written exist, in the store, in the registry and in `Bucket.Merge`. In particular, `Object.assign` writes an own `"__proto__"` property of the caller's options (one made by `JSON.parse`, say) through the prototype setter: a value that is an object or `null` replaces the merged object's prototype, and any other value is silently dropped. In neither case does the merged object gain an own `__proto__` key, while `Bucket.Merge` keeps it as an ordinary key.
- JavaScript numbers are modelled as unbounded integers. `NaN` and fractional start times are not modelled.
- Property order: JavaScript enumerates an object's integer-like keys first, in ascending numeric order, and then its other string keys in insertion order. So the merged options list any integer-like keys the caller gives (the index keys of a string passed as options, say) before `storage` and `buckets`, and the caller's other new keys after them, in their order. Maps have no order. Only the key-to-value mapping is modelled, and that mapping does not depend on the order.
- The exact text of the TypeError an engine raises for a non-function factory is not modelled.
- StorageMemory.MemoryStorage.Get: `JsValue` is an immutable value, so the model does not capture references. In the source, `set` stores the caller's object by reference and `get` returns that same object. A later change to that object by a caller shows up in every later `get` without any `set`.
- StorageMemory.MemoryStorage.Set: keys are `string` only. JavaScript converts property keys to strings, so `set(1, v)` and `get('1')` reach the same entry. The same holds for the type names of `Storage.StorageFactory.Register` and `Storage.StorageFactory.Create`.
- Bucket.Merge: the copy is shallow in the source, so the merged `buckets` and `storage` objects are the caller's own objects, still shared with the caller. The model has no aliasing. That the caller's options object is not changed therefore holds by construction here (values are immutable), not by proof.
- Bucket.CharProps, Bucket.Merge: for a string passed as options, the model indexes Unicode scalar values. JavaScript indexes UTF-16 code units, so a character outside the Basic Multilingual Plane gives two keys in JavaScript and one here. Lone surrogates cannot be represented.
- Module export and import wiring. `RegisterMemoryFn` (the `registerFn` of `lib/storage-memory.js`) lives in module `Storage`, not `StorageMemory`, because `Storage` imports `StorageMemory` for `Backend.Memory` and for creating stores; the reverse import would be a cycle.
