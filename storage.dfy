/** The storage registry: a table from storage type name to the factory that
    builds a backend of that type, and the process-wide instance of it that has
    the in-memory backend registered when the module loads. */
module Storage {
  import opened Js
  import opened StorageMemory

  /** What a caller may pass to `register` as the factory. JavaScript closures
      are not values here, so each factory is an abstract tag. */
  datatype FactoryFn =
    | MemoryFactoryFn          // `(options) => new MemoryStorage(options)`
    | UserFn(id: string)       // a caller's own factory function, by identity
    | FalsyValue               // `undefined`, `null`, `0`, `''`, `false`
    | NonCallable              // any other value that is not a function

  predicate IsCallable(fn: FactoryFn) {
    fn.MemoryFactoryFn? || fn.UserFn?
  }

  /** The registry's own error carries the message
      `[storage] unsupported storage type "<type>"`; calling a registered value
      that is not a function raises the engine's TypeError instead. */
  datatype StorageError =
    | UnsupportedStorageType(storageType: string)
    | NotAFunction(storageType: string)

  /** A live backend: a fresh in-memory store, or whatever a caller's factory
      returns for the options it was given. */
  datatype Backend =
    | Memory(store: MemoryStorage)
    | Custom(fn: string, options: JsValue)

  /** The factory `create(type, …)` will call, or the error it raises: an
      unregistered type and a falsy registered value are both unsupported, and
      a registered value that is not a function fails on the call. */
  function Resolve(factoryFns: map<string, FactoryFn>, storageType: string): (r: Result<FactoryFn>)
    ensures r.Success? <==> storageType in factoryFns && IsCallable(factoryFns[storageType])
    ensures r.Success? ==> r.value == factoryFns[storageType]
    ensures r == Failure(UnsupportedStorageType(storageType)) <==>
              storageType !in factoryFns || factoryFns[storageType] == FalsyValue
    ensures r == Failure(NotAFunction(storageType)) <==>
              storageType in factoryFns && factoryFns[storageType] == NonCallable
  {
    var fn := Read(factoryFns, storageType);
    if fn.None? || fn.value == FalsyValue then Failure(UnsupportedStorageType(storageType))
    else if fn.value == NonCallable then Failure(NotAFunction(storageType))
    else Success(fn.value)
  }

  datatype Result<T> = Success(value: T) | Failure(error: StorageError)

  class StorageFactory {
    /** `this.factoryFns`: storage type name to factory. */
    var factoryFns: map<string, FactoryFn>

    /** A new registry has no types registered. */
    constructor ()
      ensures factoryFns == map[]
    {
      factoryFns := map[];
    }

    /** `create(type, options)`: fails on a type with no usable factory and
        otherwise applies the registered factory to `options`; the in-memory
        factory yields a new, empty store whatever the options. The registry
        itself is not modified. */
    method Create(storageType: string, options: JsValue) returns (r: Result<Backend>)
      ensures Resolve(factoryFns, storageType).Failure? ==>
                r == Failure(Resolve(factoryFns, storageType).error)
      ensures Resolve(factoryFns, storageType) == Success(MemoryFactoryFn) ==>
                r.Success? && r.value.Memory? && fresh(r.value.store) && r.value.store.storage == map[]
      ensures forall id :: Resolve(factoryFns, storageType) == Success(UserFn(id)) ==>
                r == Success(Custom(id, options))
    {
      match Resolve(factoryFns, storageType)
      case Failure(e) =>
        r := Failure(e);
      case Success(MemoryFactoryFn) =>
        var store := new MemoryStorage(options);
        r := Success(Memory(store));
      case Success(UserFn(id)) =>
        r := Success(Custom(id, options));
    }

    /** `register(type, factoryFn)`: replaces the entry for `type`, leaving every
        other type's factory as it was. */
    method Register(storageType: string, factoryFn: FactoryFn)
      modifies this
      ensures factoryFns == Write(old(factoryFns), storageType, factoryFn)
    {
      factoryFns := Write(factoryFns, storageType, factoryFn);
    }
  }

  /** The in-memory backend's `registerFn`: registers type "memory". */
  method RegisterMemoryFn(factory: StorageFactory)
    modifies factory
    ensures factory.factoryFns == Write(old(factory.factoryFns), "memory", MemoryFactoryFn)
  {
    factory.Register("memory", MemoryFactoryFn);
  }

  /** Module load: a new registry with the in-memory backend registered. */
  method NewSingletonFactory() returns (f: StorageFactory)
    ensures fresh(f)
    ensures f.factoryFns == map["memory" := MemoryFactoryFn]
  {
    f := new StorageFactory();
    RegisterMemoryFn(f);
  }

  /** A new registry supports no type at all. */
  lemma EmptyRegistryRejects(storageType: string)
    ensures Resolve(map[], storageType) == Failure(UnsupportedStorageType(storageType))
  {
  }

  /** After registering a function for a type, creating that type succeeds with it. */
  lemma RegisterThenResolve(factoryFns: map<string, FactoryFn>, storageType: string, fn: FactoryFn)
    requires IsCallable(fn)
    ensures Resolve(Write(factoryFns, storageType, fn), storageType) == Success(fn)
  {
  }

  /** Registering one type does not change how any other type resolves. */
  lemma RegisterKeepsOthers(factoryFns: map<string, FactoryFn>, storageType: string, fn: FactoryFn, other: string)
    requires other != storageType
    ensures Resolve(Write(factoryFns, storageType, fn), other) == Resolve(factoryFns, other)
  {
  }

  /** After any sequence of registrations, a type resolves by its last
      registration, or as before when it was never registered. */
  lemma {:induction false} LastRegistrationWins(factoryFns: map<string, FactoryFn>, regs: seq<Assignment<FactoryFn>>, storageType: string)
    ensures LastWrite(regs, storageType).Some? ==>
              Resolve(Apply(factoryFns, regs), storageType) == Resolve(map[storageType := LastWrite(regs, storageType).value], storageType)
    ensures LastWrite(regs, storageType).None? ==>
              Resolve(Apply(factoryFns, regs), storageType) == Resolve(factoryFns, storageType)
  {
    LastWriteWins(factoryFns, regs, storageType);
  }

  /** Right after module load, the singleton resolves "memory" and nothing else. */
  lemma SingletonSupportsOnlyMemory(storageType: string)
    ensures Resolve(map["memory" := MemoryFactoryFn], storageType) ==
              if storageType == "memory" then Success(MemoryFactoryFn)
              else Failure(UnsupportedStorageType(storageType))
  {
  }

  /** Creating from the singleton right after module load, before any caller
      registers more types: "memory" yields a new empty store, any other type
      fails as unsupported. */
  method CreateFromSingleton(storageType: string, options: JsValue) returns (r: Result<Backend>)
    ensures storageType == "memory" ==> r.Success? && r.value.Memory? && fresh(r.value.store) && r.value.store.storage == map[]
    ensures storageType != "memory" ==> r == Failure(UnsupportedStorageType(storageType))
  {
    var f := NewSingletonFactory();
    SingletonSupportsOnlyMemory(storageType);
    r := f.Create(storageType, options);
  }
}
