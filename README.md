# ResolvedLibrary: the dispatch registry of Truffle libraries

This project models `ResolvedLibrary`, the class at the centre of the Truffle library
system. A *library* is a protocol: a set of *messages* that many receiver types implement.
For each library class the registry holds one resolved library. Given a receiver, a
resolved library does four things:

- it finds the *dispatch class* of the receiver, through the dynamic-dispatch library when
  there is one;
- it finds the *export* (the implementation of the library's messages) for that class;
- it hands out an *uncached* instance, shared by all receivers of the class;
- it hands out a *cached* instance, shared only when the instance is not adoptable.

Exports and instances are memoised per dispatch class in three append-only caches.

The model is imperative where the Java is:

- `Registry.LibraryRegistry` holds the static `LIBRARIES` map. Its methods are `register`,
  `lookup`, `loadGeneratedClass`, the name-based resolution, and the part of the
  constructor that looks up the dynamic-dispatch library. Its invariant `Valid` says that
  every library, registered or generated, is keyed by its own library class and keeps its
  own invariant. The constructor establishes it when the generated libraries are well
  formed. `register` keeps it when the new library is keyed by its own class and keeps its
  own invariant. Every other method keeps it unconditionally.
- `Library.ResolvedLibrary` holds the per-library state. That is the message table and the
  maps `exportCache`, `uncachedCache` and `cachedCache`, which its methods update with
  `putIfAbsent`.

Each such method is specified by a pure step function over a `Caches` value: it states the
result (or the exception) and the caches afterwards. The properties are proved about those
functions, one call at a time and over whole sequences of calls.

Collaborators the class calls but does not define are parameters. They are fields of
`Types.Runtime`:

- `ResolvedDispatch.lookup(c).getLibrary(l)`;
- `DynamicDispatchLibrary.dispatch`;
- the generated export factories;
- `Class.isInstance`, through a supertype function;
- `accepts`;
- `NodeUtil.isAdoptable`;
- whether Java assertions are enabled.

The generated members `getDefaultClass`, `createProxy` and `createCachedDispatchImpl` are
fields of `Types.GeneratedHooks`. The AOT flag and the classes the class loader can find
are constants of the registry. Java exceptions are `Failure` values of `Types.Error`, and a
`null` return is `None`.

The source's `assert` statements run only when assertions are enabled (`rt.assertions`).
The checks that always run are the receiver-class check of `validateExport`, the null
receiver check, and the lookup and registration failures.

## Model

| member | source | states |
|---|---|---|
| `Registry.LibraryRegistry.Register` | truffle/src/com.oracle.truffle.api.library/src/com/oracle/truffle/api/library/ResolvedLibrary.java:355-360 | Fails exactly when the class is already registered, and then leaves the registry unchanged; otherwise the class maps to the new library and no other entry changes |
| `Registry.LibraryRegistry.Loaded` | truffle/src/com.oracle.truffle.api.library/src/com/oracle/truffle/api/library/ResolvedLibrary.java:306-323 | Loading a generated class can only add the entry for that library class, and never changes an existing entry |
| `Registry.LibraryRegistry.LoadGeneratedClass` | truffle/src/com.oracle.truffle.api.library/src/com/oracle/truffle/api/library/ResolvedLibrary.java:306-326 | Returns absent exactly when no generated class exists for the class; otherwise the library registered for it after initialisation |
| `Registry.LibraryRegistry.LookedUp` | truffle/src/com.oracle.truffle.api.library/src/com/oracle/truffle/api/library/ResolvedLibrary.java:293-298 | What `lookup` leaves in `LIBRARIES`: unchanged for a registered class or under AOT, otherwise the registry after loading the generated class. No entry changes, only the looked-up class can be added, and it is registered afterwards exactly when it was before or, without AOT, a generated class exists for it |
| `Registry.LibraryRegistry.Lookup` | truffle/src/com.oracle.truffle.api.library/src/com/oracle/truffle/api/library/ResolvedLibrary.java:291-304 | A registered library is returned and nothing changes; a missing one is loaded only when not AOT, and the registry is read again; it succeeds exactly when the class is registered afterwards, with that library, and otherwise fails with the invalid-argument error, never null |
| `Registry.LibraryRegistry.ResolveLibraryByName` | truffle/src/com.oracle.truffle.api.library/src/com/oracle/truffle/api/library/ResolvedLibrary.java:329-335 | Absent exactly when no class has that name, and then the registry is unchanged; otherwise the registry becomes what `lookup` leaves, and the call returns the library registered afterwards or fails with `lookup`'s error |
| `Registry.LibraryRegistry.ResolveMessage` | truffle/src/com.oracle.truffle.api.library/src/com/oracle/truffle/api/library/ResolvedLibrary.java:337-344 | The registry becomes what `lookup` leaves; the call fails exactly when the class is still unregistered, and otherwise returns the library's table entry for the name, or absent for an unknown name |
| `Registry.LibraryRegistry.ResolveMessageByName` | truffle/src/com.oracle.truffle.api.library/src/com/oracle/truffle/api/library/ResolvedLibrary.java:346-353 | Absent when no class has the library's name, with the registry unchanged; otherwise the registry becomes what `lookup` leaves, the call fails exactly when the class is still unregistered, and returns that library's table entry for the name, or absent for an unknown name |
| `Registry.LibraryRegistry.NewLibrary` | truffle/src/com.oracle.truffle.api.library/src/com/oracle/truffle/api/library/ResolvedLibrary.java:84-103 | The dynamic-dispatch library gets no dispatch library; for every other library the registry becomes what looking up that library leaves, the call fails exactly when it is still unregistered, and otherwise dispatches through its uncached dispatch; on success every message is bound to the new library, and the caches are empty |
| `Library.ResolvedLibrary.constructor` | truffle/src/com.oracle.truffle.api.library/src/com/oracle/truffle/api/library/ResolvedLibrary.java:88-97 | With assertions enabled, it requires that every message is unbound and none occurs twice; afterwards each message's back-reference is this library, `nameToMessages` is the name table of the messages, and the caches are empty |
| `Library.NameTable` | truffle/src/com.oracle.truffle.api.library/src/com/oracle/truffle/api/library/ResolvedLibrary.java:90-96 | The table's keys are exactly the messages' simple names, and each name maps to a message of this library that has that name |
| `Library.NameTableLastWins` | truffle/src/com.oracle.truffle.api.library/src/com/oracle/truffle/api/library/ResolvedLibrary.java:94 | For a repeated name the table keeps the last message with that name |
| `Library.ResolvedLibrary.GetUncachedDispatch` | truffle/src/com.oracle.truffle.api.library/src/com/oracle/truffle/api/library/ResolvedLibrary.java:119-121 | Returns the dispatch instance the library was constructed with |
| `Library.ResolvedLibrary.CreateCachedDispatch` | truffle/src/com.oracle.truffle.api.library/src/com/oracle/truffle/api/library/ResolvedLibrary.java:129-135 | Any limit `<= 0` gives `getUncachedDispatch()`; a positive limit gives the generated cached dispatch for that limit |
| `Library.ResolvedLibrary.Dispatch` | truffle/src/com.oracle.truffle.api.library/src/com/oracle/truffle/api/library/ResolvedLibrary.java:189-202 | Fails exactly for a null receiver; without a dispatch library it returns the receiver's class; otherwise it returns the dispatch library's answer, or the receiver's class when that answer is null |
| `Library.ResolvedLibrary.DynamicDispatchLibraryUsesOwnClass` | truffle/src/com.oracle.truffle.api.library/src/com/oracle/truffle/api/library/ResolvedLibrary.java:98-102 | The dynamic-dispatch library has no dispatch library, so it always dispatches on the receiver's own class |
| `Library.ResolvedLibrary.ValidateExport` | truffle/src/com.oracle.truffle.api.library/src/com/oracle/truffle/api/library/ResolvedLibrary.java:272-278 | Passes exactly when the receiver is an instance of the export's receiver class, and throws otherwise |
| `Library.ResolvedLibrary.ResolveExport` | truffle/src/com.oracle.truffle.api.library/src/com/oracle/truffle/api/library/ResolvedLibrary.java:251-266 | The fallback order on a cache miss. A direct export is never bypassed; it is returned exactly when the receiver fits its receiver class and, under assertions, it is not a default export. Otherwise a library other than the dynamic-dispatch library gets the proxy export when the class has a reflection export, and only then. Otherwise the result is the default class's export, or an error when that is missing. A direct or proxy result always passes the receiver-class check |
| `Library.ResolvedLibrary.LookupExportStep` | truffle/src/com.oracle.truffle.api.library/src/com/oracle/truffle/api/library/ResolvedLibrary.java:246-270 | Memoisation. A hit returns the stored export and changes nothing. A miss returns the resolved export. On success the cache holds the returned export for the class afterwards. A failure leaves the caches unchanged. No entry is replaced, and no key other than the dispatched class is added |
| `Library.ResolvedLibrary.LookupExport` | truffle/src/com.oracle.truffle.api.library/src/com/oracle/truffle/api/library/ResolvedLibrary.java:246-270 | The step-by-step method returns what `LookupExportStep` returns and leaves the export cache as it says |
| `Library.ResolvedLibrary.ValidateLibraryStep` | truffle/src/com.oracle.truffle.api.library/src/com/oracle/truffle/api/library/ResolvedLibrary.java:160-166 | The check succeeds exactly when the export looked up for the class fits the receiver and the instance accepts the receiver; only the export cache can grow |
| `Library.ResolvedLibrary.ValidateLibrary` | truffle/src/com.oracle.truffle.api.library/src/com/oracle/truffle/api/library/ResolvedLibrary.java:160-166 | The method does what `ValidateLibraryStep` states |
| `Library.ResolvedLibrary.UncachedFrom` | truffle/src/com.oracle.truffle.api.library/src/com/oracle/truffle/api/library/ResolvedLibrary.java:374-377 | A generated export creates the uncached instance with its own factory; the proxy wraps the reflection library's uncached instance for the receiver with `createProxy` |
| `Library.ResolvedLibrary.CachedFrom` | truffle/src/com.oracle.truffle.api.library/src/com/oracle/truffle/api/library/ResolvedLibrary.java:379-382 | A generated export creates the cached instance with its own factory; the proxy wraps the reflection library's cached instance for the receiver with `createProxy` |
| `Library.ResolvedLibrary.ProxyInstancesIgnoreLibraryClass` | truffle/src/com.oracle.truffle.api.library/src/com/oracle/truffle/api/library/ResolvedLibrary.java:370-382 | The proxy's instances depend only on the receiver, not on the library class the proxy records |
| `Library.ResolvedLibrary.GetUncachedStep` | truffle/src/com.oracle.truffle.api.library/src/com/oracle/truffle/api/library/ResolvedLibrary.java:174-187 | A null receiver is rejected. A successful result is the instance stored for its dispatch class afterwards. An existing entry is returned (or, under assertions, the call fails validation) and is never replaced. A failure adds no instance. Under assertions a hit is returned exactly when it passes `validateExport`, with the caches that check leaves. On a miss, a failed export lookup is passed on; otherwise the export it publishes stays, and the instance created from it is returned (after validation under assertions) and stored for the class. Only the dispatch class gains entries. The cached cache is untouched. Under assertions the result accepts the receiver |
| `Library.ResolvedLibrary.GetUncached` | truffle/src/com.oracle.truffle.api.library/src/com/oracle/truffle/api/library/ResolvedLibrary.java:174-187 | The method does what `GetUncachedStep` states and keeps the object invariant |
| `Library.ResolvedLibrary.CreateCachedStep` | truffle/src/com.oracle.truffle.api.library/src/com/oracle/truffle/api/library/ResolvedLibrary.java:143-158 | A null receiver is rejected. An existing entry is returned and not replaced; under assertions it is returned exactly when it passes `validateExport`, with the caches that check leaves. On a miss, a failed export lookup is passed on; otherwise the instance created from the looked-up export is returned (unless, under assertions, it does not accept the receiver) and stored exactly when it is not adoptable, so a returned instance is either the shared one or adoptable and absent from the cache. Only the dispatch class gains entries. The no-adoptable-entries invariant is kept. The uncached cache is untouched. Under assertions the result accepts the receiver |
| `Library.ResolvedLibrary.CreateCached` | truffle/src/com.oracle.truffle.api.library/src/com/oracle/truffle/api/library/ResolvedLibrary.java:143-158 | The method does what `CreateCachedStep` states and keeps the object invariant |
| `Library.ResolvedLibrary.AfterAllAppendOnly` | truffle/src/com.oracle.truffle.api.library/src/com/oracle/truffle/api/library/ResolvedLibrary.java:74-76 | Over any sequence of `lookupExport`, `getUncached` and `createCached` calls, no entry of the three caches is ever removed or replaced |
| `Library.ResolvedLibrary.AfterAllCachedShareable` | truffle/src/com.oracle.truffle.api.library/src/com/oracle/truffle/api/library/ResolvedLibrary.java:154-156 | Over any sequence of calls, an adoptable instance never enters the cached cache |
| `Library.ResolvedLibrary.PublishedExportIsStable` | truffle/src/com.oracle.truffle.api.library/src/com/oracle/truffle/api/library/ResolvedLibrary.java:246-250 | Once an export is published for a class, a lookup after any sequence of calls returns that export, for any receiver, and changes nothing |
| `Library.ResolvedLibrary.UncachedEntryIsReturned` | truffle/src/com.oracle.truffle.api.library/src/com/oracle/truffle/api/library/ResolvedLibrary.java:176-180 | Once a dispatch class has an uncached instance, that entry survives every later `getUncached` call. Each later call whose receiver dispatches to the class returns that instance, or fails validation when assertions are enabled |
| `Library.ResolvedLibrary.UncachedIsShared` | truffle/src/com.oracle.truffle.api.library/src/com/oracle/truffle/api/library/ResolvedLibrary.java:174-187 | Any two successful `getUncached` calls whose receivers dispatch to the same class return the same instance |
| `Types.ProxyExportsAcceptEveryReceiver` | truffle/src/com.oracle.truffle.api.library/src/com/oracle/truffle/api/library/ResolvedLibrary.java:369-372 | The proxy export's receiver class is `Object`, so every receiver passes its check; it is marked as a default export |
| `ConcurrentMaps.PutIfAbsent` | truffle/src/com.oracle.truffle.api.library/src/com/oracle/truffle/api/library/ResolvedLibrary.java:268-269 | First value wins. An existing key keeps its value. A new key gets the given value. No other key changes |

## Left out

- Concurrency: `ConcurrentHashMap` is taken one call at a time, so `putIfAbsent` is a
  sequential insert-if-absent. `getUncached` and `createCached` return their own new
  instance rather than the value that won a race (lines 155 and 185). Without races the
  two are the same instance, and the model says so.
- Class loading (lines 306-335): `Class.forName`, the "Gen" naming convention and the
  `Library.class.isAssignableFrom` test are replaced by the registry's `generated` map and
  `loadable` set. Initialising a generated class registers its library when that class is
  not registered yet. The recursive-initialisation error therefore cannot arise in the
  model.
- Registry.LibraryRegistry.NewLibrary: with assertions enabled, the source throws an
  `AssertionError` (line 92) on a message that is already bound or occurs twice, after
  binding the messages before it. The model has no such failure. It passes on the
  constructor's requirement that this does not happen (`rt.assertions ==> Unbound(messages)`).
- ProxyExports: in the source the field `proxyExports` is initialised (line 77) before the
  constructor assigns `libraryClass` (line 88), so the proxy's own library class is null
  (line 371). The model gives it the library's class. Nothing modelled reads that field.
- `Objects.requireNonNull(library)` in `lookup` is not modelled, because a library class
  cannot be null in the model.
- Registry.LibraryRegistry.NewLibrary: it looks up the dynamic-dispatch library before it
  builds the library. The source binds the messages first. So when that lookup throws, the
  source leaves the messages bound to an unfinished library, and the model leaves them
  unbound.
- Library.ResolvedLibrary.constructor: the source fills the table and binds the messages in
  one loop (lines 91-95). The model fills the table in a first loop, before the object
  exists, so that `nameToMessages` can be a constant as in the source, and binds the
  messages in a second loop. Neither step reads what the other writes. The table is a
  `map`, so the insertion order of the `LinkedHashMap` is not modelled; no modelled
  operation depends on it.
- Library.ResolvedLibrary.constructor: with assertions enabled, the source throws on a
  message that is already bound or occurs twice. The model requires that neither happens,
  because a constructor cannot fail.
- The assertions on the generated class's name and annotation (lines 85-87) are not
  modelled. `createAssertions` (lines 226-228) is the identity.
- The generated members `createCachedDispatchImpl`, `createProxy` and `getDefaultClass` are
  uninterpreted. The polymorphic inline cache behind `createCachedDispatchImpl` is not part
  of this model. `genericDispatch` (line 244), message invocation and what `accepts`
  means are not modelled.
- ProxyExports: its factories call the reflection library's `getUncached` and
  `createCached`. These calls are total collaborator functions. So their effect on that
  library's own caches is not modelled. Nor is their failure: the reflection library's
  calls can throw, for example on its own receiver-class check or its assertions.
- Object identity of created instances: the factories are functions, so two creations with
  the same arguments give equal values. Java allocates distinct objects. The sharing
  properties hold regardless, because they compare with the stored entry.
- `toString`, `getLibraryClass` and `getMessages` are plain accessors; the last two are the
  class's constants.
- `ContextPolicyTest.java`, a test of engine and context lifecycle, is not part of this model.

## Notes on the source

- `resolveLibraryByName` returns null only when `Class.forName` throws
  `ClassNotFoundException` (lines 332-333). For any class that exists, it returns the result
  of `lookup`. So a class that is no registered or loadable library makes it throw `lookup`'s
  `IllegalArgumentException` (line 300).
- When there is no direct export, no proxy and no default export, `lookupExport` holds a
  null export. `exportCache.putIfAbsent` then throws `NullPointerException` on the null
  value (line 268). The model reports this as the `NoExports` error.
