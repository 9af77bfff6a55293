/** The static half of `ResolvedLibrary`: the process-wide registry from library class to
    resolved library, lookup with on-demand loading of the generated class, and the
    name-based resolution of libraries and messages. */
module Registry {
  import opened Wrappers
  import opened Types
  import opened ConcurrentMaps
  import opened Library

  class LibraryRegistry {
    /** `LIBRARIES`. */
    var libraries: map<Class, ResolvedLibrary>
    /** The generated library classes the class loader can find, each with the library its
        static initialiser registers. */
    const generated: map<Class, ResolvedLibrary>
    /** The other classes `Class.forName` can find. */
    const loadable: set<Class>
    /** `TruffleOptions.AOT`: no classes are loaded on demand. */
    const aot: bool

    /** Every library the registry holds or can load is well formed and keyed by its own
        library class, so it can be handed to `getUncached` and `createCached`. */
    ghost predicate WellFormed(libs: map<Class, ResolvedLibrary>)
      reads libs.Values
    {
      forall c :: c in libs ==> libs[c].libraryClass == c && libs[c].Valid()
    }

    ghost predicate Valid()
      reads this, libraries.Values, generated.Values
    {
      WellFormed(libraries) && WellFormed(generated)
    }

    constructor (generated: map<Class, ResolvedLibrary>, loadable: set<Class>, aot: bool)
      ensures libraries == map[]
      ensures this.generated == generated && this.loadable == loadable && this.aot == aot
      ensures Valid() <==> WellFormed(generated)
    {
      libraries := map[];
      this.generated := generated;
      this.loadable := loadable;
      this.aot := aot;
    }

    /** The registry after loading the generated class of `libraryClass`: its static
        initialiser registers the library unless one is registered already. */
    function Loaded(libs: map<Class, ResolvedLibrary>, libraryClass: Class): (r: map<Class, ResolvedLibrary>)
      ensures Extends(libs, r)
      ensures r.Keys == libs.Keys + (if libraryClass in generated then {libraryClass} else {})
      ensures libraryClass !in libs && libraryClass in generated ==> r[libraryClass] == generated[libraryClass]
    {
      if libraryClass in generated && libraryClass !in libs then libs[libraryClass := generated[libraryClass]]
      else libs
    }

    /** The registry after `lookup(libraryClass)`: unchanged for a registered class or
        under AOT, otherwise after loading the generated class. */
    function LookedUp(libs: map<Class, ResolvedLibrary>, libraryClass: Class): (r: map<Class, ResolvedLibrary>)
      ensures libraryClass in libs || aot ==> r == libs
      ensures libraryClass !in libs && !aot ==> r == Loaded(libs, libraryClass)
      ensures Extends(libs, r)
      ensures libraryClass in r <==> libraryClass in libs || (!aot && libraryClass in generated)
      ensures r.Keys <= libs.Keys + {libraryClass}
    {
      if libraryClass in libs || aot then libs else Loaded(libs, libraryClass)
    }

    /** `Class.forName(name)` finds the class. */
    predicate ClassExists(c: Class)
      reads this
    {
      c in loadable || c in generated || c in libraries
    }

    /** `register`: exactly once per library class. */
    method Register(libraryClass: Class, library: ResolvedLibrary) returns (r: Outcome<Error>)
      modifies this`libraries
      ensures r.Fail? <==> libraryClass in old(libraries)
      ensures r.Fail? ==> r.error == AlreadyRegistered(libraryClass) && libraries == old(libraries)
      ensures r.Pass? ==> libraries == old(libraries)[libraryClass := library]
      ensures old(Valid()) && library.libraryClass == libraryClass && library.Valid() ==> Valid()
    {
      var previous := if libraryClass in libraries then Some(libraries[libraryClass]) else None;
      libraries := PutIfAbsent(libraries, libraryClass, library);
      if previous.Some? {
        return Fail(AlreadyRegistered(libraryClass));
      }
      r := Pass;
    }

    /** `loadGeneratedClass`: initialise the generated class, then read the registry. */
    method LoadGeneratedClass(libraryClass: Class) returns (r: Option<ResolvedLibrary>)
      modifies this`libraries
      ensures libraries == Loaded(old(libraries), libraryClass)
      ensures r.Some? <==> libraryClass in generated
      ensures r.Some? ==> r.value == libraries[libraryClass]
      ensures old(Valid()) ==> Valid()
    {
      if libraryClass !in generated {
        // not a library class, or the generated class is not found
        return None;
      }
      if libraryClass !in libraries {
        libraries := libraries[libraryClass := generated[libraryClass]];
      }
      r := Some(libraries[libraryClass]);
    }

    /** `lookup`: the registered library, loading its generated class first when it is
        missing and loading is allowed; never null. */
    method Lookup(library: Class) returns (r: Result<ResolvedLibrary, Error>)
      modifies this`libraries
      ensures library in old(libraries) ==> r == Success(old(libraries)[library]) && libraries == old(libraries)
      ensures libraries == LookedUp(old(libraries), library)
      ensures r.Success? <==> library in libraries
      ensures r.Success? ==> r.value == libraries[library]
      ensures r.Failure? ==> r.error == NotRegistered(library)
      ensures old(Valid()) ==> Valid()
      ensures Valid() && r.Success? ==> r.value.libraryClass == library && r.value.Valid()
    {
      if library in libraries {
        return Success(libraries[library]);
      }
      if !aot {
        var _ := LoadGeneratedClass(library);
      }
      if library !in libraries {
        return Failure(NotRegistered(library));
      }
      r := Success(libraries[library]);
    }

    /** `resolveLibraryByName`: absent only when no class has that name. */
    method ResolveLibraryByName(name: string) returns (r: Result<Option<ResolvedLibrary>, Error>)
      modifies this`libraries
      ensures !old(ClassExists(Class(name))) ==> r == Success(None) && libraries == old(libraries)
      ensures old(ClassExists(Class(name))) ==>
                && (r.Success? <==> Class(name) in libraries)
                && (r.Success? ==> r.value == Some(libraries[Class(name)]))
                && (r.Failure? ==> r.error == NotRegistered(Class(name)))
      ensures libraries == if old(ClassExists(Class(name))) then LookedUp(old(libraries), Class(name)) else old(libraries)
      ensures old(Valid()) ==> Valid()
    {
      var c := Class(name);
      if !ClassExists(c) {
        return Success(None);
      }
      var lib := Lookup(c);
      if lib.Failure? {
        return Failure(lib.error);
      }
      r := Success(Some(lib.value));
    }

    /** `resolveMessage(Class, String)`: the message of that simple name, if any. */
    method ResolveMessage(library: Class, message: string) returns (r: Result<Option<Message>, Error>)
      modifies this`libraries
      ensures r.Success? <==> library in libraries
      ensures r.Success? ==>
                r.value == if message in libraries[library].nameToMessages
                           then Some(libraries[library].nameToMessages[message]) else None
      ensures r.Failure? ==> r.error == NotRegistered(library)
      ensures libraries == LookedUp(old(libraries), library)
      ensures old(Valid()) ==> Valid()
    {
      var lib := Lookup(library);
      if lib.Failure? {
        return Failure(lib.error);
      }
      var table := lib.value.nameToMessages;
      r := Success(if message in table then Some(table[message]) else None);
    }

    /** `resolveMessage(String, String)`: absent when the library class does not exist. */
    method ResolveMessageByName(library: string, message: string) returns (r: Result<Option<Message>, Error>)
      modifies this`libraries
      ensures !old(ClassExists(Class(library))) ==> r == Success(None) && libraries == old(libraries)
      ensures old(ClassExists(Class(library))) ==>
                && libraries == LookedUp(old(libraries), Class(library))
                && (r.Success? <==> Class(library) in libraries)
                && (r.Success? ==>
                      r.value == if message in libraries[Class(library)].nameToMessages
                                 then Some(libraries[Class(library)].nameToMessages[message]) else None)
                && (r.Failure? ==> r.error == NotRegistered(Class(library)))
      ensures old(Valid()) ==> Valid()
    {
      var lib := ResolveLibraryByName(library);
      if lib.Failure? {
        return Failure(lib.error);
      }
      if lib.value.None? {
        return Success(None);
      }
      var table := lib.value.value.nameToMessages;
      r := Success(if message in table then Some(table[message]) else None);
    }

    /** The `ResolvedLibrary` constructor: every library but the dynamic-dispatch library
        looks that library up and dispatches through its uncached dispatch. */
    method NewLibrary(libraryClass: Class, messages: seq<Message>, uncachedDispatch: Implementation,
                      rt: Runtime, hooks: GeneratedHooks)
      returns (r: Result<ResolvedLibrary, Error>)
      requires rt.assertions ==> Unbound(messages)
      modifies this`libraries, set m | m in messages
      ensures libraryClass == DYNAMIC_DISPATCH_LIBRARY ==> r.Success? && libraries == old(libraries)
      ensures libraryClass != DYNAMIC_DISPATCH_LIBRARY ==>
                && (r.Success? <==> DYNAMIC_DISPATCH_LIBRARY in libraries)
                && libraries == LookedUp(old(libraries), DYNAMIC_DISPATCH_LIBRARY)
                && (r.Failure? ==> r.error == NotRegistered(DYNAMIC_DISPATCH_LIBRARY))
                && (r.Success? ==> r.value.dispatchLibrary == Some(libraries[DYNAMIC_DISPATCH_LIBRARY].uncachedDispatch))
      ensures r.Failure? ==> forall m :: m in messages ==> m.library == old(m.library)
      ensures old(Valid()) ==> Valid()
      ensures r.Success? ==>
                && fresh(r.value)
                && r.value.Valid()
                && r.value.libraryClass == libraryClass && r.value.messages == messages
                && r.value.uncachedDispatch == uncachedDispatch && r.value.rt == rt && r.value.hooks == hooks
                && (forall m :: m in messages ==> m.library == r.value)
                && r.value.nameToMessages == NameTable(messages)
                && r.value.Snapshot() == Caches(map[], map[], map[])
    {
      var dispatchLibrary: Option<Implementation> := None;
      if libraryClass != DYNAMIC_DISPATCH_LIBRARY {
        var lib := Lookup(DYNAMIC_DISPATCH_LIBRARY);
        if lib.Failure? {
          return Failure(lib.error);
        }
        dispatchLibrary := Some(lib.value.GetUncachedDispatch());
      }
      var created := new ResolvedLibrary(libraryClass, messages, uncachedDispatch, dispatchLibrary, rt, hooks);
      r := Success(created);
    }
  }
}
