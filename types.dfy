/** The Java world a resolved library lives in: classes, receivers, library instances,
    exports, the exceptions the dispatch core throws, and the collaborators it calls
    without defining them. */
module Types {
  import opened Wrappers

  /** A Java class, identified by its binary name. */
  datatype Class = Class(name: string)

  const OBJECT := Class("java.lang.Object")
  const DYNAMIC_DISPATCH_LIBRARY := Class("com.oracle.truffle.api.library.DynamicDispatchLibrary")
  const REFLECTION_LIBRARY := Class("com.oracle.truffle.api.library.ReflectionLibrary")

  /** A non-null receiver; `cls` is what `receiver.getClass()` returns. */
  datatype Obj = Obj(cls: Class, id: nat)

  /** An instance of a library: a cached or uncached implementation of its messages. */
  datatype Implementation = Implementation(id: nat)

  /** A generated export of `library` for receivers of `receiverClass`. */
  datatype GeneratedExport = GeneratedExport(id: nat, library: Class, receiverClass: Class, isDefault: bool)

  /** `ResolvedExports`: a generated export, or the library's own `ProxyExports`, which
      forwards every message to the reflection library. */
  datatype ResolvedExports =
    | Generated(generated: GeneratedExport)
    | ProxyExports(library: Class)
  {
    /** The class a receiver must be an instance of; `Object` for the proxy. */
    function ReceiverClass(): Class
    {
      match this
      case Generated(e) => e.receiverClass
      case ProxyExports(_) => OBJECT
    }

    /** The proxy is marked as a default export. */
    predicate IsDefaultExport()
    {
      match this
      case Generated(e) => e.isDefault
      case ProxyExports(_) => true
    }
  }

  /** The exceptions the dispatch core throws. */
  datatype Error =
    | NullReceiver               // dispatch: NullPointerException for a null receiver
    | NoExports                  // lookupExport: no export at all; putIfAbsent refuses the null value
    | IncompatibleReceiver       // validateExport: the receiver is not an instance of the export's receiver class
    | DefaultExportDispatched    // lookupExport: (assertion) dynamic dispatch reached a default export
    | InvalidAccepts             // (assertion) an implementation does not accept its receiver
    | NotRegistered(library: Class)      // lookup: IllegalArgumentException
    | AlreadyRegistered(library: Class)  // register: AssertionError

  /** What the dispatch core calls but does not define. */
  datatype Runtime = Runtime(
    supertypes: Class -> set<Class>,                        // the superclasses and interfaces of a class
    exportsFor: (Class, Class) -> Option<GeneratedExport>,  // ResolvedDispatch.lookup(receiverClass).getLibrary(library)
    dynamicDispatch: (Implementation, Obj) -> Option<Class>, // DynamicDispatchLibrary.dispatch(receiver)
    createUncached: (GeneratedExport, Obj) -> Implementation,
    createCached: (GeneratedExport, Obj) -> Implementation,
    reflectionUncached: Obj -> Implementation,              // the reflection library's getUncached(receiver)
    reflectionCached: Obj -> Implementation,                // the reflection library's createCached(receiver)
    accepts: (Implementation, Obj) -> bool,
    isAdoptable: Implementation -> bool,                    // NodeUtil.isAdoptable
    assertions: bool)                                       // Java assertions are enabled

  /** The members a generated subclass of `ResolvedLibrary` supplies. */
  datatype GeneratedHooks = GeneratedHooks(
    getDefaultClass: Obj -> Class,
    createProxy: Implementation -> Implementation,
    createCachedDispatchImpl: int -> Implementation)

  /** `c.isInstance(o)`: `c` is the class of `o`, one of its supertypes, or `Object`. */
  predicate IsInstance(rt: Runtime, c: Class, o: Obj)
  {
    c == OBJECT || c == o.cls || c in rt.supertypes(o.cls)
  }

  /** The proxy export accepts every receiver. */
  lemma ProxyExportsAcceptEveryReceiver(rt: Runtime, library: Class, o: Obj)
    ensures IsInstance(rt, ProxyExports(library).ReceiverClass(), o)
    ensures ProxyExports(library).IsDefaultExport()
  {
  }
}
