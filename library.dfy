/** A resolved library: the per-library half of `ResolvedLibrary`. It binds the library's
    messages, resolves a receiver to its dispatch class, and memoises exports and
    library instances per dispatch class in three append-only caches. */
module Library {
  import opened Wrappers
  import opened Types
  import opened ConcurrentMaps

  /** A message of a library; `library` is its back-reference, bound once. */
  class Message {
    const simpleName: string
    var library: ResolvedLibrary?

    constructor (simpleName: string)
      ensures this.simpleName == simpleName && library == null
    {
      this.simpleName := simpleName;
      library := null;
    }
  }

  /** No message is bound yet, and none occurs twice: what the constructor's assertion
      `message.library == null` demands when assertions are enabled. */
  ghost predicate Unbound(messages: seq<Message>)
    reads set m | m in messages
  {
    forall i :: 0 <= i < |messages| ==> messages[i].library == null && messages[i] !in messages[..i]
  }

  /** The name-to-message table that `LinkedHashMap.put` builds: a later message with the
      same simple name replaces an earlier one. */
  function NameTable(messages: seq<Message>): (table: map<string, Message>)
    ensures table.Keys == set m | m in messages :: m.simpleName
    ensures forall n :: n in table ==> table[n] in messages && table[n].simpleName == n
    decreases |messages|
  {
    if messages == [] then map[]
    else
      var last := messages[|messages| - 1];
      NameTable(messages[..|messages| - 1])[last.simpleName := last]
  }

  /** The table holds, for each name, the LAST message that carries it. */
  lemma {:induction false} NameTableLastWins(messages: seq<Message>, n: string)
    requires n in NameTable(messages)
    ensures exists i :: 0 <= i < |messages| && messages[i] == NameTable(messages)[n]
                        && forall j :: i < j < |messages| ==> messages[j].simpleName != n
  {
    var prefix := messages[..|messages| - 1];
    var last := messages[|messages| - 1];
    if last.simpleName == n {
      assert messages[|messages| - 1] == NameTable(messages)[n];
    } else {
      assert n in NameTable(prefix);
      NameTableLastWins(prefix, n);
      var i :| 0 <= i < |prefix| && prefix[i] == NameTable(prefix)[n]
               && forall j :: i < j < |prefix| ==> prefix[j].simpleName != n;
      assert messages[i] == NameTable(messages)[n];
      assert forall j :: i < j < |messages| ==> messages[j].simpleName != n by {
        forall j | i < j < |messages| ensures messages[j].simpleName != n {
          if j < |prefix| { assert messages[j] == prefix[j]; }
        }
      }
    }
  }

  /** The three caches of a resolved library, keyed by dispatch class. */
  datatype Caches = Caches(
    exports: map<Class, ResolvedExports>,
    uncached: map<Class, Implementation>,
    cached: map<Class, Implementation>)

  /** Caches only grow: every entry of `s` is still in `t`, unchanged. */
  ghost predicate AppendOnly(s: Caches, t: Caches)
  {
    Extends(s.exports, t.exports) && Extends(s.uncached, t.uncached) && Extends(s.cached, t.cached)
  }

  lemma AppendOnlyTransitive(a: Caches, b: Caches, c: Caches)
    requires AppendOnly(a, b) && AppendOnly(b, c)
    ensures AppendOnly(a, c)
  {
    ExtendsTransitive(a.exports, b.exports, c.exports);
    ExtendsTransitive(a.uncached, b.uncached, c.uncached);
    ExtendsTransitive(a.cached, b.cached, c.cached);
  }

  /** The outcome of one operation: what it returns or throws, and the caches afterwards. */
  datatype Step<T> = Step(result: Result<T, Error>, caches: Caches)

  /** A call into a resolved library from some caller. */
  datatype Request =
    | LookupExportCall(exportReceiver: Obj, dispatchedClass: Class)
    | GetUncachedCall(receiver: Option<Obj>)
    | CreateCachedCall(receiver: Option<Obj>)

  /** What a sequence of `getUncached` calls returned, and the caches afterwards. */
  datatype Run = Run(results: seq<Result<Implementation, Error>>, caches: Caches)

  class ResolvedLibrary {
    const libraryClass: Class
    const messages: seq<Message>
    const uncachedDispatch: Implementation
    /** The uncached dispatch of the dynamic-dispatch library; absent for that library itself. */
    const dispatchLibrary: Option<Implementation>
    const rt: Runtime
    const hooks: GeneratedHooks
    const proxyExports: ResolvedExports := ProxyExports(libraryClass)
    const nameToMessages: map<string, Message>
    var exportCache: map<Class, ResolvedExports>
    var uncachedCache: map<Class, Implementation>
    var cachedCache: map<Class, Implementation>

    /** The current contents of the three caches. */
    function Snapshot(): Caches
      reads this
    {
      Caches(exportCache, uncachedCache, cachedCache)
    }

    /** No adoptable (call-site bound) instance is ever shared through the cached cache. */
    ghost predicate CachedShareable(s: Caches)
    {
      forall c :: c in s.cached ==> !rt.isAdoptable(s.cached[c])
    }

    ghost predicate Valid()
      reads this
    {
      && (dispatchLibrary.None? <==> libraryClass == DYNAMIC_DISPATCH_LIBRARY)
      && CachedShareable(Snapshot())
    }

    /** Builds the name-to-message table and binds every message to this library. The
        table does not depend on the binding, so it is built first, while the fields are
        still being initialised. */
    constructor (libraryClass: Class, messages: seq<Message>, uncachedDispatch: Implementation,
                 dispatchLibrary: Option<Implementation>, rt: Runtime, hooks: GeneratedHooks)
      requires dispatchLibrary.None? <==> libraryClass == DYNAMIC_DISPATCH_LIBRARY
      requires rt.assertions ==> Unbound(messages)
      modifies set m | m in messages
      ensures Valid()
      ensures this.libraryClass == libraryClass && this.messages == messages
      ensures this.uncachedDispatch == uncachedDispatch && this.dispatchLibrary == dispatchLibrary
      ensures this.rt == rt && this.hooks == hooks
      ensures forall m :: m in messages ==> m.library == this
      ensures nameToMessages == NameTable(messages)
      ensures exportCache == map[] && uncachedCache == map[] && cachedCache == map[]
    {
      this.libraryClass := libraryClass;
      this.messages := messages;
      this.uncachedDispatch := uncachedDispatch;
      this.dispatchLibrary := dispatchLibrary;
      this.rt := rt;
      this.hooks := hooks;
      exportCache, uncachedCache, cachedCache := map[], map[], map[];
      var messagesMap: map<string, Message> := map[];
      var i := 0;
      while i < |messages|
        invariant 0 <= i <= |messages|
        invariant messagesMap == NameTable(messages[..i])
      {
        messagesMap := messagesMap[messages[i].simpleName := messages[i]];
        assert messages[..i + 1][..i] == messages[..i];
        i := i + 1;
      }
      assert messages[..i] == messages;
      nameToMessages := messagesMap;
      new;
      i := 0;
      while i < |messages|
        invariant 0 <= i <= |messages|
        invariant forall k :: 0 <= k < i ==> messages[k].library == this
        invariant exportCache == map[] && uncachedCache == map[] && cachedCache == map[]
      {
        messages[i].library := this;
        i := i + 1;
      }
    }

    /** The dispatch instance the generated library was constructed with. */
    function GetUncachedDispatch(): (r: Implementation)
      ensures r == uncachedDispatch
    {
      uncachedDispatch
    }

    /** A positive limit builds a polymorphic inline cache; any other limit gets the
        uncached dispatch. */
    function CreateCachedDispatch(limit: int): (r: Implementation)
      ensures limit <= 0 ==> r == GetUncachedDispatch()
      ensures limit > 0 ==> r == hooks.createCachedDispatchImpl(limit)
    {
      if limit <= 0 then GetUncachedDispatch() else hooks.createCachedDispatchImpl(limit)
    }

    /** The class to look exports up for: null is rejected; the dynamic-dispatch library's
        answer wins when there is one; otherwise the receiver's own class. */
    function Dispatch(receiver: Option<Obj>): (r: Result<Class, Error>)
      ensures r.Failure? <==> receiver.None?
      ensures r.Failure? ==> r.error == NullReceiver
      ensures receiver.Some? && dispatchLibrary.None? ==> r == Success(receiver.value.cls)
      ensures receiver.Some? && dispatchLibrary.Some? ==>
                r == Success(match rt.dynamicDispatch(dispatchLibrary.value, receiver.value)
                             case Some(c) => c
                             case None => receiver.value.cls)
    {
      match receiver
      case None => Failure(NullReceiver)
      case Some(o) =>
        if dispatchLibrary.None? then Success(o.cls)
        else
          var dispatched := rt.dynamicDispatch(dispatchLibrary.value, o);
          if dispatched.None? then Success(o.cls) else Success(dispatched.value)
    }

    /** The dynamic-dispatch library never redirects through itself. */
    lemma DynamicDispatchLibraryUsesOwnClass(o: Obj)
      requires Valid() && libraryClass == DYNAMIC_DISPATCH_LIBRARY
      ensures Dispatch(Some(o)) == Success(o.cls)
    {
    }

    /** `validateExport(receiver, dispatchedClass, exports)`. */
    function ValidateExport(receiver: Obj, exports: ResolvedExports): (r: Outcome<Error>)
      ensures r.Pass? <==> IsInstance(rt, exports.ReceiverClass(), receiver)
      ensures r.Fail? ==> r.error == IncompatibleReceiver
    {
      if IsInstance(rt, exports.ReceiverClass(), receiver) then Pass else Fail(IncompatibleReceiver)
    }

    /** The export found for a dispatched class when the cache has none: the direct export,
        else the proxy, else the export of the receiver's default class. */
    function ResolveExport(receiver: Obj, dispatchedClass: Class): (r: Result<ResolvedExports, Error>)
      // a direct export is never bypassed, and is returned only for a compatible receiver
      ensures rt.exportsFor(dispatchedClass, libraryClass).Some? ==>
                var direct := Generated(rt.exportsFor(dispatchedClass, libraryClass).value);
                && (r.Success? ==> r.value == direct)
                && (r.Success? <==> IsInstance(rt, direct.ReceiverClass(), receiver)
                                    && !(rt.assertions && direct.IsDefaultExport()))
      // with no direct export, a reflective dispatched class gets the proxy, except in the
      // dynamic-dispatch library
      ensures (&& rt.exportsFor(dispatchedClass, libraryClass).None?
               && libraryClass != DYNAMIC_DISPATCH_LIBRARY
               && rt.exportsFor(dispatchedClass, REFLECTION_LIBRARY).Some?) ==> r == Success(proxyExports)
      ensures r.Success? && r.value.ProxyExports? ==>
                && r.value == proxyExports
                && libraryClass != DYNAMIC_DISPATCH_LIBRARY
                && rt.exportsFor(dispatchedClass, libraryClass).None?
                && rt.exportsFor(dispatchedClass, REFLECTION_LIBRARY).Some?
      // otherwise the default class's export, and an error when there is none
      ensures (&& rt.exportsFor(dispatchedClass, libraryClass).None?
               && !(libraryClass != DYNAMIC_DISPATCH_LIBRARY && rt.exportsFor(dispatchedClass, REFLECTION_LIBRARY).Some?)) ==>
                r == match rt.exportsFor(hooks.getDefaultClass(receiver), libraryClass)
                     case Some(e) => Success(Generated(e))
                     case None => Failure(NoExports)
      // a direct or proxy export accepts the receiver's class
      ensures r.Success? && (rt.exportsFor(dispatchedClass, libraryClass).Some? || r.value.ProxyExports?) ==>
                IsInstance(rt, r.value.ReceiverClass(), receiver)
    {
      match rt.exportsFor(dispatchedClass, libraryClass)
      case Some(e) =>
        var direct := Generated(e);
        if rt.assertions && direct.IsDefaultExport() then Failure(DefaultExportDispatched)
        else if ValidateExport(receiver, direct).Fail? then Failure(IncompatibleReceiver)
        else Success(direct)
      case None =>
        if libraryClass != DYNAMIC_DISPATCH_LIBRARY && rt.exportsFor(dispatchedClass, REFLECTION_LIBRARY).Some? then
          Success(proxyExports)
        else
          match rt.exportsFor(hooks.getDefaultClass(receiver), libraryClass)
          case Some(d) => Success(Generated(d))
          case None => Failure(NoExports)
    }

    /** `lookupExport`, memoised: a published export is returned as it is; otherwise the
        resolved export is published with first-insert-wins. */
    function LookupExportStep(s: Caches, receiver: Obj, dispatchedClass: Class): (r: Step<ResolvedExports>)
      ensures dispatchedClass in s.exports ==> r == Step(Success(s.exports[dispatchedClass]), s)
      ensures dispatchedClass !in s.exports ==> r.result == ResolveExport(receiver, dispatchedClass)
      ensures r.result.Success? ==> dispatchedClass in r.caches.exports
                                    && r.caches.exports[dispatchedClass] == r.result.value
      ensures r.result.Failure? ==> r.caches == s
      ensures AppendOnly(s, r.caches)
      ensures r.caches.exports.Keys <= s.exports.Keys + {dispatchedClass}
      ensures r.caches.uncached == s.uncached && r.caches.cached == s.cached
    {
      if dispatchedClass in s.exports then Step(Success(s.exports[dispatchedClass]), s)
      else
        match ResolveExport(receiver, dispatchedClass)
        case Failure(e) => Step(Failure(e), s)
        case Success(exports) =>
          var published := PutIfAbsent(s.exports, dispatchedClass, exports);
          Step(Success(published[dispatchedClass]), s.(exports := published))
    }

    /** `validateExport(receiver, dispatchClass, library)`, run only under assertions: the
        export found for the dispatch class must fit the receiver, and `library` must accept it. */
    function ValidateLibraryStep(s: Caches, receiver: Obj, dispatchClass: Class, library: Implementation)
      : (r: Step<Implementation>)
      ensures var l := LookupExportStep(s, receiver, dispatchClass);
              && r.caches == l.caches
              && (r.result.Success? <==> l.result.Success? && IsInstance(rt, l.result.value.ReceiverClass(), receiver)
                                         && rt.accepts(library, receiver))
      ensures r.result.Success? ==> r.result.value == library
      ensures AppendOnly(s, r.caches) && r.caches.uncached == s.uncached && r.caches.cached == s.cached
    {
      var l := LookupExportStep(s, receiver, dispatchClass);
      if l.result.Failure? then Step(Failure(l.result.error), l.caches)
      else if ValidateExport(receiver, l.result.value).Fail? then Step(Failure(IncompatibleReceiver), l.caches)
      else if !rt.accepts(library, receiver) then Step(Failure(InvalidAccepts), l.caches)
      else Step(Success(library), l.caches)
    }

    /** `exports.createUncached(receiver)`; the proxy wraps the reflection library's instance. */
    function UncachedFrom(exports: ResolvedExports, receiver: Obj): (r: Implementation)
      ensures exports.Generated? ==> r == rt.createUncached(exports.generated, receiver)
      ensures exports.ProxyExports? ==> r == hooks.createProxy(rt.reflectionUncached(receiver))
    {
      match exports
      case Generated(e) => rt.createUncached(e, receiver)
      case ProxyExports(_) => hooks.createProxy(rt.reflectionUncached(receiver))
    }

    /** `exports.createCached(receiver)`; the proxy wraps the reflection library's instance. */
    function CachedFrom(exports: ResolvedExports, receiver: Obj): (r: Implementation)
      ensures exports.Generated? ==> r == rt.createCached(exports.generated, receiver)
      ensures exports.ProxyExports? ==> r == hooks.createProxy(rt.reflectionCached(receiver))
    {
      match exports
      case Generated(e) => rt.createCached(e, receiver)
      case ProxyExports(_) => hooks.createProxy(rt.reflectionCached(receiver))
    }

    /** A proxy's instances depend only on the receiver, never on the library class the
        proxy records. */
    lemma ProxyInstancesIgnoreLibraryClass(l1: Class, l2: Class, receiver: Obj)
      ensures UncachedFrom(ProxyExports(l1), receiver) == UncachedFrom(ProxyExports(l2), receiver)
      ensures CachedFrom(ProxyExports(l1), receiver) == CachedFrom(ProxyExports(l2), receiver)
    {
    }

    /** `getUncached(receiver)`: one shared instance per dispatch class. */
    function GetUncachedStep(s: Caches, receiver: Option<Obj>): (r: Step<Implementation>)
      ensures AppendOnly(s, r.caches) && r.caches.cached == s.cached
      ensures r.result.Failure? ==> r.caches.uncached == s.uncached
      ensures receiver.None? ==> r == Step(Failure(NullReceiver), s)
      // the instance returned is the one shared for the dispatch class
      ensures r.result.Success? ==>
                && receiver.Some?
                && Dispatch(receiver).value in r.caches.uncached
                && r.caches.uncached[Dispatch(receiver).value] == r.result.value
      ensures Dispatch(receiver).Success? && Dispatch(receiver).value in s.uncached ==>
                r.caches.uncached == s.uncached
                && (r.result.Success? ==> r.result.value == s.uncached[Dispatch(receiver).value])
                && (!rt.assertions ==> r == Step(Success(s.uncached[Dispatch(receiver).value]), s))
      // under assertions a hit is handed out exactly when it passes validation
      ensures (&& Dispatch(receiver).Success? && Dispatch(receiver).value in s.uncached
               && rt.assertions) ==>
                r == ValidateLibraryStep(s, receiver.value, Dispatch(receiver).value, s.uncached[Dispatch(receiver).value])
      ensures rt.assertions && r.result.Success? ==> rt.accepts(r.result.value, receiver.value)
      // only the dispatch class can gain entries
      ensures Dispatch(receiver).Success? ==>
                && r.caches.exports.Keys <= s.exports.Keys + {Dispatch(receiver).value}
                && r.caches.uncached.Keys <= s.uncached.Keys + {Dispatch(receiver).value}
      // on a miss: the looked-up export's failure is passed on; otherwise the instance it
      // creates is returned (after validation under assertions) and stored for the class
      ensures Dispatch(receiver).Success? && Dispatch(receiver).value !in s.uncached ==>
                var dispatchClass := Dispatch(receiver).value;
                var l := LookupExportStep(s, receiver.value, dispatchClass);
                && (l.result.Failure? ==> r == Step(Failure(l.result.error), l.caches))
                && (l.result.Success? ==>
                      var created := UncachedFrom(l.result.value, receiver.value);
                      && r.caches.exports == l.caches.exports
                      && r.result == (if rt.assertions then ValidateLibraryStep(l.caches, receiver.value, dispatchClass, created).result
                                      else Success(created))
                      && r.caches.uncached == (if r.result.Success? then s.uncached[dispatchClass := created] else s.uncached))
    {
      match Dispatch(receiver)
      case Failure(e) => Step(Failure(e), s)
      case Success(dispatchClass) =>
        var o := receiver.value;
        if dispatchClass in s.uncached then
          var shared := s.uncached[dispatchClass];
          if rt.assertions then ValidateLibraryStep(s, o, dispatchClass, shared)
          else Step(Success(shared), s)
        else
          var l := LookupExportStep(s, o, dispatchClass);
          if l.result.Failure? then Step(Failure(l.result.error), l.caches)
          else
            var created := UncachedFrom(l.result.value, o);
            var v := if rt.assertions then ValidateLibraryStep(l.caches, o, dispatchClass, created)
                     else Step(Success(created), l.caches);
            if v.result.Failure? then v
            else Step(Success(created), v.caches.(uncached := PutIfAbsent(v.caches.uncached, dispatchClass, created)))
    }

    /** `createCached(receiver)`: an instance is shared per dispatch class only when it is
        not adoptable. */
    function CreateCachedStep(s: Caches, receiver: Option<Obj>): (r: Step<Implementation>)
      ensures AppendOnly(s, r.caches) && r.caches.uncached == s.uncached
      ensures r.result.Failure? ==> r.caches.cached == s.cached
      ensures receiver.None? ==> r == Step(Failure(NullReceiver), s)
      ensures CachedShareable(s) ==> CachedShareable(r.caches)
      // the instance returned is either the shared one, or adoptable and kept out of the cache
      ensures r.result.Success? ==>
                && receiver.Some?
                && var dispatchClass := Dispatch(receiver).value;
                   || (dispatchClass in r.caches.cached && r.caches.cached[dispatchClass] == r.result.value)
                   || (dispatchClass !in r.caches.cached && rt.isAdoptable(r.result.value))
      ensures Dispatch(receiver).Success? && Dispatch(receiver).value in s.cached ==>
                r.caches.cached == s.cached
                && (r.result.Success? ==> r.result.value == s.cached[Dispatch(receiver).value])
                && (!rt.assertions ==> r == Step(Success(s.cached[Dispatch(receiver).value]), s))
      // under assertions a hit is handed out exactly when it passes validation
      ensures (&& Dispatch(receiver).Success? && Dispatch(receiver).value in s.cached
               && rt.assertions) ==>
                r == ValidateLibraryStep(s, receiver.value, Dispatch(receiver).value, s.cached[Dispatch(receiver).value])
      ensures rt.assertions && r.result.Success? ==> rt.accepts(r.result.value, receiver.value)
      // only the dispatch class can gain entries
      ensures Dispatch(receiver).Success? ==>
                && r.caches.exports.Keys <= s.exports.Keys + {Dispatch(receiver).value}
                && r.caches.cached.Keys <= s.cached.Keys + {Dispatch(receiver).value}
      // on a miss: the looked-up export's failure is passed on; otherwise the instance it
      // creates is returned when it accepts the receiver (checked under assertions), and is
      // stored for the class exactly when it is not adoptable
      ensures Dispatch(receiver).Success? && Dispatch(receiver).value !in s.cached ==>
                var dispatchClass := Dispatch(receiver).value;
                var l := LookupExportStep(s, receiver.value, dispatchClass);
                && (l.result.Failure? ==> r == Step(Failure(l.result.error), l.caches))
                && (l.result.Success? ==>
                      var created := CachedFrom(l.result.value, receiver.value);
                      && r.caches.exports == l.caches.exports
                      && r.result == (if rt.assertions && !rt.accepts(created, receiver.value) then Failure(InvalidAccepts)
                                      else Success(created))
                      && r.caches.cached == (if r.result.Success? && !rt.isAdoptable(created)
                                             then s.cached[dispatchClass := created] else s.cached))
    {
      match Dispatch(receiver)
      case Failure(e) => Step(Failure(e), s)
      case Success(dispatchClass) =>
        var o := receiver.value;
        if dispatchClass in s.cached then
          var shared := s.cached[dispatchClass];
          if rt.assertions then ValidateLibraryStep(s, o, dispatchClass, shared)
          else Step(Success(shared), s)
        else
          var l := LookupExportStep(s, o, dispatchClass);
          if l.result.Failure? then Step(Failure(l.result.error), l.caches)
          else
            var created := CachedFrom(l.result.value, o);
            if rt.assertions && !rt.accepts(created, o) then Step(Failure(InvalidAccepts), l.caches)
            else if rt.isAdoptable(created) then Step(Success(created), l.caches)
            else Step(Success(created), l.caches.(cached := PutIfAbsent(l.caches.cached, dispatchClass, created)))
    }

    method LookupExport(receiver: Obj, dispatchedClass: Class) returns (r: Result<ResolvedExports, Error>)
      modifies this`exportCache
      ensures Step(r, Snapshot()) == LookupExportStep(old(Snapshot()), receiver, dispatchedClass)
    {
      if dispatchedClass in exportCache {
        return Success(exportCache[dispatchedClass]);
      }
      var lib: ResolvedExports;
      var direct := rt.exportsFor(dispatchedClass, libraryClass);
      if direct.None? {
        // the dynamic-dispatch library is never served by the reflection proxy
        if libraryClass != DYNAMIC_DISPATCH_LIBRARY && rt.exportsFor(dispatchedClass, REFLECTION_LIBRARY).Some? {
          lib := proxyExports;
        } else {
          var defaultClass := hooks.getDefaultClass(receiver);
          var fallback := rt.exportsFor(defaultClass, libraryClass);
          if fallback.None? {
            // putIfAbsent with a null value throws
            return Failure(NoExports);
          }
          lib := Generated(fallback.value);
        }
      } else {
        lib := Generated(direct.value);
        if rt.assertions && lib.IsDefaultExport() {
          return Failure(DefaultExportDispatched);
        }
        var validation := ValidateExport(receiver, lib);
        if validation.Fail? {
          return Failure(validation.error);
        }
      }
      exportCache := PutIfAbsent(exportCache, dispatchedClass, lib);
      r := Success(exportCache[dispatchedClass]);
    }

    method ValidateLibrary(receiver: Obj, dispatchClass: Class, library: Implementation)
      returns (r: Result<Implementation, Error>)
      modifies this`exportCache
      ensures Step(r, Snapshot()) == ValidateLibraryStep(old(Snapshot()), receiver, dispatchClass, library)
    {
      var exports := LookupExport(receiver, dispatchClass);
      if exports.Failure? {
        return Failure(exports.error);
      }
      var validation := ValidateExport(receiver, exports.value);
      if validation.Fail? {
        return Failure(validation.error);
      }
      // the instance must accept the receiver it is handed out for
      if !rt.accepts(library, receiver) {
        return Failure(InvalidAccepts);
      }
      r := Success(library);
    }

    method GetUncached(receiver: Option<Obj>) returns (r: Result<Implementation, Error>)
      requires Valid()
      modifies this`exportCache, this`uncachedCache
      ensures Valid()
      ensures Step(r, Snapshot()) == GetUncachedStep(old(Snapshot()), receiver)
    {
      var dispatch := Dispatch(receiver);
      if dispatch.Failure? {
        return Failure(dispatch.error);
      }
      var dispatchClass := dispatch.value;
      var o := receiver.value;
      if dispatchClass in uncachedCache {
        var uncached := uncachedCache[dispatchClass];
        if rt.assertions {
          r := ValidateLibrary(o, dispatchClass, uncached);
          return;
        }
        return Success(uncached);
      }
      var exports := LookupExport(o, dispatchClass);
      if exports.Failure? {
        return Failure(exports.error);
      }
      var uncached := UncachedFrom(exports.value, o);
      if rt.assertions {
        // the validation also covers the source's second `accepts` assertion
        var validation := ValidateLibrary(o, dispatchClass, uncached);
        if validation.Failure? {
          return validation;
        }
      }
      uncachedCache := PutIfAbsent(uncachedCache, dispatchClass, uncached);
      r := Success(uncached);
    }

    method CreateCached(receiver: Option<Obj>) returns (r: Result<Implementation, Error>)
      requires Valid()
      modifies this`exportCache, this`cachedCache
      ensures Valid()
      ensures Step(r, Snapshot()) == CreateCachedStep(old(Snapshot()), receiver)
    {
      var dispatch := Dispatch(receiver);
      if dispatch.Failure? {
        return Failure(dispatch.error);
      }
      var dispatchClass := dispatch.value;
      var o := receiver.value;
      if dispatchClass in cachedCache {
        var cached := cachedCache[dispatchClass];
        if rt.assertions {
          r := ValidateLibrary(o, dispatchClass, cached);
          return;
        }
        return Success(cached);
      }
      var exports := LookupExport(o, dispatchClass);
      if exports.Failure? {
        return Failure(exports.error);
      }
      var cached := CachedFrom(exports.value, o);
      if rt.assertions && !rt.accepts(cached, o) {
        return Failure(InvalidAccepts);
      }
      if !rt.isAdoptable(cached) {
        cachedCache := PutIfAbsent(cachedCache, dispatchClass, cached);
      }
      r := Success(cached);
    }

    /** The caches after one request. */
    function After(s: Caches, request: Request): (t: Caches)
      ensures AppendOnly(s, t)
      ensures CachedShareable(s) ==> CachedShareable(t)
    {
      match request
      case LookupExportCall(o, c) => LookupExportStep(s, o, c).caches
      case GetUncachedCall(receiver) => GetUncachedStep(s, receiver).caches
      case CreateCachedCall(receiver) => CreateCachedStep(s, receiver).caches
    }

    /** The caches after a sequence of requests, made one after another. */
    function AfterAll(s: Caches, requests: seq<Request>): Caches
      decreases |requests|
    {
      if requests == [] then s else AfterAll(After(s, requests[0]), requests[1..])
    }

    /** Entries are never evicted or replaced, whatever requests are made. */
    lemma {:induction false} AfterAllAppendOnly(s: Caches, requests: seq<Request>)
      ensures AppendOnly(s, AfterAll(s, requests))
      decreases |requests|
    {
      if requests != [] {
        var t := After(s, requests[0]);
        AfterAllAppendOnly(t, requests[1..]);
        AppendOnlyTransitive(s, t, AfterAll(t, requests[1..]));
      }
    }

    /** Adoptable instances never enter the cached cache, whatever requests are made. */
    lemma {:induction false} AfterAllCachedShareable(s: Caches, requests: seq<Request>)
      requires CachedShareable(s)
      ensures CachedShareable(AfterAll(s, requests))
      decreases |requests|
    {
      if requests != [] {
        AfterAllCachedShareable(After(s, requests[0]), requests[1..]);
      }
    }

    /** Once an export is published for a dispatched class, every later lookup for that
        class, for any receiver, returns it and changes nothing. */
    lemma PublishedExportIsStable(s: Caches, requests: seq<Request>, receiver: Obj, dispatchedClass: Class)
      requires dispatchedClass in s.exports
      ensures var t := AfterAll(s, requests);
              LookupExportStep(t, receiver, dispatchedClass) == Step(Success(s.exports[dispatchedClass]), t)
    {
      AfterAllAppendOnly(s, requests);
    }

    /** A sequence of `getUncached` calls, made one after another. */
    function RunGetUncached(s: Caches, receivers: seq<Option<Obj>>): (r: Run)
      ensures |r.results| == |receivers|
      decreases |receivers|
    {
      if receivers == [] then Run([], s)
      else
        var first := GetUncachedStep(s, receivers[0]);
        var rest := RunGetUncached(first.caches, receivers[1..]);
        Run([first.result] + rest.results, rest.caches)
    }

    /** An instance shared for a dispatch class stays shared: every later call whose
        receiver dispatches to that class returns it, or (only under assertions) fails. */
    lemma {:induction false} UncachedEntryIsReturned(s: Caches, receivers: seq<Option<Obj>>, dispatchClass: Class)
      requires dispatchClass in s.uncached
      ensures var r := RunGetUncached(s, receivers);
              && dispatchClass in r.caches.uncached
              && r.caches.uncached[dispatchClass] == s.uncached[dispatchClass]
              && forall i :: 0 <= i < |receivers| && Dispatch(receivers[i]) == Success(dispatchClass) ==>
                   (r.results[i] == Success(s.uncached[dispatchClass]) || (rt.assertions && r.results[i].Failure?))
      decreases |receivers|
    {
      if receivers != [] {
        var first := GetUncachedStep(s, receivers[0]);
        UncachedEntryIsReturned(first.caches, receivers[1..], dispatchClass);
        var r := RunGetUncached(s, receivers);
        forall i | 0 <= i < |receivers| && Dispatch(receivers[i]) == Success(dispatchClass)
          ensures r.results[i] == Success(s.uncached[dispatchClass]) || (rt.assertions && r.results[i].Failure?)
        {
          if i > 0 {
            assert r.results[i] == RunGetUncached(first.caches, receivers[1..]).results[i - 1];
            assert receivers[i] == receivers[1..][i - 1];
          }
        }
      }
    }

    /** Two successful `getUncached` calls whose receivers dispatch to the same class return
        the same instance. */
    lemma {:induction false} UncachedIsShared(s: Caches, receivers: seq<Option<Obj>>, i: nat, j: nat)
      requires i < j < |receivers|
      requires Dispatch(receivers[i]).Success? && Dispatch(receivers[i]) == Dispatch(receivers[j])
      requires RunGetUncached(s, receivers).results[i].Success?
      requires RunGetUncached(s, receivers).results[j].Success?
      ensures RunGetUncached(s, receivers).results[i] == RunGetUncached(s, receivers).results[j]
      decreases i
    {
      var first := GetUncachedStep(s, receivers[0]);
      var r := RunGetUncached(s, receivers);
      var rest := RunGetUncached(first.caches, receivers[1..]);
      assert r.results[j] == rest.results[j - 1];
      assert receivers[j] == receivers[1..][j - 1];
      if i == 0 {
        UncachedEntryIsReturned(first.caches, receivers[1..], Dispatch(receivers[0]).value);
      } else {
        assert r.results[i] == rest.results[i - 1];
        assert receivers[i] == receivers[1..][i - 1];
        UncachedIsShared(first.caches, receivers[1..], i - 1, j - 1);
      }
    }
  }
}
