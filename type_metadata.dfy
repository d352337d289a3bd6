/**
 * The message-type resolver of `TypeMetadataCache<T>`: which CLR types are valid logical
 * message types, the ordered list of message types a type satisfies, their URNs, the
 * saga-interface and temporary-type tests, and the process-wide memo table.
 *
 * A CLR `Type` is described by a `TypeInfo` record holding exactly the facts that the
 * resolver reads through reflection.
 */
module TypeMetadata {
  import opened Common

  /** The identity of a type, as far as the resolver compares types with `==`. */
  datatype Identity =
    | ISaga                   // MassTransit.Saga.ISaga
    | JToken                  // Newtonsoft.Json.Linq.JToken
    | SystemString            // System.String
    | CorrelatedBy            // the generic definition CorrelatedBy<>
    | Orchestrates            // Orchestrates<>
    | InitiatedBy             // InitiatedBy<>
    | Observes                // Observes<,>
    | IConsumer               // IConsumer<>
    | Declared(fullName: string)

  /** What reflection reports about one type. */
  datatype TypeInfo = TypeInfo(
    identity: Identity,
    name: string,                          // the short name (`GetTypeName`)
    ns: Option<string>,                    // `Type.Namespace`, None for null
    inCoreAssembly: bool,                  // `type.Assembly == typeof(object).Assembly`
    genericDefinition: Option<Identity>,   // Some exactly when `IsGenericType`
    isOpenGeneric: bool,
    isAnonymous: bool,
    isVisible: bool,
    isClass: bool,
    isValueType: bool,
    baseType: Option<TypeInfo>,            // `Type.BaseType`
    interfaces: seq<TypeInfo>,             // `GetInterfaces()`, in that order
    genericArguments: seq<TypeInfo>)       // `GetGenericArguments()`

  predicate IsGenericType(t: TypeInfo) {
    t.genericDefinition.Some?
  }

  /** The namespaces excluded by name: `System` itself and everything below it. */
  predicate IsSystemNamespace(ns: string) {
    ns == "System" || StartsWith(ns, "System.")
  }

  /** The generic definitions of the saga protocol, which are never messages themselves. */
  predicate IsSagaProtocolDefinition(d: Identity) {
    d == CorrelatedBy || d == Orchestrates || d == InitiatedBy || d == Observes
  }

  /** `CheckIfValidMessageType`: the tests in the order the source makes them. */
  predicate CheckIfValidMessageType(t: TypeInfo) {
    if t.ns.None? then false
    else if t.inCoreAssembly then false
    else if t.ns.value == "System" then false
    else if StartsWith(t.ns.value, "System.") then false
    else if IsGenericType(t) && IsSagaProtocolDefinition(t.genericDefinition.value) then false
    else if IsGenericType(t) && t.isOpenGeneric then false
    else if t.isAnonymous then false
    else true
  }

  /** A type without a namespace, or from the core library, is never a message type. */
  lemma NoNamespaceOrCoreAssemblyIsInvalid(t: TypeInfo)
    requires t.ns.None? || t.inCoreAssembly
    ensures !CheckIfValidMessageType(t)
  {
  }

  /** The namespace rule excludes exactly `System` and the names `System.<rest>`. */
  lemma {:induction false} SystemNamespaceRule(ns: string)
    ensures IsSystemNamespace(ns) <==> (ns == "System" || exists rest :: ns == "System." + rest)
  {
    if StartsWith(ns, "System.") {
      assert ns == "System." + ns[7..];
    }
    if exists rest :: ns == "System." + rest {
      var rest :| ns == "System." + rest;
      assert ns[..7] == "System.";
    }
  }

  /** The excluded namespaces form a prefix rule on `System.`, not on `System`: `SystemX` passes it. */
  lemma SystemLikeNamespaceIsNotExcluded()
    ensures !IsSystemNamespace("SystemX") && !IsSystemNamespace("Systems.Messages")
    ensures IsSystemNamespace("System.Collections")
  {
    assert "SystemX"[6] != "System."[6];
    assert "Systems.Messages"[6] != "System."[6];
    assert "System.Collections"[..7] == "System.";
  }

  /** Validity is decided by the namespace, the assembly, the generic facts and the anonymous flag alone. */
  lemma ValidityOnlyDependsOnTheListedFacts(t: TypeInfo, u: TypeInfo)
    requires t.ns == u.ns && t.inCoreAssembly == u.inCoreAssembly
    requires t.genericDefinition == u.genericDefinition && t.isOpenGeneric == u.isOpenGeneric
    requires t.isAnonymous == u.isAnonymous
    ensures CheckIfValidMessageType(t) == CheckIfValidMessageType(u)
  {
  }

  /** Saga-protocol interfaces, open generics and anonymous types are rejected. */
  lemma ProtocolOpenAndAnonymousTypesAreInvalid(t: TypeInfo)
    requires (IsGenericType(t) && (IsSagaProtocolDefinition(t.genericDefinition.value) || t.isOpenGeneric))
             || t.isAnonymous
    ensures !CheckIfValidMessageType(t)
  {
  }

  /** A valid type has a namespace outside `System`, comes from outside the core library, and is neither anonymous, open, nor a saga-protocol instance. */
  lemma ValidTypeFacts(t: TypeInfo)
    requires CheckIfValidMessageType(t)
    ensures t.ns.Some? && !IsSystemNamespace(t.ns.value) && !t.inCoreAssembly && !t.isAnonymous
    ensures IsGenericType(t) ==> !t.isOpenGeneric && !IsSagaProtocolDefinition(t.genericDefinition.value)
  {
  }

  /**
   * The bases the `while` loop of `GetMessageTypes` walks: it follows `BaseType` from `b`
   * and stops at the first base that is missing or not a valid message type.
   */
  function BaseChain(b: Option<TypeInfo>): seq<TypeInfo> {
    match b
    case None => []
    case Some(x) => if CheckIfValidMessageType(x) then [x] + BaseChain(x.baseType) else []
  }

  /**
   * The chain starts at `b`, follows `BaseType` links, holds only valid message types, and
   * ends exactly where the next base is missing or invalid.
   */
  lemma {:induction false} BaseChainShape(b: Option<TypeInfo>)
    ensures var chain := BaseChain(b);
      (forall i :: 0 <= i < |chain| ==> CheckIfValidMessageType(chain[i]))
      && (|chain| > 0 ==> b == Some(chain[0]))
      && (forall i :: 0 < i < |chain| ==> chain[i - 1].baseType == Some(chain[i]))
      && var last := if chain == [] then b else chain[|chain| - 1].baseType;
         last.None? || !CheckIfValidMessageType(last.value)
  {
    if b.Some? && CheckIfValidMessageType(b.value) {
      var x := b.value;
      BaseChainShape(x.baseType);
      var rest := BaseChain(x.baseType);
      assert BaseChain(b) == [x] + rest;
      forall i | 0 < i < |rest| + 1
        ensures ([x] + rest)[i - 1].baseType == Some(([x] + rest)[i])
      {
        if i > 1 {
          assert ([x] + rest)[i - 1] == rest[i - 2];
        }
      }
    }
  }

  /** The type itself when it is valid. */
  function SelfIfValid(t: TypeInfo): seq<TypeInfo> {
    if CheckIfValidMessageType(t) then [t] else []
  }

  /** The valid interfaces, in `GetInterfaces` order. */
  function ValidInterfaces(t: TypeInfo): seq<TypeInfo> {
    Filter(t.interfaces, CheckIfValidMessageType)
  }

  /** What `GetMessageTypes` yields: the type, its valid base chain, then its valid interfaces. */
  function MessageTypes(t: TypeInfo): seq<TypeInfo> {
    SelfIfValid(t) + BaseChain(t.baseType) + ValidInterfaces(t)
  }

  /** The `while` loop of `GetMessageTypes`: walk `BaseType` while the base is a valid message type. */
  method WalkBaseChain(b: Option<TypeInfo>) returns (chain: seq<TypeInfo>)
    ensures chain == BaseChain(b)
  {
    chain := [];
    var baseType := b;
    while baseType.Some? && CheckIfValidMessageType(baseType.value)
      invariant chain + BaseChain(baseType) == BaseChain(b)
      decreases baseType
    {
      var x := baseType.value;
      assert BaseChain(baseType) == [x] + BaseChain(x.baseType);
      assert chain + [x] + BaseChain(x.baseType) == chain + ([x] + BaseChain(x.baseType));
      chain := chain + [x];
      baseType := x.baseType;
    }
  }

  /** The `foreach` of `GetMessageTypes` over `GetInterfaces().Where(IsValidMessageType)`. */
  method SelectValidInterfaces(xs: seq<TypeInfo>) returns (valid: seq<TypeInfo>)
    ensures valid == Filter(xs, CheckIfValidMessageType)
  {
    valid := [];
    var i := 0;
    while i < |xs|
      invariant 0 <= i <= |xs|
      invariant valid == Filter(xs[..i], CheckIfValidMessageType)
    {
      FilterSnoc(xs[..i], xs[i], CheckIfValidMessageType);
      assert xs[..i + 1] == xs[..i] + [xs[i]];
      if CheckIfValidMessageType(xs[i]) {
        valid := valid + [xs[i]];
      }
      i := i + 1;
    }
    assert xs[..i] == xs;
  }

  /** `GetMessageTypes`: the type when valid, then the base chain, then the valid interfaces. */
  method GetMessageTypes(t: TypeInfo) returns (types: seq<TypeInfo>)
    ensures types == MessageTypes(t)
  {
    types := [];
    if CheckIfValidMessageType(t) {
      types := types + [t];
    }
    var bases := WalkBaseChain(t.baseType);
    var interfaces := SelectValidInterfaces(t.interfaces);
    types := types + bases + interfaces;
  }

  /** Every resolved message type is valid; a valid type comes first in its own list. */
  lemma MessageTypesAreValid(t: TypeInfo)
    ensures forall x :: x in MessageTypes(t) ==> CheckIfValidMessageType(x)
    ensures CheckIfValidMessageType(t) ==> MessageTypes(t)[0] == t
    ensures !CheckIfValidMessageType(t) ==> t !in MessageTypes(t)
  {
    var chain := BaseChain(t.baseType);
    BaseChainShape(t.baseType);
    forall x | x in chain ensures CheckIfValidMessageType(x) {
      var i :| 0 <= i < |chain| && chain[i] == x;
    }
    forall x | x in ValidInterfaces(t) ensures CheckIfValidMessageType(x) {
      FilterMembership(t.interfaces, CheckIfValidMessageType, x);
    }
  }

  /** A type is resolved to itself only if it is valid; a base is listed only while every base before it is valid. */
  lemma MembershipOfMessageTypes(t: TypeInfo, x: TypeInfo)
    ensures x in MessageTypes(t) <==>
      (x == t && CheckIfValidMessageType(t)) || x in BaseChain(t.baseType)
      || (x in t.interfaces && CheckIfValidMessageType(x))
  {
    FilterMembership(t.interfaces, CheckIfValidMessageType, x);
  }

  /** `MessageUrn` formats a type as `urn:message:<namespace>:<name>`. */
  function MessageUrn(t: TypeInfo): string {
    "urn:message:" + (if t.ns.Some? then t.ns.value else "") + ":" + t.name
  }

  /** `GetMessageTypeNames`: the URNs of the given types, pointwise. */
  function MessageTypeNames(types: seq<TypeInfo>): (names: seq<string>)
    ensures |names| == |types|
    ensures forall i :: 0 <= i < |types| ==> names[i] == MessageUrn(types[i])
  {
    if types == [] then [] else [MessageUrn(types[0])] + MessageTypeNames(types[1..])
  }

  /** A non-visible class: the base case of a temporary message type. */
  predicate IsHiddenClass(t: TypeInfo) {
    !t.isVisible && t.isClass
  }

  /** `CheckIfTemporaryMessageType`: a hidden class, or a generic type with a temporary argument. */
  predicate CheckIfTemporaryMessageType(t: TypeInfo)
    decreases t
  {
    IsHiddenClass(t)
    || (IsGenericType(t)
        && exists i :: 0 <= i < |t.genericArguments| && CheckIfTemporaryMessageType(t.genericArguments[i]))
  }

  /**
   * The type reached from `t` by following generic-argument positions `path`, stepping only
   * through generic types; None when a step leaves the type.
   */
  function Follow(t: TypeInfo, path: seq<nat>): Option<TypeInfo>
    decreases |path|
  {
    if path == [] then Some(t)
    else if IsGenericType(t) && path[0] < |t.genericArguments| then Follow(t.genericArguments[path[0]], path[1..])
    else None
  }

  predicate ReachesHiddenClass(t: TypeInfo, path: seq<nat>) {
    Follow(t, path).Some? && IsHiddenClass(Follow(t, path).value)
  }

  /** A type is temporary exactly when a hidden class is reachable from it through generic arguments. */
  lemma {:induction false} TemporaryIffHiddenClassReachable(t: TypeInfo)
    ensures CheckIfTemporaryMessageType(t) <==> exists path :: ReachesHiddenClass(t, path)
    decreases t
  {
    if CheckIfTemporaryMessageType(t) {
      if IsHiddenClass(t) {
        assert ReachesHiddenClass(t, []);
      } else {
        var i :| 0 <= i < |t.genericArguments| && CheckIfTemporaryMessageType(t.genericArguments[i]);
        TemporaryIffHiddenClassReachable(t.genericArguments[i]);
        var p :| ReachesHiddenClass(t.genericArguments[i], p);
        assert ([i] + p)[1..] == p;
        assert ReachesHiddenClass(t, [i] + p);
      }
    }
    if exists path :: ReachesHiddenClass(t, path) {
      var path :| ReachesHiddenClass(t, path);
      ReachableIsTemporary(t, path);
    }
  }

  lemma {:induction false} ReachableIsTemporary(t: TypeInfo, path: seq<nat>)
    requires ReachesHiddenClass(t, path)
    ensures CheckIfTemporaryMessageType(t)
    decreases |path|
  {
    if path != [] {
      var a := t.genericArguments[path[0]];
      ReachableIsTemporary(a, path[1..]);
      assert CheckIfTemporaryMessageType(t.genericArguments[path[0]]);
    }
  }

  /** `HasInterface(x, def)` from the reflection helpers: `x` is, or implements, a generic instance of `def`. */
  predicate HasInterface(x: TypeInfo, def: Identity) {
    x.genericDefinition == Some(def) || exists y :: y in x.interfaces && y.genericDefinition == Some(def)
  }

  /** An interface that marks a saga: one that has `InitiatedBy<>`, `Orchestrates<>` or `Observes<,>`. */
  predicate IsSagaMarker(x: TypeInfo) {
    HasInterface(x, InitiatedBy) || HasInterface(x, Orchestrates) || HasInterface(x, Observes)
  }

  /** `ScanForSagaInterfaces`: the type implements `ISaga`, or one of its interfaces is a saga marker. */
  predicate ScanForSagaInterfaces(t: TypeInfo) {
    (exists x :: x in t.interfaces && x.identity == ISaga)
    || (exists x :: x in t.interfaces && IsSagaMarker(x))
  }

  /** The saga-interface test depends only on which interfaces are present, not on their order or number. */
  lemma SagaInterfacesDependOnTheInterfaceSet(t: TypeInfo, u: TypeInfo)
    requires forall x :: x in t.interfaces <==> x in u.interfaces
    ensures ScanForSagaInterfaces(t) == ScanForSagaInterfaces(u)
  {
  }

  /** A saga marker definition: `InitiatedBy<>`, `Orchestrates<>` or `Observes<,>` (not `CorrelatedBy<>`). */
  predicate IsSagaMarkerDefinition(d: Option<Identity>) {
    d == Some(InitiatedBy) || d == Some(Orchestrates) || d == Some(Observes)
  }

  lemma MarkerReachedThroughInterface(x: TypeInfo)
    requires IsSagaMarker(x) && !IsSagaMarkerDefinition(x.genericDefinition)
    ensures exists y :: y in x.interfaces && IsSagaMarkerDefinition(y.genericDefinition)
  {
  }

  /**
   * The saga-interface test by position: some listed interface is `ISaga`, is itself an
   * instance of a saga marker definition, or lists one among its own interfaces.
   */
  lemma SagaInterfacesAtSomePosition(t: TypeInfo)
    ensures ScanForSagaInterfaces(t) <==>
      exists i :: 0 <= i < |t.interfaces| &&
        (t.interfaces[i].identity == ISaga
         || IsSagaMarkerDefinition(t.interfaces[i].genericDefinition)
         || exists j :: 0 <= j < |t.interfaces[i].interfaces| && IsSagaMarkerDefinition(t.interfaces[i].interfaces[j].genericDefinition))
  {
    if ScanForSagaInterfaces(t) {
      var x :| x in t.interfaces && (x.identity == ISaga || IsSagaMarker(x));
      var i :| 0 <= i < |t.interfaces| && t.interfaces[i] == x;
      if !(x.identity == ISaga || IsSagaMarkerDefinition(x.genericDefinition)) {
        MarkerReachedThroughInterface(x);
        var y :| y in x.interfaces && IsSagaMarkerDefinition(y.genericDefinition);
        var j :| 0 <= j < |x.interfaces| && x.interfaces[j] == y;
      }
    } else {
      forall i | 0 <= i < |t.interfaces|
        ensures !(t.interfaces[i].identity == ISaga || IsSagaMarkerDefinition(t.interfaces[i].genericDefinition))
        ensures forall j :: 0 <= j < |t.interfaces[i].interfaces| ==>
                  !IsSagaMarkerDefinition(t.interfaces[i].interfaces[j].genericDefinition)
      {
        var x := t.interfaces[i];
        assert x in t.interfaces;
        forall j | 0 <= j < |x.interfaces|
          ensures !IsSagaMarkerDefinition(x.interfaces[j].genericDefinition)
        {
          assert x.interfaces[j] in x.interfaces;
        }
      }
    }
  }

  /** `GetInterfaces()` also lists inherited interfaces: an interface's own interfaces are in the list too. */
  ghost predicate InterfacesClosed(t: TypeInfo) {
    forall x, y :: x in t.interfaces && y in x.interfaces ==> y in t.interfaces
  }

  /**
   * For an interface list closed under inheritance, as the runtime reports it, a type has saga
   * interfaces exactly when one listed interface is `ISaga` or an instance of `InitiatedBy<>`,
   * `Orchestrates<>` or `Observes<,>`.
   */
  lemma SagaInterfacesOfClosedList(t: TypeInfo)
    requires InterfacesClosed(t)
    ensures ScanForSagaInterfaces(t) <==>
      exists i :: 0 <= i < |t.interfaces| &&
        (t.interfaces[i].identity == ISaga || IsSagaMarkerDefinition(t.interfaces[i].genericDefinition))
  {
    if ScanForSagaInterfaces(t) {
      var x :| x in t.interfaces && (x.identity == ISaga || IsSagaMarker(x));
      var w := x;
      if !(x.identity == ISaga || IsSagaMarkerDefinition(x.genericDefinition)) {
        MarkerReachedThroughInterface(x);
        var y :| y in x.interfaces && IsSagaMarkerDefinition(y.genericDefinition);
        w := y;
      }
      assert w in t.interfaces;
      var i :| 0 <= i < |t.interfaces| && t.interfaces[i] == w;
    } else {
      forall i | 0 <= i < |t.interfaces|
        ensures !(t.interfaces[i].identity == ISaga || IsSagaMarkerDefinition(t.interfaces[i].genericDefinition))
      {
        assert t.interfaces[i] in t.interfaces;
      }
    }
  }

  /** The memoised facts about one type: the values of the `Lazy` fields of `TypeMetadataCache<T>`. */
  datatype Metadata = Metadata(
    shortName: string,
    isValidMessageType: bool,
    isTemporaryMessageType: bool,
    hasSagaInterfaces: bool,
    messageTypes: seq<TypeInfo>,
    messageTypeNames: seq<string>)

  /** The metadata a fresh `TypeMetadataCache<T>` computes for `t`. */
  function ComputeMetadata(t: TypeInfo): Metadata {
    Metadata(t.name, CheckIfValidMessageType(t), CheckIfTemporaryMessageType(t),
             ScanForSagaInterfaces(t), MessageTypes(t), MessageTypeNames(MessageTypes(t)))
  }

  /**
   * The process-wide table `TypeMetadataCache.Cached.Instance` (a `ConcurrentDictionary`)
   * together with the per-type `Lazy` singletons: an append-only map from type to metadata.
   */
  class TypeMetadataCache {
    var entries: map<TypeInfo, Metadata>

    /** Every cached entry is what a fresh computation would give. */
    ghost predicate Valid()
      reads this
    {
      forall t :: t in entries ==> entries[t] == ComputeMetadata(t)
    }

    constructor ()
      ensures Valid() && entries == map[]
    {
      entries := map[];
    }

    /**
     * `GetOrAdd`: the first lookup computes and stores the metadata; later lookups return the
     * stored value. The table only grows and never changes an entry.
     */
    method GetOrAdd(t: TypeInfo) returns (m: Metadata)
      requires Valid()
      modifies this
      ensures Valid()
      ensures m == ComputeMetadata(t)
      ensures t in old(entries) ==> m == old(entries)[t] && entries == old(entries)
      ensures entries == old(entries)[t := m]
      ensures forall u :: u in old(entries) ==> u in entries && entries[u] == old(entries)[u]
    {
      if t in entries {
        m := entries[t];
      } else {
        var types := GetMessageTypes(t);
        m := Metadata(t.name, CheckIfValidMessageType(t), CheckIfTemporaryMessageType(t),
                      ScanForSagaInterfaces(t), types, MessageTypeNames(types));
        entries := entries[t := m];
      }
    }
  }

  /** Two lookups of the same type return the same metadata, whatever was looked up in between. */
  method RepeatedLookupsAgree(cache: TypeMetadataCache, t: TypeInfo, other: TypeInfo)
    returns (first: Metadata, second: Metadata)
    requires cache.Valid()
    modifies cache
    ensures first == second
  {
    first := cache.GetOrAdd(t);
    var between := cache.GetOrAdd(other);
    second := cache.GetOrAdd(t);
  }
}
