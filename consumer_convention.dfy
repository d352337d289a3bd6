/**
 * `AsyncConsumerMessageConvention<T>.GetMessageTypes`: the messages a consumer type `T`
 * handles, one for each `IConsumer<M>` it is or implements.
 */
module AsyncConsumerConvention {
  import opened Common
  import opened TypeMetadata

  /** `ConsumerInterfaceType`: a message type together with the consumer type that handles it. */
  datatype ConsumerInterfaceType = ConsumerInterfaceType(messageType: TypeInfo, consumerType: TypeInfo)

  /**
   * A closed `IConsumer<M>`. `IConsumer<>` has exactly one generic argument; the length test only
   * keeps the model total on descriptors that reflection would never produce.
   */
  predicate IsConsumerInterface(x: TypeInfo) {
    x.genericDefinition == Some(IConsumer) && |x.genericArguments| > 0
  }

  /** The message type `M` of `IConsumer<M>`. */
  function ConsumedMessage(x: TypeInfo): TypeInfo
    requires IsConsumerInterface(x)
  {
    x.genericArguments[0]
  }

  /** A message type the convention accepts: neither a value type nor `string`. */
  predicate IsMessageCandidate(m: TypeInfo) {
    !m.isValueType && m.identity != SystemString
  }

  /** An interface yields an entry when it is `IConsumer<M>` for an acceptable `M`. */
  predicate Contributes(x: TypeInfo) {
    IsConsumerInterface(x) && IsMessageCandidate(ConsumedMessage(x))
  }

  /** The LINQ chain over `GetInterfaces()`: keep `IConsumer<>` instances, take `M`, drop value types and `string`. */
  function ConsumerInterfaces(xs: seq<TypeInfo>, consumer: TypeInfo): (r: seq<ConsumerInterfaceType>)
    ensures |r| <= |xs|
    ensures forall e :: e in r ==> e.consumerType == consumer && IsMessageCandidate(e.messageType)
    ensures forall e :: e in r ==> exists x :: x in xs && Contributes(x) && e.messageType == ConsumedMessage(x)
  {
    if xs == [] then []
    else
      (if Contributes(xs[0]) then [ConsumerInterfaceType(ConsumedMessage(xs[0]), consumer)] else [])
      + ConsumerInterfaces(xs[1..], consumer)
  }

  /** The entry for `T` itself when `T` is `IConsumer<M>`. */
  function SelfEntry(t: TypeInfo): seq<ConsumerInterfaceType> {
    if Contributes(t) then [ConsumerInterfaceType(ConsumedMessage(t), t)] else []
  }

  /** `GetMessageTypes()`: the entry for `T` itself first, then one per implemented `IConsumer<M>`. */
  function GetMessageTypes(t: TypeInfo): (r: seq<ConsumerInterfaceType>)
    ensures forall e :: e in r ==> e.consumerType == t
    ensures forall e :: e in r ==> !e.messageType.isValueType && e.messageType.identity != SystemString
  {
    SelfEntry(t) + ConsumerInterfaces(t.interfaces, t)
  }

  /** The interface part keeps the `GetInterfaces` order: it distributes over concatenation. */
  lemma {:induction false} ConsumerInterfacesConcat(a: seq<TypeInfo>, b: seq<TypeInfo>, consumer: TypeInfo)
    ensures ConsumerInterfaces(a + b, consumer) == ConsumerInterfaces(a, consumer) + ConsumerInterfaces(b, consumer)
  {
    if a == [] {
      assert a + b == b;
    } else {
      assert (a + b)[0] == a[0];
      assert (a + b)[1..] == a[1..] + b;
      ConsumerInterfacesConcat(a[1..], b, consumer);
    }
  }

  /** An interface that is not a generic `IConsumer<>` (or consumes a value type or `string`) contributes nothing. */
  lemma NonConsumerInterfaceContributesNothing(a: seq<TypeInfo>, x: TypeInfo, b: seq<TypeInfo>, consumer: TypeInfo)
    requires !Contributes(x)
    ensures ConsumerInterfaces(a + [x] + b, consumer) == ConsumerInterfaces(a + b, consumer)
  {
    ConsumerInterfacesConcat(a + [x], b, consumer);
    ConsumerInterfacesConcat(a, [x], consumer);
    ConsumerInterfacesConcat(a, b, consumer);
    assert ConsumerInterfaces([x], consumer) == [] + ConsumerInterfaces([x][1..], consumer);
  }

  /** Each contributing interface yields exactly one entry, in place. */
  lemma ContributingInterfaceYieldsOneEntry(a: seq<TypeInfo>, x: TypeInfo, b: seq<TypeInfo>, consumer: TypeInfo)
    requires Contributes(x)
    ensures ConsumerInterfaces(a + [x] + b, consumer)
            == ConsumerInterfaces(a, consumer) + [ConsumerInterfaceType(ConsumedMessage(x), consumer)] + ConsumerInterfaces(b, consumer)
  {
    ConsumerInterfacesConcat(a + [x], b, consumer);
    ConsumerInterfacesConcat(a, [x], consumer);
    assert ConsumerInterfaces([x], consumer)
           == [ConsumerInterfaceType(ConsumedMessage(x), consumer)] + ConsumerInterfaces([x][1..], consumer);
  }

  /** The number of entries is the number of contributing interfaces, plus one when `T` is itself `IConsumer<M>`. */
  lemma {:induction false} EntryCount(t: TypeInfo)
    ensures |GetMessageTypes(t)| == |SelfEntry(t)| + |Filter(t.interfaces, Contributes)|
  {
    CountMatches(t.interfaces, t);
  }

  lemma {:induction false} CountMatches(xs: seq<TypeInfo>, consumer: TypeInfo)
    ensures |ConsumerInterfaces(xs, consumer)| == |Filter(xs, Contributes)|
  {
    if xs != [] {
      CountMatches(xs[1..], consumer);
    }
  }

  /** An entry is produced exactly for `T` itself or a contributing interface, and always names `T` as consumer. */
  lemma EntryMembership(t: TypeInfo, e: ConsumerInterfaceType)
    ensures e in GetMessageTypes(t) <==>
      e.consumerType == t
      && ((Contributes(t) && e.messageType == ConsumedMessage(t))
          || exists x :: x in t.interfaces && Contributes(x) && e.messageType == ConsumedMessage(x))
  {
    if e.consumerType == t && exists x :: x in t.interfaces && Contributes(x) && e.messageType == ConsumedMessage(x) {
      var x :| x in t.interfaces && Contributes(x) && e.messageType == ConsumedMessage(x);
      var i :| 0 <= i < |t.interfaces| && t.interfaces[i] == x;
      assert t.interfaces == t.interfaces[..i] + [x] + t.interfaces[i + 1..];
      ContributingInterfaceYieldsOneEntry(t.interfaces[..i], x, t.interfaces[i + 1..], t);
    }
  }
}
