/**
 * `InMemoryMessageConsumeTopology<TMessage>`: the in-memory transport's consume topology.
 * On top of the common consume topology it keeps a list of specifications, which `Bind`
 * appends to and `Apply` runs in order.
 */
module InMemoryTopology {
  import opened Common
  import opened TypeMetadata
  import opened ConsumeTopology

  /** `IInMemoryConsumeTopologySpecification`: the two kinds `Bind` creates. */
  datatype Specification =
    | InvalidSpecification(key: string, message: string)
    | ExchangeBindingSpecification(exchangeName: string)

  const NotBindable: string := "Is not a bindable message type"

  /** `IsBindableMessageType`: every message type except `JToken`. */
  predicate IsBindableMessageType(t: TypeInfo) {
    t.identity != JToken
  }

  /** The specification one `Bind` appends for message type `t`. */
  function BindSpecification(t: TypeInfo, formatter: EntityNameFormatter): (s: Specification)
    ensures s.InvalidSpecification? <==> !IsBindableMessageType(t)
    ensures s.InvalidSpecification? ==> s.key == t.name && s.message == NotBindable
    ensures s.ExchangeBindingSpecification? ==> s.exchangeName == formatter.entityName
  {
    if !IsBindableMessageType(t) then InvalidSpecification(t.name, NotBindable)
    else ExchangeBindingSpecification(formatter.entityName)
  }

  /** `IInMemoryConsumeTopologyBuilder`, by the specifications applied to it, in order. */
  class InMemoryConsumeTopologyBuilder {
    var applied: seq<Specification>

    constructor ()
      ensures applied == []
    {
      applied := [];
    }

    /** `specification.Apply(builder)`: what a specification does to the builder is not part of this model; the call is recorded. */
    method Receive(specification: Specification)
      modifies this
      ensures applied == old(applied) + [specification]
    {
      applied := applied + [specification];
    }
  }

  function ExchangeNames(specifications: seq<Specification>): (names: seq<string>)
    ensures |names| <= |specifications|
  {
    if specifications == [] then []
    else (if specifications[0].ExchangeBindingSpecification? then [specifications[0].exchangeName] else [])
         + ExchangeNames(specifications[1..])
  }

  lemma {:induction false} ExchangeNamesSnoc(specifications: seq<Specification>, s: Specification)
    ensures ExchangeNames(specifications + [s])
            == ExchangeNames(specifications) + (if s.ExchangeBindingSpecification? then [s.exchangeName] else [])
  {
    if specifications == [] {
      assert specifications + [s] == [s];
      assert [s][1..] == [];
    } else {
      assert (specifications + [s])[0] == specifications[0];
      assert (specifications + [s])[1..] == specifications[1..] + [s];
      ExchangeNamesSnoc(specifications[1..], s);
    }
  }

  /**
   * The topology of `TMessage`. `InMemoryMessageConsumeTopology<TMessage>` derives from
   * `MessageConsumeTopology<TMessage>`; the base part is the object in `common`.
   */
  class InMemoryMessageConsumeTopology {
    const common: MessageConsumeTopology
    var specifications: seq<Specification>

    constructor (messageType: TypeInfo, entityNameFormatter: EntityNameFormatter)
      ensures fresh(common) && common.messageType == messageType && common.entityNameFormatter == entityNameFormatter
      ensures common.conventions == [] && common.delegateConfigurations == [] && common.topologies == []
      ensures specifications == []
    {
      common := new MessageConsumeTopology(messageType, entityNameFormatter);
      specifications := [];
    }

    /** `GetMessageTopology<T>()`: this topology when `T` is `TMessage`, an ArgumentException naming `T` otherwise. */
    method GetMessageTopology(target: TypeInfo) returns (r: Result<InMemoryMessageConsumeTopology, ArgumentException>)
      ensures target == common.messageType ==> r == Ok(this)
      ensures target != common.messageType ==> r == Err(ArgumentException(InvalidMessageType(target.name)))
    {
      if target == common.messageType {
        return Ok(this);
      }
      return Err(ArgumentException(InvalidMessageType(target.name)));
    }

    /** `Apply(builder)`: every specification, in insertion order. */
    method Apply(builder: InMemoryConsumeTopologyBuilder)
      modifies builder
      ensures builder.applied == old(builder.applied) + specifications
    {
      var i := 0;
      while i < |specifications|
        invariant 0 <= i <= |specifications|
        invariant builder.applied == old(builder.applied) + specifications[..i]
      {
        builder.Receive(specifications[i]);
        assert specifications[..i + 1] == specifications[..i] + [specifications[i]];
        i := i + 1;
      }
      assert specifications[..i] == specifications;
    }

    /**
     * `Bind()`: for a message type that is not bindable, an invalid specification keyed by its
     * short name; otherwise an exchange binding named by the entity-name formatter.
     */
    method Bind()
      modifies this`specifications
      ensures specifications == old(specifications) + [BindSpecification(common.messageType, common.entityNameFormatter)]
      ensures ExchangeNames(specifications) == ExchangeNames(old(specifications))
              + (if IsBindableMessageType(common.messageType) then [common.entityNameFormatter.entityName] else [])
    {
      ExchangeNamesSnoc(specifications, BindSpecification(common.messageType, common.entityNameFormatter));
      if !IsBindableMessageType(common.messageType) {
        specifications := specifications + [InvalidSpecification(common.messageType.name, NotBindable)];
        return;
      }
      var exchangeName := common.entityNameFormatter.entityName;
      specifications := specifications + [ExchangeBindingSpecification(exchangeName)];
    }
  }
}
