/**
 * `MessageConsumeTopology<TMessage>`: the consume topology of one message type. It keeps
 * three lists: delegate configurations, conventions and explicit topologies; `Apply` runs
 * them against a pipe builder in that order.
 */
module ConsumeTopology {
  import opened Common
  import opened TypeMetadata

  /** An `IMessageConsumeTopology<TMessage>`, by identity: its `Apply` is code this model does not see. */
  type TopologyId = nat

  /**
   * An `IMessageConsumeTopologyConvention<TMessage>`: its runtime type (what `as TConvention`
   * tests) and the topology its `TryGetMessageConsumeTopology` reports, if any.
   */
  datatype Convention = Convention(typeName: string, settings: int, offered: Option<TopologyId>)

  /** `IMessageEntityNameFormatter<TMessage>`, by the name its `FormatEntityName()` returns. */
  datatype EntityNameFormatter = EntityNameFormatter(entityName: string)

  datatype ArgumentException = ArgumentException(message: string)

  function InvalidMessageType(targetShortName: string): string {
    "The expected message type was invalid: " + targetShortName
  }

  /** One call of a topology's `Apply`: which topology, against the delegated builder or the builder itself. */
  datatype Application = Application(topology: TopologyId, delegated: bool)

  /**
   * `ITopologyPipeBuilder<ConsumeContext<TMessage>>`, by the applications it receives, in
   * order. The delegated builder that `CreateDelegatedBuilder()` returns records into the
   * same log, marked `delegated`.
   */
  class TopologyPipeBuilder {
    var applied: seq<Application>

    constructor ()
      ensures applied == []
    {
      applied := [];
    }

    method Receive(topology: TopologyId, delegated: bool)
      modifies this
      ensures applied == old(applied) + [Application(topology, delegated)]
    {
      applied := applied + [Application(topology, delegated)];
    }
  }

  // ---------------------------------------------------------------------------------------
  // What `Apply` does, as a function of the three lists
  // ---------------------------------------------------------------------------------------

  /** Each topology applied once, in order, to the same builder. */
  function Against(topologies: seq<TopologyId>, delegated: bool): (r: seq<Application>)
    ensures |r| == |topologies|
  {
    if topologies == [] then [] else [Application(topologies[0], delegated)] + Against(topologies[1..], delegated)
  }

  lemma {:induction false} AgainstAt(topologies: seq<TopologyId>, delegated: bool)
    ensures forall i :: 0 <= i < |topologies| ==> Against(topologies, delegated)[i] == Application(topologies[i], delegated)
  {
    if topologies != [] {
      AgainstAt(topologies[1..], delegated);
    }
  }

  predicate Offers(c: Convention) {
    c.offered.Some?
  }

  /** The topologies the conventions report, in convention order; a convention that reports none is skipped. */
  function Offered(conventions: seq<Convention>): seq<TopologyId> {
    if conventions == [] then []
    else (if conventions[0].offered.Some? then [conventions[0].offered.value] else []) + Offered(conventions[1..])
  }

  /** The applications `Apply` makes: delegates against the delegated builder, then the reported convention topologies, then the explicit ones. */
  function ApplyPlan(delegates: seq<TopologyId>, conventions: seq<Convention>, topologies: seq<TopologyId>): seq<Application> {
    Against(delegates, true) + Against(Offered(conventions), false) + Against(topologies, false)
  }

  lemma {:induction false} OfferedConcat(a: seq<Convention>, b: seq<Convention>)
    ensures Offered(a + b) == Offered(a) + Offered(b)
  {
    if a == [] {
      assert a + b == b;
    } else {
      assert (a + b)[0] == a[0];
      assert (a + b)[1..] == a[1..] + b;
      OfferedConcat(a[1..], b);
    }
  }

  /** One topology per convention that reports one. */
  lemma {:induction false} OfferedCount(conventions: seq<Convention>)
    ensures |Offered(conventions)| == |Filter(conventions, Offers)|
  {
    if conventions != [] {
      OfferedCount(conventions[1..]);
    }
  }

  /** A convention that reports no topology contributes nothing to the builder. */
  lemma SilentConventionContributesNothing(a: seq<Convention>, c: Convention, b: seq<Convention>)
    requires c.offered.None?
    ensures Offered(a + [c] + b) == Offered(a + b)
  {
    OfferedConcat(a + [c], b);
    OfferedConcat(a, [c]);
    OfferedConcat(a, b);
    assert Offered([c]) == [] + Offered([c][1..]);
  }

  /**
   * The order of `Apply`: first every delegate, against the delegated builder; then one
   * application per convention that reports a topology; then every explicit topology, in
   * insertion order, against the builder itself.
   */
  lemma ApplyOrder(delegates: seq<TopologyId>, conventions: seq<Convention>, topologies: seq<TopologyId>)
    ensures var plan := ApplyPlan(delegates, conventions, topologies);
      var d, k := |delegates|, |Filter(conventions, Offers)|;
      |plan| == d + k + |topologies|
      && (forall i :: 0 <= i < d ==> plan[i] == Application(delegates[i], true))
      && (forall i :: 0 <= i < k ==> plan[d + i] == Application(Offered(conventions)[i], false))
      && (forall i :: 0 <= i < |topologies| ==> plan[d + k + i] == Application(topologies[i], false))
  {
    OfferedCount(conventions);
    AgainstAt(delegates, true);
    AgainstAt(Offered(conventions), false);
    AgainstAt(topologies, false);
    var plan := ApplyPlan(delegates, conventions, topologies);
    var d, k := |delegates|, |Filter(conventions, Offers)|;
    var first, second := Against(delegates, true), Against(Offered(conventions), false);
    assert plan == first + second + Against(topologies, false);
    forall i | 0 <= i < |topologies|
      ensures plan[d + k + i] == Application(topologies[i], false)
    {
      assert plan[d + k + i] == Against(topologies, false)[i];
    }
    forall i | 0 <= i < k
      ensures plan[d + i] == Application(Offered(conventions)[i], false)
    {
      assert plan[d + i] == second[i];
    }
  }

  // ---------------------------------------------------------------------------------------
  // Finding the convention to update
  // ---------------------------------------------------------------------------------------

  /** The index of the first convention that `as TConvention` accepts, or the length when none does. */
  function FirstOfType(conventions: seq<Convention>, isA: Convention -> bool): (k: nat)
    ensures k <= |conventions|
    ensures forall j :: 0 <= j < k ==> !isA(conventions[j])
    ensures k < |conventions| ==> isA(conventions[k])
  {
    if conventions == [] then 0
    else if isA(conventions[0]) then 0
    else 1 + FirstOfType(conventions[1..], isA)
  }

  /** The list after replacing the first convention of the type by its update; untouched when none has the type. */
  function Updated(conventions: seq<Convention>, isA: Convention -> bool, update: Convention -> Convention): seq<Convention> {
    var k := FirstOfType(conventions, isA);
    if k < |conventions| then conventions[k := update(conventions[k])] else conventions
  }

  /** Only the first match is replaced, in place: the length and every other element stay as they were. */
  lemma UpdatedReplacesOnlyFirstMatch(conventions: seq<Convention>, isA: Convention -> bool, update: Convention -> Convention)
    ensures var r := Updated(conventions, isA, update);
      |r| == |conventions|
      && ((forall j :: 0 <= j < |conventions| ==> !isA(conventions[j])) ==> r == conventions)
      && (forall k :: 0 <= k < |conventions| && isA(conventions[k]) && (forall j :: 0 <= j < k ==> !isA(conventions[j])) ==>
            r[k] == update(conventions[k]) && forall j :: 0 <= j < |r| && j != k ==> r[j] == conventions[j])
  {
  }

  class MessageConsumeTopology {
    /** `TMessage`. */
    const messageType: TypeInfo
    const entityNameFormatter: EntityNameFormatter
    var conventions: seq<Convention>
    var delegateConfigurations: seq<TopologyId>
    var topologies: seq<TopologyId>

    constructor (messageType: TypeInfo, entityNameFormatter: EntityNameFormatter)
      ensures this.messageType == messageType && this.entityNameFormatter == entityNameFormatter
      ensures conventions == [] && delegateConfigurations == [] && topologies == []
    {
      this.messageType := messageType;
      this.entityNameFormatter := entityNameFormatter;
      conventions := [];
      delegateConfigurations := [];
      topologies := [];
    }

    /** `GetMessageTopology<T>()`: this topology when `T` is `TMessage`, an ArgumentException naming `T` otherwise. */
    method GetMessageTopology(target: TypeInfo) returns (r: Result<MessageConsumeTopology, ArgumentException>)
      ensures target == messageType ==> r == Ok(this)
      ensures target != messageType ==> r == Err(ArgumentException(InvalidMessageType(target.name)))
    {
      if target == messageType {
        return Ok(this);
      }
      return Err(ArgumentException(InvalidMessageType(target.name)));
    }

    method Add(topology: TopologyId)
      modifies this`topologies
      ensures topologies == old(topologies) + [topology]
    {
      topologies := topologies + [topology];
    }

    method AddDelegate(configuration: TopologyId)
      modifies this`delegateConfigurations
      ensures delegateConfigurations == old(delegateConfigurations) + [configuration]
    {
      delegateConfigurations := delegateConfigurations + [configuration];
    }

    method AddConvention(convention: Convention)
      modifies this`conventions
      ensures conventions == old(conventions) + [convention]
    {
      conventions := conventions + [convention];
    }

    /** `Apply(builder)`: the delegates, then the conventions that report a topology, then the explicit topologies. */
    method Apply(builder: TopologyPipeBuilder)
      modifies builder
      ensures builder.applied == old(builder.applied) + ApplyPlan(delegateConfigurations, conventions, topologies)
    {
      ghost var start := builder.applied;
      ghost var first, second, third :=
        Against(delegateConfigurations, true), Against(Offered(conventions), false), Against(topologies, false);
      ApplyEach(builder, delegateConfigurations, true);
      ApplyConventions(builder, conventions);
      ApplyEach(builder, topologies, false);
      assert start + first + second + third == start + (first + second + third);
    }

    /** `UpdateConvention<TConvention>(update)`: replace the first convention of the type by its update, if there is one. */
    method UpdateConvention(isA: Convention -> bool, update: Convention -> Convention)
      modifies this`conventions
      ensures conventions == Updated(old(conventions), isA, update)
    {
      var i := 0;
      while i < |conventions|
        invariant 0 <= i <= |conventions|
        invariant conventions == old(conventions)
        invariant forall j :: 0 <= j < i ==> !isA(conventions[j])
      {
        if isA(conventions[i]) {
          conventions := conventions[i := update(conventions[i])];
          return;
        }
        i := i + 1;
      }
    }

    /**
     * `AddOrUpdateConvention<TConvention>(add, update)`: update the first convention of the
     * type as `UpdateConvention` does; when none has it, append what `add()` returns unless
     * that is null. `added` is that return value; `add` is only called when nothing matched.
     */
    method AddOrUpdateConvention(isA: Convention -> bool, added: Option<Convention>, update: Convention -> Convention)
      modifies this`conventions
      ensures FirstOfType(old(conventions), isA) < |old(conventions)| ==> conventions == Updated(old(conventions), isA, update)
      ensures FirstOfType(old(conventions), isA) == |old(conventions)| ==>
        conventions == old(conventions) + (if added.Some? then [added.value] else [])
    {
      var i := 0;
      while i < |conventions|
        invariant 0 <= i <= |conventions|
        invariant conventions == old(conventions)
        invariant forall j :: 0 <= j < i ==> !isA(conventions[j])
      {
        if isA(conventions[i]) {
          conventions := conventions[i := update(conventions[i])];
          return;
        }
        i := i + 1;
      }
      if added.Some? {
        conventions := conventions + [added.value];
      }
    }
  }

  /** A `foreach` over topologies, each applied to the builder. */
  method ApplyEach(builder: TopologyPipeBuilder, topologies: seq<TopologyId>, delegated: bool)
    modifies builder
    ensures builder.applied == old(builder.applied) + Against(topologies, delegated)
  {
    var i := 0;
    while i < |topologies|
      invariant 0 <= i <= |topologies|
      invariant builder.applied == old(builder.applied) + Against(topologies[..i], delegated)
    {
      builder.Receive(topologies[i], delegated);
      assert topologies[..i + 1] == topologies[..i] + [topologies[i]];
      AgainstSnoc(topologies[..i], topologies[i], delegated);
      i := i + 1;
    }
    assert topologies[..i] == topologies;
  }

  /** The `foreach` over conventions: apply the topology a convention reports, skip one that reports none. */
  method ApplyConventions(builder: TopologyPipeBuilder, conventions: seq<Convention>)
    modifies builder
    ensures builder.applied == old(builder.applied) + Against(Offered(conventions), false)
  {
    var i := 0;
    while i < |conventions|
      invariant 0 <= i <= |conventions|
      invariant builder.applied == old(builder.applied) + Against(Offered(conventions[..i]), false)
    {
      var convention := conventions[i];
      assert conventions[..i + 1] == conventions[..i] + [convention];
      OfferedConcat(conventions[..i], [convention]);
      assert Offered([convention]) == (if convention.offered.Some? then [convention.offered.value] else []) + Offered([]) by {
        assert [convention][1..] == [];
      }
      ghost var before := Offered(conventions[..i]);
      if convention.offered.Some? {
        builder.Receive(convention.offered.value, false);
        assert Offered(conventions[..i + 1]) == before + [convention.offered.value];
        AgainstSnoc(before, convention.offered.value, false);
      } else {
        assert Offered(conventions[..i + 1]) == before + [];
        assert before + [] == before;
      }
      i := i + 1;
    }
    assert conventions[..i] == conventions;
  }

  lemma {:induction false} AgainstSnoc(topologies: seq<TopologyId>, t: TopologyId, delegated: bool)
    ensures Against(topologies + [t], delegated) == Against(topologies, delegated) + [Application(t, delegated)]
  {
    if topologies == [] {
      assert topologies + [t] == [t];
    } else {
      assert (topologies + [t])[1..] == topologies[1..] + [t];
      AgainstSnoc(topologies[1..], t, delegated);
    }
  }

  /** `new MessageConsumeTopology(entityNameFormatter)`: an ArgumentNullException when the formatter is null. */
  method Create(messageType: TypeInfo, formatter: Option<EntityNameFormatter>)
    returns (r: Result<MessageConsumeTopology, string>)
    ensures formatter.None? <==> r.Err?
    ensures r.Err? ==> r.error == "entityNameFormatter"
    ensures r.Ok? ==> fresh(r.value) && r.value.messageType == messageType && r.value.entityNameFormatter == formatter.value
                      && r.value.conventions == [] && r.value.delegateConfigurations == [] && r.value.topologies == []
  {
    if formatter.None? {
      return Err("entityNameFormatter");
    }
    var topology := new MessageConsumeTopology(messageType, formatter.value);
    return Ok(topology);
  }

  /** Adding then updating: a convention appended by `AddOrUpdateConvention` is the one a later update finds, when no earlier one has its type. */
  method AddThenUpdate(topology: MessageConsumeTopology, isA: Convention -> bool, c: Convention, update: Convention -> Convention)
    requires isA(c)
    requires forall j :: 0 <= j < |topology.conventions| ==> !isA(topology.conventions[j])
    modifies topology
    ensures topology.conventions == old(topology.conventions) + [update(c)]
  {
    topology.AddOrUpdateConvention(isA, Some(c), update);
    ghost var mid := topology.conventions;
    assert mid == old(topology.conventions) + [c];
    assert mid[|old(topology.conventions)|] == c;
    assert forall j :: 0 <= j < |old(topology.conventions)| ==> mid[j] == old(topology.conventions)[j];
    assert FirstOfType(mid, isA) == |old(topology.conventions)|;
    topology.UpdateConvention(isA, update);
    assert topology.conventions == mid[|old(topology.conventions)| := update(c)];
  }
}
