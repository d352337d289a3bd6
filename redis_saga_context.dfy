/**
 * `RedisSagaConsumeContext<TSaga, TMessage>`: the consume context a Redis-backed saga sees.
 * It carries the saga instance, reports the saga's correlation id, and completes the saga by
 * deleting its entry from the typed Redis database.
 */
module RedisSaga {
  import opened Common

  /** An `IVersionedSaga`: correlation id, version, and the business state. */
  datatype VersionedSaga = VersionedSaga(correlationId: Guid, version: int, state: int)

  /** `ITypedDatabase<TSaga>`: sagas stored under their correlation id. */
  class TypedDatabase {
    var entries: map<Guid, VersionedSaga>

    constructor (entries: map<Guid, VersionedSaga>)
      ensures this.entries == entries
    {
      this.entries := entries;
    }

    /** `Delete(id)`: the entry for `id` is gone, all others are untouched; deleting a missing key is a no-op. */
    method Delete(id: Guid)
      modifies this
      ensures entries == old(entries) - {id}
    {
      entries := entries - {id};
    }
  }

  datatype ContextException = ContextException(message: string)

  /** The message that `PopContext` raises when the context is not a `SagaConsumeContext<TSaga, T>`. */
  function CastFailure(messageShortName: string, targetShortName: string): string {
    "The ConsumeContext<" + messageShortName + "> could not be cast to " + targetShortName
  }

  class RedisSagaConsumeContext {
    const sagas: TypedDatabase
    /** `TypeMetadataCache<TMessage>.ShortName`. */
    const messageType: string
    /** The short names of the `T` for which this context is a `SagaConsumeContext<TSaga, T>`. */
    const compatibleTypes: set<string>
    /** The correlation id that the wrapped message context carries; the saga's id overrides it. */
    const messageCorrelationId: Option<Guid>
    /** `Saga`: a get-only property, fixed at construction. */
    const saga: VersionedSaga
    /** `IsCompleted`: its setter is private, and only `SetCompleted` assigns it. */
    var isCompleted: bool

    /** `supertypes`: the message types other than `TMessage` itself that the context is compatible with. */
    constructor (sagas: TypedDatabase, messageType: string, supertypes: set<string>,
                 messageCorrelationId: Option<Guid>, instance: VersionedSaga)
      ensures this.sagas == sagas && this.messageType == messageType && compatibleTypes == {messageType} + supertypes
      ensures this.messageCorrelationId == messageCorrelationId
      ensures saga == instance && !isCompleted
    {
      this.sagas := sagas;
      this.messageType := messageType;
      compatibleTypes := {messageType} + supertypes;
      this.messageCorrelationId := messageCorrelationId;
      saga := instance;
      isCompleted := false;
    }

    /** `MessageContext.CorrelationId`, overridden by the saga's id. */
    function CorrelationId(): (id: Option<Guid>)
      ensures id.Some? && id.value == saga.correlationId
    {
      Some(saga.correlationId)
    }

    /** `PopContext<T>()`: this very context when it is compatible with `T`, a ContextException otherwise. */
    method PopContext(target: string) returns (r: Result<RedisSagaConsumeContext, ContextException>)
      ensures target in compatibleTypes ==> r == Ok(this)
      ensures target !in compatibleTypes ==> r == Err(ContextException(CastFailure(messageType, target)))
    {
      if target in compatibleTypes {
        return Ok(this);
      }
      return Err(ContextException(CastFailure(messageType, target)));
    }

    /** `SetCompleted()`: delete the saga's entry, then mark the context completed. */
    method SetCompleted()
      modifies this, sagas
      ensures sagas.entries == old(sagas.entries) - {saga.correlationId}
      ensures isCompleted
    {
      sagas.Delete(saga.correlationId);
      isCompleted := true;
    }
  }

  /** The correlation id a context reports depends on its saga alone, never on the message. */
  lemma CorrelationIdIgnoresMessage(a: RedisSagaConsumeContext, b: RedisSagaConsumeContext)
    requires a.saga.correlationId == b.saga.correlationId
    ensures a.CorrelationId() == b.CorrelationId()
  {
  }

  /**
   * Whatever the saga, the message's own correlation id and the compatible supertypes, a context
   * pops to its own message type and to each supertype, and to nothing else.
   */
  method PopToOwnMessageType(sagas: TypedDatabase, messageType: string, supertypes: set<string>,
                             messageCorrelationId: Option<Guid>, instance: VersionedSaga, super: string, other: string)
    returns (own: bool, toSuper: bool, foreign: bool)
    requires super in supertypes
    requires other != messageType && other !in supertypes
    ensures own && toSuper && !foreign
  {
    var c := new RedisSagaConsumeContext(sagas, messageType, supertypes, messageCorrelationId, instance);
    var r := c.PopContext(messageType);
    own := r == Ok(c);
    r := c.PopContext(super);
    toSuper := r == Ok(c);
    r := c.PopContext(other);
    foreign := r.Ok?;
  }

  /**
   * Completing twice leaves the state completing once leaves: the key is absent, the context
   * completed, and every other entry as it was.
   */
  method SetCompletedTwice(c: RedisSagaConsumeContext)
    modifies c, c.sagas
    ensures c.sagas.entries == old(c.sagas.entries) - {c.saga.correlationId}
    ensures c.isCompleted
    ensures forall id :: id in old(c.sagas.entries) && id != c.saga.correlationId ==>
      id in c.sagas.entries && c.sagas.entries[id] == old(c.sagas.entries)[id]
  {
    c.SetCompleted();
    ghost var once := c.sagas.entries;
    c.SetCompleted();
    assert c.sagas.entries == once;
  }

  /**
   * For any context: it starts not completed, `SetCompleted` makes it completed and removes
   * only the saga's entry, and a later `PopContext` leaves it completed.
   */
  method CompletionIsMonotone(sagas: TypedDatabase, messageType: string, supertypes: set<string>,
                              messageCorrelationId: Option<Guid>, instance: VersionedSaga, target: string)
    returns (completedAtStart: bool, completedAtEnd: bool)
    modifies sagas
    ensures !completedAtStart && completedAtEnd
    ensures sagas.entries == old(sagas.entries) - {instance.correlationId}
  {
    var c := new RedisSagaConsumeContext(sagas, messageType, supertypes, messageCorrelationId, instance);
    completedAtStart := c.isCompleted;
    c.SetCompleted();
    var popped := c.PopContext(target);
    completedAtEnd := c.isCompleted;
  }
}
