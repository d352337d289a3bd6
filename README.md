# MassTransit core, modelled in Dafny

This project models a part of MassTransit, a .NET service bus. It covers four areas, one module each:

- **Saga persistence.** `EntityFrameworkSagaRepository` runs a saga's message handler in one database transaction. It covers `Send`, which finds the saga by correlation id, and `SendQuery`, which finds sagas by a query. Both work with `PreInsertSagaInstance`, `SendToInstance`, `MissingPipe` and the deadlock test. The Redis saga consume context (`SetCompleted`, `PopContext`, and the `CorrelationId` override) is in the same area.
- **Message-type resolution.** This is `TypeMetadataCache<T>`: which types are valid message types, the ordered message-type list and its URNs, saga-interface detection, temporary types, and the per-type memo table. It also covers `AsyncConsumerMessageConvention.GetMessageTypes`, which finds the `IConsumer<M>` message types of a consumer.
- **The header-driven consume context.** `StaticConsumeContext` is the consume context of a message read by the binary serializer. The model covers:
  - first-match header lookup and the typed header conversions;
  - the supported-types list built from the `;`-separated polymorphic header;
  - `HasMessageType` and `TryGetMessage` with their shared positive/negative cache;
  - the memoised header properties.
- **Topology.** This area covers:
  - the list operations of `MessageConsumeTopology` and the order in which its `Apply` runs;
  - the in-memory transport's `Bind` and `Apply`;
  - the Azure Service Bus error (`_error`) and dead-letter (`_skipped`) queue paths and the queue description built from a send address;
  - `RedeliveryRetryPipeSpecification`: validation, the last-set policy factory, idempotent wrapping in `Factory`, and the one filter `Apply` adds.

Files:

- `common.dfy`: `Option`, `Result`, `Guid` and a sequence filter.
- `type_metadata.dfy`: `TypeMetadataCache`.
- `consumer_convention.dfy`: `AsyncConsumerMessageConvention`.
- `saga_repository.dfy`: the Entity Framework repository.
- `redis_saga_context.dfy`: the Redis consume context.
- `static_consume_context.dfy`: `StaticConsumeContext`.
- `consume_topology.dfy`: `MessageConsumeTopology`.
- `in_memory_topology.dfy`: the in-memory consume topology.
- `service_bus_topology.dfy`: the Service Bus send topology.
- `redelivery_retry.dfy`: the redelivery retry specification.

Code that changes state stays imperative, in the form the C# has:

- Classes hold the mutated fields: the `DbContext` and its transaction, the Redis store, the memo dictionaries, the topology lists, the queue descriptions and the retry specification.
- Methods have `modifies` clauses, and the C# loops are `while` loops with invariants.
- Each such method is proved equal to a pure specification function of the old state: for example, `Send` to `SendRun` and `SendQuery` to `SendQueryRun`. The lemmas about those functions carry the properties.

## Model

| member | source | states |
|---|---|---|
| EntityFrameworkSaga.Save | src/Persistence/MassTransit.EntityFrameworkIntegration/Saga/EntityFrameworkSagaRepository.cs:127 | `SaveChanges` succeeds exactly when the database reports no failure and no tracked insert collides with a row. Then the tracked inserts join the transaction's rows and nothing stays tracked. A failed save changes nothing, so its inserts stay tracked for the next save. The committed rows are never touched. |
| EntityFrameworkSaga.PreInsert | src/Persistence/MassTransit.EntityFrameworkIntegration/Saga/EntityFrameworkSagaRepository.cs:325-347 | A pre-insert reports `true` if and only if an instance was supplied, the save reported no failure, and neither its id nor another tracked insert collides with a row. Then the instance is one of the transaction's rows. A `false` result leaves the rows unchanged and keeps a supplied instance tracked for insertion. |
| EntityFrameworkSaga.SendToInstance | src/Persistence/MassTransit.EntityFrameworkIntegration/Saga/EntityFrameworkSagaRepository.cs:349-370 | Whatever `SendToInstance` throws is a SagaException. |
| EntityFrameworkSaga.QueryRethrown | src/Persistence/MassTransit.EntityFrameworkIntegration/Saga/EntityFrameworkSagaRepository.cs:245-313 | What `SendQuery`'s catch blocks rethrow is always a concurrency, DbUpdate or Saga exception. |
| EntityFrameworkSaga.FinishTryCloses | src/Persistence/MassTransit.EntityFrameworkIntegration/Saga/EntityFrameworkSagaRepository.cs:127-184 | The end of `try` succeeds if and only if the block succeeded and the final save and the commit report nothing. On success it adds exactly one `Committed` and publishes the rows with the tracked inserts. On failure it adds one `RolledBack`, or nothing for a deadlock, and the committed rows stay as they were. |
| EntityFrameworkSaga.SendWithoutCorrelationId | src/Persistence/MassTransit.EntityFrameworkIntegration/Saga/EntityFrameworkSagaRepository.cs:80-81 | Without a correlation id, `Send` throws a SagaException. It opens no transaction, records no event and leaves the store unchanged. |
| EntityFrameworkSaga.ClosingIsInvisible | src/Persistence/MassTransit.EntityFrameworkIntegration/Saga/EntityFrameworkSagaRepository.cs:129-184 | The closing events are only commits and rollbacks, so a filter that ignores those sees none of them. |
| EntityFrameworkSaga.SendEventsFiltered | src/Persistence/MassTransit.EntityFrameworkIntegration/Saga/EntityFrameworkSagaRepository.cs:88-125 | Through such a filter, `Send`'s events are its lock, then its lookup (only when no instance was supplied), then its one policy call. |
| EntityFrameworkSaga.SendCallsExactlyOnePolicyMethod | src/Persistence/MassTransit.EntityFrameworkIntegration/Saga/EntityFrameworkSagaRepository.cs:106-125 | Once past the lock, `Send` makes exactly one policy call. It is `Existing` exactly when an instance was supplied or found. |
| EntityFrameworkSaga.PreInsertShortcut | src/Persistence/MassTransit.EntityFrameworkIntegration/Saga/EntityFrameworkSagaRepository.cs:99-124 | When the policy supplies an instance, `Send` never looks the row up. It calls `Existing` with exactly that instance, whether the insert succeeded or not. |
| EntityFrameworkSaga.FailedPreInsertIsSwallowed | src/Persistence/MassTransit.EntityFrameworkIntegration/Saga/EntityFrameworkSagaRepository.cs:325-347 | A pre-insert whose save fails returns `false`. No exception escapes, the rows are as before, and the instance stays tracked as an insert. |
| EntityFrameworkSaga.MissingPipeInsertsUnlessCompleted | src/Persistence/MassTransit.EntityFrameworkIntegration/Saga/EntityFrameworkSagaRepository.cs:395-412 | `MissingPipe` adds the new saga, in the handler's state, if and only if the handler did not mark it completed. |
| EntityFrameworkSaga.DispatchKeepsCommitted | src/Persistence/MassTransit.EntityFrameworkIntegration/Saga/EntityFrameworkSagaRepository.cs:96-127 | Nothing before the commit changes the committed rows. |
| EntityFrameworkSaga.SendCommitsOnlyOnSuccess | src/Persistence/MassTransit.EntityFrameworkIntegration/Saga/EntityFrameworkSagaRepository.cs:127-184 | `Send` commits if and only if it succeeds, and only then do the committed rows change. It succeeds only when neither the final `SaveChanges` nor the commit failed. The transaction is closed either way. |
| EntityFrameworkSaga.SendRethrowsUnchanged | src/Persistence/MassTransit.EntityFrameworkIntegration/Saga/EntityFrameworkSagaRepository.cs:131-184 | A failure inside `Send`'s `try` is rethrown unchanged. It is rolled back explicitly unless it is a deadlock (SQL error 1205). |
| EntityFrameworkSaga.SendLockFailurePropagates | src/Persistence/MassTransit.EntityFrameworkIntegration/Saga/EntityFrameworkSagaRepository.cs:88-94 | A failing lock statement escapes `Send` with nothing committed and no explicit rollback event. |
| EntityFrameworkSaga.SendLocksOnlyWhenPessimistic | src/Persistence/MassTransit.EntityFrameworkIntegration/Saga/EntityFrameworkSagaRepository.cs:88-94 | `Send` takes the row lock only in pessimistic mode, exactly once, for the message's correlation id. |
| EntityFrameworkSaga.SaveKeepsKeyed | src/Persistence/MassTransit.EntityFrameworkIntegration/Saga/EntityFrameworkSagaRepository.cs:127 | Saving keeps every row keyed by its own correlation id. |
| EntityFrameworkSaga.DispatchKeepsKeyed | src/Persistence/MassTransit.EntityFrameworkIntegration/Saga/EntityFrameworkSagaRepository.cs:96-125 | The pre-insert, lookup and policy call keep every row keyed by its own correlation id. |
| EntityFrameworkSaga.SendKeepsRowsKeyed | src/Persistence/MassTransit.EntityFrameworkIntegration/Saga/EntityFrameworkSagaRepository.cs:77-186 | After `Send`, every row is still keyed by its own correlation id, so there is at most one instance per id. |
| EntityFrameworkSaga.NewSagaIsStored | src/Persistence/MassTransit.EntityFrameworkIntegration/Saga/EntityFrameworkSagaRepository.cs:104-129 | Take any message for an id with no row, where the database reports no failure. The policy supplies no instance and creates one for that id, and the handler does not complete it. Then `Send` commits exactly that one new row. |
| EntityFrameworkSaga.CompletedNewSagaIsNotStored | src/Persistence/MassTransit.EntityFrameworkIntegration/Saga/EntityFrameworkSagaRepository.cs:395-412 | Under the same conditions, a handler that completes the new saga leaves the committed rows unchanged. |
| EntityFrameworkSaga.CompletedExistingSagaIsDeleted | src/Persistence/MassTransit.EntityFrameworkIntegration/Saga/EntityFrameworkSagaRepository.cs:114-129 | Take any policy that supplies no instance and a database that reports no failure. A stored saga whose handler completes it is deleted on commit, and every other row is kept. |
| EntityFrameworkSaga.QueryLoopStopsAtFailure | src/Persistence/MassTransit.EntityFrameworkIntegration/Saga/EntityFrameworkSagaRepository.cs:208-231 | Once an iteration of `SendQuery`'s loop fails, the ids after it are not processed. |
| EntityFrameworkSaga.LockEvents | src/Persistence/MassTransit.EntityFrameworkIntegration/Saga/EntityFrameworkSagaRepository.cs:210-218 | One lock event per id, in query order. |
| EntityFrameworkSaga.LockEventsSnoc | src/Persistence/MassTransit.EntityFrameworkIntegration/Saga/EntityFrameworkSagaRepository.cs:208-218 | One more id adds its lock at the end. |
| EntityFrameworkSaga.IterationEventsContents | src/Persistence/MassTransit.EntityFrameworkIntegration/Saga/EntityFrameworkSagaRepository.cs:210-229 | One iteration locks its id (only when pessimistic) and looks it up. It calls `Existing` exactly when the row was found. |
| EntityFrameworkSaga.QueryStepAccounts | src/Persistence/MassTransit.EntityFrameworkIntegration/Saga/EntityFrameworkSagaRepository.cs:220-229 | A successful iteration accounts for its id once: either it is appended to the missing list, or it is handed to `Existing`. |
| EntityFrameworkSaga.QueryLoopAccounts | src/Persistence/MassTransit.EntityFrameworkIntegration/Saga/EntityFrameworkSagaRepository.cs:204-231 | If no iteration fails, each id is either missing or handed to `Existing`, and the ids are processed in query order. |
| EntityFrameworkSaga.PolicyCallsSplit | src/Persistence/MassTransit.EntityFrameworkIntegration/Saga/EntityFrameworkSagaRepository.cs:222-239 | When there is no `Missing` call, the policy calls are exactly the `Existing` calls. |
| EntityFrameworkSaga.QueryCallsMissingIffAllMissing | src/Persistence/MassTransit.EntityFrameworkIntegration/Saga/EntityFrameworkSagaRepository.cs:195-239 | A `SendQuery` whose loop succeeds calls `Missing` exactly once if and only if every id was missing, including when the query matched nothing. Otherwise it does not call `Missing`. |
| EntityFrameworkSaga.QueryLocksEachIdInOrder | src/Persistence/MassTransit.EntityFrameworkIntegration/Saga/EntityFrameworkSagaRepository.cs:208-218 | In pessimistic mode, a successful loop locks each id once, in query order. |
| EntityFrameworkSaga.QueryThrowsOnlyClassifiedFailures | src/Persistence/MassTransit.EntityFrameworkIntegration/Saga/EntityFrameworkSagaRepository.cs:245-313 | `SendQuery` only ever throws DbUpdate, concurrency or Saga exceptions. |
| EntityFrameworkSaga.QueryLoopKeepsCommitted | src/Persistence/MassTransit.EntityFrameworkIntegration/Saga/EntityFrameworkSagaRepository.cs:204-231 | The `foreach` of `SendQuery` never changes the committed rows. |
| EntityFrameworkSaga.QueryWrapsMissingFailure | src/Persistence/MassTransit.EntityFrameworkIntegration/Saga/EntityFrameworkSagaRepository.cs:233-313 | In any `SendQuery` that reaches `Missing` (every id missing, or none matched), an unclassified failure of `Missing` is rolled back and rethrown as a SagaException carrying `Guid.Empty`. The events end with the `Missing` call and a rollback, and the committed rows are unchanged. |
| EntityFrameworkSaga.SendToInstanceWrapping | src/Persistence/MassTransit.EntityFrameworkIntegration/Saga/EntityFrameworkSagaRepository.cs:362-369 | `SendToInstance` passes a SagaException through unchanged. It wraps any other failure with the instance's correlation id. |
| EntityFrameworkSaga.PreInsertConflictSkipsStoredRow | src/Persistence/MassTransit.EntityFrameworkIntegration/Saga/EntityFrameworkSagaRepository.cs:96-124 | As written: when the supplied instance loses to a stored row, `Existing` still receives the supplied instance, not the stored saga. |
| EntityFrameworkSaga.PreInsertConflictKeepsStoredRow | src/Persistence/MassTransit.EntityFrameworkIntegration/Saga/EntityFrameworkSagaRepository.cs:96-129 | As written, what follows on that path: the committed rows are unchanged in every case. If the handler neither fails nor completes, the failed insert is retried by the final save. `Send` then throws, and with no other reported failure it throws the duplicate-key `DbUpdateException`. |
| EntityFrameworkSaga.FailedPreInsertFallsBackToLookup | src/Persistence/MassTransit.EntityFrameworkIntegration/Saga/EntityFrameworkSagaRepository.cs:96-124 | Corrected: the supplied instance is used only when its insert succeeded. Otherwise the failed insert is detached and the row is looked up. `Existing` receives the stored saga, and the handler's change to it is committed when nothing else fails. |
| EntityFrameworkSaga.SagaDbContext.constructor | src/Persistence/MassTransit.EntityFrameworkIntegration/Saga/EntityFrameworkSagaRepository.cs:85 | A fresh context sees the stored rows, has nothing pending and has no transaction. |
| EntityFrameworkSaga.SagaDbContext.BeginTransaction | src/Persistence/MassTransit.EntityFrameworkIntegration/Saga/EntityFrameworkSagaRepository.cs:86 | Opens a transaction over a working copy of the committed rows. |
| EntityFrameworkSaga.SagaDbContext.SingleOrDefault | src/Persistence/MassTransit.EntityFrameworkIntegration/Saga/EntityFrameworkSagaRepository.cs:107 | Finds the transaction's row for the id, or returns null. |
| EntityFrameworkSaga.SagaDbContext.Add | src/Persistence/MassTransit.EntityFrameworkIntegration/Saga/EntityFrameworkSagaRepository.cs:332 | Records the saga as a pending insert. |
| EntityFrameworkSaga.SagaDbContext.Update | src/Persistence/MassTransit.EntityFrameworkIntegration/Saga/EntityFrameworkSagaRepository.cs:122-124 | Changes the tracked instance: its pending insert when there is one, otherwise its row in the working copy. |
| EntityFrameworkSaga.SagaDbContext.Remove | src/Persistence/MassTransit.EntityFrameworkIntegration/Saga/EntityFrameworkSagaRepository.cs:122-124 | Detaches an instance still pending for insertion. Otherwise it deletes the id's row from the working copy. |
| EntityFrameworkSaga.SagaDbContext.SaveChanges | src/Persistence/MassTransit.EntityFrameworkIntegration/Saga/EntityFrameworkSagaRepository.cs:127 | The new state and the failure are those of `Save`. |
| EntityFrameworkSaga.SagaDbContext.Commit | src/Persistence/MassTransit.EntityFrameworkIntegration/Saga/EntityFrameworkSagaRepository.cs:129 | Returns the failure the database reports, and then changes nothing. Without one, it publishes the working copy as the committed rows and closes the transaction. |
| EntityFrameworkSaga.SagaDbContext.Rollback | src/Persistence/MassTransit.EntityFrameworkIntegration/Saga/EntityFrameworkSagaRepository.cs:131-184 | Discards the working copy and closes the transaction. |
| EntityFrameworkSaga.MissingPipe.constructor | src/Persistence/MassTransit.EntityFrameworkIntegration/Saga/EntityFrameworkSagaRepository.cs:377-393 | Records the context and the handler pipe. |
| EntityFrameworkSaga.MissingPipe.Send | src/Persistence/MassTransit.EntityFrameworkIntegration/Saga/EntityFrameworkSagaRepository.cs:395-412 | Runs the handler, adds the saga unless it completed, then saves. The result is `MissingPipeSend` of the old state. |
| EntityFrameworkSaga.EntityFrameworkSagaRepository.constructor | src/Persistence/MassTransit.EntityFrameworkIntegration/Saga/EntityFrameworkSagaRepository.cs:77-78 | Records the optimistic or pessimistic mode. |
| EntityFrameworkSaga.EntityFrameworkSagaRepository.PreInsertSagaInstance | src/Persistence/MassTransit.EntityFrameworkIntegration/Saga/EntityFrameworkSagaRepository.cs:325-347 | The result and the new state are `PreInsert` of the old state. |
| EntityFrameworkSaga.EntityFrameworkSagaRepository.CallMissing | src/Persistence/MassTransit.EntityFrameworkIntegration/Saga/EntityFrameworkSagaRepository.cs:108-113 | `policy.Missing` through a `MissingPipe`, equal to `PolicyMissing`. |
| EntityFrameworkSaga.EntityFrameworkSagaRepository.CallExisting | src/Persistence/MassTransit.EntityFrameworkIntegration/Saga/EntityFrameworkSagaRepository.cs:114-125 | `policy.Existing` on the instance, equal to `PolicyExisting`. |
| EntityFrameworkSaga.EntityFrameworkSagaRepository.Finish | src/Persistence/MassTransit.EntityFrameworkIntegration/Saga/EntityFrameworkSagaRepository.cs:127-184 | The final save, the commit (which may fail into the same catch blocks) and the catch blocks, equal to `FinishTry`. |
| EntityFrameworkSaga.EntityFrameworkSagaRepository.Send | src/Persistence/MassTransit.EntityFrameworkIntegration/Saga/EntityFrameworkSagaRepository.cs:77-186 | The outcome, final store and events are those of `SendRun`, which the lemmas above describe. |
| EntityFrameworkSaga.EntityFrameworkSagaRepository.SendQueryIteration | src/Persistence/MassTransit.EntityFrameworkIntegration/Saga/EntityFrameworkSagaRepository.cs:208-230 | One pass of the `foreach`, equal to `QueryStep`. |
| EntityFrameworkSaga.EntityFrameworkSagaRepository.SendQueryLoop | src/Persistence/MassTransit.EntityFrameworkIntegration/Saga/EntityFrameworkSagaRepository.cs:204-231 | The `foreach` over the query's ids, with its early exit on the first failure, ends in the state `QueryLoop` computes. |
| EntityFrameworkSaga.EntityFrameworkSagaRepository.SendQuery | src/Persistence/MassTransit.EntityFrameworkIntegration/Saga/EntityFrameworkSagaRepository.cs:188-316 | The outcome, final store and events are those of `SendQueryRun`. |
| RedisSaga.TypedDatabase.constructor | src/Persistence/MassTransit.RedisIntegration/RedisSagaConsumeContext.cs:30 | The store starts with the given entries. |
| RedisSaga.TypedDatabase.Delete | src/Persistence/MassTransit.RedisIntegration/RedisSagaConsumeContext.cs:52 | Removes exactly the given key. |
| RedisSaga.RedisSagaConsumeContext.constructor | src/Persistence/MassTransit.RedisIntegration/RedisSagaConsumeContext.cs:32-38 | The context holds the store and the instance, and starts not completed. |
| RedisSaga.RedisSagaConsumeContext.CorrelationId | src/Persistence/MassTransit.RedisIntegration/RedisSagaConsumeContext.cs:40 | The correlation id is the saga's, not the message's. |
| RedisSaga.RedisSagaConsumeContext.PopContext | src/Persistence/MassTransit.RedisIntegration/RedisSagaConsumeContext.cs:42-48 | Returns this same context for its own message type or one it converts to. Otherwise it fails with a ContextException naming both short names. |
| RedisSaga.RedisSagaConsumeContext.SetCompleted | src/Persistence/MassTransit.RedisIntegration/RedisSagaConsumeContext.cs:50-58 | Deletes the saga's key (and nothing else) from the store, then marks the context completed. |
| RedisSaga.CorrelationIdIgnoresMessage | src/Persistence/MassTransit.RedisIntegration/RedisSagaConsumeContext.cs:40 | Two contexts over the same saga report the same correlation id, whatever their message. |
| RedisSaga.PopToOwnMessageType | src/Persistence/MassTransit.RedisIntegration/RedisSagaConsumeContext.cs:42-48 | Whatever the saga, the message's correlation id and the supertypes, a context pops to itself for its own message type and for each compatible supertype. It fails for any other type. |
| RedisSaga.SetCompletedTwice | src/Persistence/MassTransit.RedisIntegration/RedisSagaConsumeContext.cs:50-58 | Completing twice leaves what completing once leaves: the key is absent, the context is completed, and every other entry is unchanged. |
| RedisSaga.CompletionIsMonotone | src/Persistence/MassTransit.RedisIntegration/RedisSagaConsumeContext.cs:50-61 | Any new context starts not completed. `SetCompleted` makes it completed and removes only the saga's entry. A later `PopContext` leaves it completed. |
| TypeMetadata.NoNamespaceOrCoreAssemblyIsInvalid | src/MassTransit/Util/TypeMetadataCache.cs:136-140 | A type without a namespace, or from the core assembly, is not a valid message type. |
| TypeMetadata.SystemNamespaceRule | src/MassTransit/Util/TypeMetadataCache.cs:142-147 | A namespace is excluded if and only if it is `System` or begins with `System.`. |
| TypeMetadata.SystemLikeNamespaceIsNotExcluded | src/MassTransit/Util/TypeMetadataCache.cs:142-147 | `SystemX` and `Systems.Messages` pass the namespace rule, and `System.Collections` does not. |
| TypeMetadata.ValidityOnlyDependsOnTheListedFacts | src/MassTransit/Util/TypeMetadataCache.cs:134-169 | Validity is decided by the namespace, the assembly, the generic definition, openness and anonymity alone. |
| TypeMetadata.ProtocolOpenAndAnonymousTypesAreInvalid | src/MassTransit/Util/TypeMetadataCache.cs:149-166 | `CorrelatedBy<>`, `Orchestrates<>`, `InitiatedBy<>` and `Observes<,>` instances, open generics and anonymous types are invalid. |
| TypeMetadata.ValidTypeFacts | src/MassTransit/Util/TypeMetadataCache.cs:134-169 | A valid type meets every one of those tests (the converse direction). |
| TypeMetadata.BaseChainShape | src/MassTransit/Util/TypeMetadataCache.cs:188-194 | The walked base chain follows `BaseType` links. Every element is valid, and it stops exactly at the first missing or invalid base. |
| TypeMetadata.WalkBaseChain | src/MassTransit/Util/TypeMetadataCache.cs:188-194 | The `while` loop computes `BaseChain`. |
| TypeMetadata.SelectValidInterfaces | src/MassTransit/Util/TypeMetadataCache.cs:196-201 | The `foreach` keeps exactly the valid interfaces, in order. |
| TypeMetadata.GetMessageTypes | src/MassTransit/Util/TypeMetadataCache.cs:183-202 | Yields the type (if valid), then the base chain, then the valid interfaces: `MessageTypes`. |
| TypeMetadata.MessageTypesAreValid | src/MassTransit/Util/TypeMetadataCache.cs:183-202 | Every listed type is valid. A valid type comes first in its own list, and an invalid one is absent from it. |
| TypeMetadata.MembershipOfMessageTypes | src/MassTransit/Util/TypeMetadataCache.cs:183-202 | A type is listed if and only if it is the valid type itself, in the base chain, or a valid interface. |
| TypeMetadata.MessageTypeNames | src/MassTransit/Util/TypeMetadataCache.cs:204-207 | The names have the same length and order as the types, and each is that type's URN. |
| TypeMetadata.TemporaryIffHiddenClassReachable | src/MassTransit/Util/TypeMetadataCache.cs:171-175 | A type is temporary if and only if some path through generic arguments reaches a non-visible class. |
| TypeMetadata.ReachableIsTemporary | src/MassTransit/Util/TypeMetadataCache.cs:171-175 | Any such path makes the type temporary. |
| TypeMetadata.SagaInterfacesDependOnTheInterfaceSet | src/MassTransit/Util/TypeMetadataCache.cs:214-224 | The saga-interface test depends only on which interfaces are present. |
| TypeMetadata.SagaInterfacesAtSomePosition | src/MassTransit/Util/TypeMetadataCache.cs:214-224 | A type has saga interfaces if and only if some listed interface is `ISaga`, or is or lists an instance of `InitiatedBy<>`, `Orchestrates<>` or `Observes<,>`. |
| TypeMetadata.SagaInterfacesOfClosedList | src/MassTransit/Util/TypeMetadataCache.cs:214-224 | The runtime's interface list includes inherited interfaces. For such a list, a type has saga interfaces if and only if some listed interface is `ISaga` or an instance of one of those three definitions. |
| TypeMetadata.TypeMetadataCache.constructor | src/MassTransit/Util/TypeMetadataCache.cs:227-231 | The memo table starts empty. |
| TypeMetadata.TypeMetadataCache.GetOrAdd | src/MassTransit/Util/TypeMetadataCache.cs:29-33 | Returns the freshly computed metadata. A type already cached gets its cached entry back and the table is unchanged. Otherwise exactly this type is added, and the table only grows. |
| TypeMetadata.RepeatedLookupsAgree | src/MassTransit/Util/TypeMetadataCache.cs:29-33 | Two lookups of one type agree, whatever was looked up in between. |
| AsyncConsumerConvention.ConsumerInterfaces | src/MassTransit/Configuration/ConsumeConnectors/AsyncConsumerMessageConvention.cs:38-45 | Each entry names the consumer and a message type that is neither a value type nor `string`. Each comes from a contributing `IConsumer<M>` interface. |
| AsyncConsumerConvention.GetMessageTypes | src/MassTransit/Configuration/ConsumeConnectors/AsyncConsumerMessageConvention.cs:28-46 | Each entry records `T` as the consumer, and has a message type that is neither a value type nor `string`. |
| AsyncConsumerConvention.ConsumerInterfacesConcat | src/MassTransit/Configuration/ConsumeConnectors/AsyncConsumerMessageConvention.cs:38-45 | The interface entries keep `GetInterfaces` order: the selection distributes over concatenation. |
| AsyncConsumerConvention.NonConsumerInterfaceContributesNothing | src/MassTransit/Configuration/ConsumeConnectors/AsyncConsumerMessageConvention.cs:39-42 | An interface that is not `IConsumer<M>` for an acceptable `M` contributes nothing. |
| AsyncConsumerConvention.ContributingInterfaceYieldsOneEntry | src/MassTransit/Configuration/ConsumeConnectors/AsyncConsumerMessageConvention.cs:38-45 | A contributing interface yields exactly one entry, in its place. |
| AsyncConsumerConvention.EntryCount | src/MassTransit/Configuration/ConsumeConnectors/AsyncConsumerMessageConvention.cs:28-46 | The number of entries is the number of contributing interfaces, plus one when `T` is itself `IConsumer<M>`. |
| AsyncConsumerConvention.CountMatches | src/MassTransit/Configuration/ConsumeConnectors/AsyncConsumerMessageConvention.cs:38-45 | One entry per contributing interface. |
| AsyncConsumerConvention.EntryMembership | src/MassTransit/Configuration/ConsumeConnectors/AsyncConsumerMessageConvention.cs:28-46 | An entry is produced if and only if it names `T` as consumer and is `T`'s own `IConsumer<M>` entry or comes from a contributing interface. |
| StaticConsume.FirstMatch | src/MassTransit/Serialization/StaticConsumeContext.cs:221-224 | The index of the first header with the name; no earlier header has it. |
| StaticConsume.GetHeaderIsFirstMatch | src/MassTransit/Serialization/StaticConsumeContext.cs:221-224 | `GetHeader` is null when no header has the name. Otherwise it is the value of the first header that does. |
| StaticConsume.GetHeaderSkipsOthers | src/MassTransit/Serialization/StaticConsumeContext.cs:221-224 | Differently named headers before the match, and all headers after it, do not matter. |
| StaticConsume.GetHeaderString | src/MassTransit/Serialization/StaticConsumeContext.cs:127-142 | The result is null exactly when the header is missing. A string header is returned as is, a URI by its string form and any other value by `ToString()`. |
| StaticConsume.HeaderStringOfFirstMatch | src/MassTransit/Serialization/StaticConsumeContext.cs:127-142 | The string read is that of the first header with the name, by the same three cases. |
| StaticConsume.HeaderDateTimeOfFirstMatch | src/MassTransit/Serialization/StaticConsumeContext.cs:199-219 | A DateTime header gives itself and a string its parse. A missing header, a failed parse or any other value gives null. |
| StaticConsume.HeaderHostOfFirstMatch | src/MassTransit/Serialization/StaticConsumeContext.cs:167-175 | `GetHeaderObject<HostInfo>` gives the first header with the name when it holds a `HostInfo`. Anything else gives null, and a string is not parsed. |
| StaticConsume.HeaderGuidOfFirstMatch | src/MassTransit/Serialization/StaticConsumeContext.cs:177-197 | A Guid header gives itself and a string its parse. A missing header, a failed parse or any other value gives null. |
| StaticConsume.HeaderUriOfFirstMatch | src/MassTransit/Serialization/StaticConsumeContext.cs:144-165 | The same rule for URIs. |
| StaticConsume.Split | src/MassTransit/Serialization/StaticConsumeContext.cs:75 | `Split(';')` yields at least one part, and no part contains `;`. |
| StaticConsume.JoinSplit | src/MassTransit/Serialization/StaticConsumeContext.cs:75 | Joining the parts with `;` gives back the header, so splitting loses nothing. |
| StaticConsume.SplitWithoutSeparator | src/MassTransit/Serialization/StaticConsumeContext.cs:75 | A header without `;` is its own single part. |
| StaticConsume.AsPresent | src/MassTransit/Serialization/StaticConsumeContext.cs:76-79 | Each split part is yielded as a present value, in order. |
| StaticConsume.SupportedMessageTypesLayout | src/MassTransit/Serialization/StaticConsumeContext.cs:69-81 | The message-type header comes first. It is followed only by the polymorphic parts, which rejoin to that header, and by nothing when the header is missing. |
| StaticConsume.Upper | src/MassTransit/Serialization/StaticConsumeContext.cs:94 | Upper-casing is character by character and keeps the length. |
| StaticConsume.AnySupported | src/MassTransit/Serialization/StaticConsumeContext.cs:94 | True if and only if some supported type equals the URN, ordinally or ignoring case. |
| StaticConsume.ExactSupportImpliesCaseInsensitive | src/MassTransit/Serialization/StaticConsumeContext.cs:94 | An exact match is also a match that ignores case. |
| StaticConsume.UpperConcat | src/MassTransit/Serialization/StaticConsumeContext.cs:94 | Upper-casing distributes over concatenation. |
| StaticConsume.CaseOnlyDifferenceMatchesIgnoringCase | src/MassTransit/Serialization/StaticConsumeContext.cs:94 | URNs that differ only in the case of a letter match when case is ignored, and not when it is compared. |
| StaticConsume.MessageConsumeContext.constructor | src/MassTransit/Serialization/StaticConsumeContext.cs:112 | The typed context records its owner and its message type. |
| StaticConsume.CacheFitsUpdate | src/MassTransit/Serialization/StaticConsumeContext.cs:97-125 | Adding an entry of the kind `TryGetMessage` writes keeps the cache consistent with the exact URN match. |
| StaticConsume.StaticConsumeContext.constructor | src/MassTransit/Serialization/StaticConsumeContext.cs:45-52 | The supported types are computed once, the cache is empty and no header has been read yet. |
| StaticConsume.StaticConsumeContext.HasMessageType | src/MassTransit/Serialization/StaticConsumeContext.cs:83-95 | Gives the cached answer (true exactly when the entry is not null). Otherwise it gives a case-insensitive URN match. It does not write the cache. |
| StaticConsume.StaticConsumeContext.TryGetUncached | src/MassTransit/Serialization/StaticConsumeContext.cs:106-122 | On a cache miss: an exact match on a message that is a `T` caches and returns a typed context; a match on one that is not a `T` returns false without caching; no match caches null. The cache stays consistent. |
| StaticConsume.StaticConsumeContext.TryGetMessage | src/MassTransit/Serialization/StaticConsumeContext.cs:97-125 | A cached entry is returned as is. An exact match on a message that is a `T` caches and returns a new typed context. A match on a message that is not a `T` returns false and leaves the cache alone. No match caches null. |
| StaticConsume.StaticConsumeContext.ExpirationTime | src/MassTransit/Serialization/StaticConsumeContext.cs:59 | Read from its header on every access, never memoised. |
| StaticConsume.StaticConsumeContext.MessageId | src/MassTransit/Serialization/StaticConsumeContext.cs:54 | The message id header as a Guid. Once non-null it never changes. |
| StaticConsume.StaticConsumeContext.RequestId | src/MassTransit/Serialization/StaticConsumeContext.cs:55 | Likewise for the request id. |
| StaticConsume.StaticConsumeContext.CorrelationId | src/MassTransit/Serialization/StaticConsumeContext.cs:56 | Likewise for the correlation id. |
| StaticConsume.StaticConsumeContext.ConversationId | src/MassTransit/Serialization/StaticConsumeContext.cs:57 | Likewise for the conversation id. |
| StaticConsume.StaticConsumeContext.InitiatorId | src/MassTransit/Serialization/StaticConsumeContext.cs:58 | Likewise for the initiator id. |
| StaticConsume.StaticConsumeContext.SourceAddress | src/MassTransit/Serialization/StaticConsumeContext.cs:60 | The source address header as a URI. Once non-null it never changes. |
| StaticConsume.StaticConsumeContext.DestinationAddress | src/MassTransit/Serialization/StaticConsumeContext.cs:61 | Likewise for the destination address. |
| StaticConsume.StaticConsumeContext.ResponseAddress | src/MassTransit/Serialization/StaticConsumeContext.cs:62 | Likewise for the response address. |
| StaticConsume.StaticConsumeContext.FaultAddress | src/MassTransit/Serialization/StaticConsumeContext.cs:63 | Likewise for the fault address. |
| StaticConsume.StaticConsumeContext.SentTime | src/MassTransit/Serialization/StaticConsumeContext.cs:64 | The sent-time header as a DateTime. Once non-null it never changes. |
| StaticConsume.StaticConsumeContext.Host | src/MassTransit/Serialization/StaticConsumeContext.cs:66 | The host header when it is a `HostInfo`. Once non-null it never changes. |
| StaticConsume.TryGetMessageIsStable | src/MassTransit/Serialization/StaticConsumeContext.cs:97-125 | Asking twice for one type gives the same answer and the same typed context. |
| StaticConsume.NegativeCacheOverridesCaseInsensitiveMatch | src/MassTransit/Serialization/StaticConsumeContext.cs:83-125 | A type that `HasMessageType` accepts only when case is ignored is cached as unsupported by `TryGetMessage`. After that, `HasMessageType` answers false. |
| ConsumeTopology.TopologyPipeBuilder.constructor | src/MassTransit/Topology/MessageConsumeTopology.cs:60 | A builder starts with nothing applied. |
| ConsumeTopology.TopologyPipeBuilder.Receive | src/MassTransit/Topology/MessageConsumeTopology.cs:60-80 | Records one application. |
| ConsumeTopology.Against | src/MassTransit/Topology/MessageConsumeTopology.cs:62-79 | One application per topology. |
| ConsumeTopology.AgainstAt | src/MassTransit/Topology/MessageConsumeTopology.cs:62-79 | Applications are in topology order, each against the given builder. |
| ConsumeTopology.OfferedConcat | src/MassTransit/Topology/MessageConsumeTopology.cs:69-74 | The reported topologies keep convention order. |
| ConsumeTopology.OfferedCount | src/MassTransit/Topology/MessageConsumeTopology.cs:69-74 | One topology per convention that reports one. |
| ConsumeTopology.SilentConventionContributesNothing | src/MassTransit/Topology/MessageConsumeTopology.cs:71-73 | A convention that reports no topology contributes nothing to the builder. |
| ConsumeTopology.ApplyOrder | src/MassTransit/Topology/MessageConsumeTopology.cs:60-80 | The delegates come first, against the delegated builder. Then come the topologies the conventions report, in convention order, and then the explicit topologies in insertion order, both against the builder itself. |
| ConsumeTopology.FirstOfType | src/MassTransit/Topology/MessageConsumeTopology.cs:91-99 | The index of the first convention of the type. No earlier convention has it. |
| ConsumeTopology.UpdatedReplacesOnlyFirstMatch | src/MassTransit/Topology/MessageConsumeTopology.cs:89-102 | Only the first match is replaced, at its index. The length and all other elements are unchanged, and with no match the list is untouched. |
| ConsumeTopology.MessageConsumeTopology.constructor | src/MassTransit/Topology/MessageConsumeTopology.cs:30-39 | Empty lists, and the given message type and formatter. |
| ConsumeTopology.MessageConsumeTopology.GetMessageTopology | src/MassTransit/Topology/MessageConsumeTopology.cs:41-48 | Returns the topology itself for its own message type. Any other type gets an ArgumentException naming that type. |
| ConsumeTopology.MessageConsumeTopology.Add | src/MassTransit/Topology/MessageConsumeTopology.cs:50-53 | Appends exactly one topology. |
| ConsumeTopology.MessageConsumeTopology.AddDelegate | src/MassTransit/Topology/MessageConsumeTopology.cs:55-58 | Appends exactly one delegate configuration. |
| ConsumeTopology.MessageConsumeTopology.AddConvention | src/MassTransit/Topology/MessageConsumeTopology.cs:84-87 | Appends exactly one convention. |
| ConsumeTopology.MessageConsumeTopology.Apply | src/MassTransit/Topology/MessageConsumeTopology.cs:60-80 | The builder receives exactly `ApplyPlan` (see `ApplyOrder`). |
| ConsumeTopology.MessageConsumeTopology.UpdateConvention | src/MassTransit/Topology/MessageConsumeTopology.cs:89-102 | The `for` loop with its early return replaces only the first convention of the type (see `UpdatedReplacesOnlyFirstMatch`). |
| ConsumeTopology.MessageConsumeTopology.AddOrUpdateConvention | src/MassTransit/Topology/MessageConsumeTopology.cs:104-121 | Updates the first match if there is one. Otherwise it appends what `add()` returns, or leaves the list unchanged when that is null. |
| ConsumeTopology.ApplyEach | src/MassTransit/Topology/MessageConsumeTopology.cs:62-63 | The `foreach` applies every topology in order. |
| ConsumeTopology.ApplyConventions | src/MassTransit/Topology/MessageConsumeTopology.cs:69-74 | The `foreach` over conventions applies exactly the topologies they report, in order. |
| ConsumeTopology.AgainstSnoc | src/MassTransit/Topology/MessageConsumeTopology.cs:62-79 | One more topology adds its application at the end. |
| ConsumeTopology.Create | src/MassTransit/Topology/MessageConsumeTopology.cs:32-33 | Fails with `entityNameFormatter` if and only if the formatter is null. |
| ConsumeTopology.AddThenUpdate | src/MassTransit/Topology/MessageConsumeTopology.cs:89-121 | When no convention has the type yet, adding one with `AddOrUpdateConvention` and then updating that type leaves the old list followed by the updated convention. |
| InMemoryTopology.BindSpecification | src/MassTransit/Transports/InMemory/Topology/InMemoryMessageConsumeTopology.cs:56-69 | Invalid, keyed by the short name with "Is not a bindable message type", if and only if the type is `JToken`. Otherwise an exchange binding named by the formatter. |
| InMemoryTopology.InMemoryConsumeTopologyBuilder.constructor | src/MassTransit/Transports/InMemory/Topology/InMemoryMessageConsumeTopology.cs:48 | A builder starts with nothing applied. |
| InMemoryTopology.InMemoryConsumeTopologyBuilder.Receive | src/MassTransit/Transports/InMemory/Topology/InMemoryMessageConsumeTopology.cs:53 | Records one applied specification. |
| InMemoryTopology.ExchangeNames | src/MassTransit/Transports/InMemory/Topology/InMemoryMessageConsumeTopology.cs:64-68 | At most one exchange name per specification. |
| InMemoryTopology.ExchangeNamesSnoc | src/MassTransit/Transports/InMemory/Topology/InMemoryMessageConsumeTopology.cs:56-69 | One more specification adds its exchange name (if any) at the end. |
| InMemoryTopology.InMemoryMessageConsumeTopology.constructor | src/MassTransit/Transports/InMemory/Topology/InMemoryMessageConsumeTopology.cs:31-35 | No specifications, and a base topology for the message type and formatter. |
| InMemoryTopology.InMemoryMessageConsumeTopology.GetMessageTopology | src/MassTransit/Transports/InMemory/Topology/InMemoryMessageConsumeTopology.cs:39-46 | Returns the topology itself for its own message type. Otherwise it raises an ArgumentException naming the type. |
| InMemoryTopology.InMemoryMessageConsumeTopology.Apply | src/MassTransit/Transports/InMemory/Topology/InMemoryMessageConsumeTopology.cs:48-54 | The builder receives every specification, in insertion order. |
| InMemoryTopology.InMemoryMessageConsumeTopology.Bind | src/MassTransit/Transports/InMemory/Topology/InMemoryMessageConsumeTopology.cs:56-69 | Appends exactly one specification. It adds an exchange binding only for a bindable type. |
| ServiceBusTopology.TrimStart | src/MassTransit.AzureServiceBusTransport/Topology/Topologies/ServiceBusSendTopology.cs:61 | Removes exactly the leading slashes. |
| ServiceBusTopology.TrimEnd | src/MassTransit.AzureServiceBusTransport/Topology/Topologies/ServiceBusSendTopology.cs:61 | Removes exactly the trailing slashes. |
| ServiceBusTopology.TrimShape | src/MassTransit.AzureServiceBusTransport/Topology/Topologies/ServiceBusSendTopology.cs:61 | `Trim('/')` leaves a substring of the input with no slash at either end. Only slashes are removed around it. |
| ServiceBusTopology.TrimEnds | src/MassTransit.AzureServiceBusTransport/Topology/Topologies/ServiceBusSendTopology.cs:61 | The trimmed path is empty or has no slash at either end. |
| ServiceBusTopology.TrimIsSlice | src/MassTransit.AzureServiceBusTransport/Topology/Topologies/ServiceBusSendTopology.cs:61 | The trimmed path is the contiguous part of the input after its leading slashes. |
| ServiceBusTopology.TrimDropsOnlySlashes | src/MassTransit.AzureServiceBusTransport/Topology/Topologies/ServiceBusSendTopology.cs:61 | Only slashes are removed, before and after that part. |
| ServiceBusTopology.TrimLeavesInnerString | src/MassTransit.AzureServiceBusTransport/Topology/Topologies/ServiceBusSendTopology.cs:61 | A string without outer slashes is its own trim. |
| ServiceBusTopology.TrimIdempotent | src/MassTransit.AzureServiceBusTransport/Topology/Topologies/ServiceBusSendTopology.cs:61 | Trimming twice is trimming once. |
| ServiceBusTopology.SubscriptionQueuePathUnderBase | src/MassTransit.AzureServiceBusTransport/Topology/Topologies/ServiceBusSendTopology.cs:61-64 | With a non-empty trimmed base, the path is that base, `/`, then the trimmed name and suffix. It never begins with a slash. It does not end with one whenever the trimmed name and suffix is non-empty, which the `_error` and `_skipped` suffixes always ensure. |
| ServiceBusTopology.SlashOnlyFromBaseOrName | src/MassTransit.AzureServiceBusTransport/Topology/Topologies/ServiceBusSendTopology.cs:61-64 | A slash appears in the path only when the trimmed base is non-empty or the subscription name contains one. |
| ServiceBusTopology.LeadingSlashSurvivesWithoutBase | src/MassTransit.AzureServiceBusTransport/Topology/Topologies/ServiceBusSendTopology.cs:61-64 | With base `/` and subscription name `/orders`, the error path is `/orders_error`. |
| ServiceBusTopology.QueueDescription.constructor | src/MassTransit.AzureServiceBusTransport/Topology/Topologies/ServiceBusSendTopology.cs:66 | A new description has the path and the defaults. |
| ServiceBusTopology.GetQueueErrorSettings | src/MassTransit.AzureServiceBusTransport/Topology/Topologies/ServiceBusSendTopology.cs:49-55 | The configurator's description gets `_error` appended to its path, in place, and nothing else changes. |
| ServiceBusTopology.GetQueueDeadLetterSettings | src/MassTransit.AzureServiceBusTransport/Topology/Topologies/ServiceBusSendTopology.cs:73-79 | The same with `_skipped`. |
| ServiceBusTopology.SubscriptionQueueSettings | src/MassTransit.AzureServiceBusTransport/Topology/Topologies/ServiceBusSendTopology.cs:57-95 | A new description at the subscription queue path, copying the subscription's time-to-live and auto-delete-on-idle. |
| ServiceBusTopology.GetSubscriptionErrorSettings | src/MassTransit.AzureServiceBusTransport/Topology/Topologies/ServiceBusSendTopology.cs:57-71 | The subscription queue for the `_error` suffix. |
| ServiceBusTopology.GetSubscriptionDeadLetterSettings | src/MassTransit.AzureServiceBusTransport/Topology/Topologies/ServiceBusSendTopology.cs:81-95 | The subscription queue for the `_skipped` suffix. |
| ServiceBusTopology.AutoDeleteOnIdle | src/MassTransit.AzureServiceBusTransport/Topology/Topologies/ServiceBusSendTopology.cs:112-114 | `autodelete` overrides the default only when it is greater than 0. |
| ServiceBusTopology.GetQueueDescription | src/MassTransit.AzureServiceBusTransport/Topology/Topologies/ServiceBusSendTopology.cs:106-118 | A new description named by the address path trimmed of slashes. Auto-delete is as above. `express` overrides the default when given. |
| ServiceBusTopology.GetSendSettings | src/MassTransit.AzureServiceBusTransport/Topology/Topologies/ServiceBusSendTopology.cs:42-47 | Settings over the description of the addressed queue. |
| ServiceBusTopology.QueueNameHasNoOuterSlash | src/MassTransit.AzureServiceBusTransport/Topology/Topologies/ServiceBusSendTopology.cs:108 | The queue name never begins or ends with a slash. |
| RedeliveryRetry.Factory | src/MassTransit/Configuration/PipeConfigurators/RedeliveryRetryPipeSpecification.cs:48-51 | A retry context is returned unchanged, and any other context is wrapped with the policy. The result is always a retry context. |
| RedeliveryRetry.FactoryIdempotent | src/MassTransit/Configuration/PipeConfigurators/RedeliveryRetryPipeSpecification.cs:48-51 | Wrapping twice is wrapping once. |
| RedeliveryRetry.PipeBuilder.constructor | src/MassTransit/Configuration/PipeConfigurators/RedeliveryRetryPipeSpecification.cs:39 | A builder starts with no filters. |
| RedeliveryRetry.PipeBuilder.AddFilter | src/MassTransit/Configuration/PipeConfigurators/RedeliveryRetryPipeSpecification.cs:45 | Appends one filter. |
| RedeliveryRetry.RedeliveryRetryPipeSpecification.constructor | src/MassTransit/Configuration/PipeConfigurators/RedeliveryRetryPipeSpecification.cs:34-37 | Records the observers, and starts without a policy factory. |
| RedeliveryRetry.RedeliveryRetryPipeSpecification.Validate | src/MassTransit/Configuration/PipeConfigurators/RedeliveryRetryPipeSpecification.cs:53-57 | Exactly one failure, "RetryPolicy" / "must not be null", when no factory is set, and none otherwise. |
| RedeliveryRetry.RedeliveryRetryPipeSpecification.SetRetryPolicy | src/MassTransit/Configuration/PipeConfigurators/RedeliveryRetryPipeSpecification.cs:59-62 | Replaces the factory. |
| RedeliveryRetry.RedeliveryRetryPipeSpecification.Apply | src/MassTransit/Configuration/PipeConfigurators/RedeliveryRetryPipeSpecification.cs:39-46 | Adds exactly one redelivery retry filter, built from the factory and the exception filter. It fails (a null delegate) with nothing added when no factory is set. |
| RedeliveryRetry.LastPolicyWins | src/MassTransit/Configuration/PipeConfigurators/RedeliveryRetryPipeSpecification.cs:53-62 | After two `SetRetryPolicy` calls, the second factory is the one validated and applied. |

## Left out

- I/O and asynchrony: every `await` becomes a plain call, and cancellation tokens are dropped.
- Concurrency:
  - the `lock` statements of `StaticConsumeContext`;
  - the `ConcurrentDictionary` and `Lazy` of `TypeMetadataCache`;
  - races between transactions, including the pre-insert race and optimistic-concurrency conflicts, which appear only as the failure kinds the repository reacts to.
- Logging and `Probe`: the model takes debug logging to be off, and `Probe` has no effect on behaviour.
- PreInsert: with debug logging on, the catch block of `PreInsertSagaInstance` reads `instance.CorrelationId`. A policy that accepts the pre-insert but supplies no instance then makes `Send` throw a `NullReferenceException` outside its `try`. The model returns `false` there, as with logging off.
- Database behaviour beyond the transaction:
  - SQL text, the `UPDLOCK, ROWLOCK` semantics and isolation levels. A lock statement is an event that may fail.
  - The query of `SendQuery` is its list of ids, read before the transaction opens.
- Entity Framework change tracking:
  - A failed `SaveChanges` keeps its inserts tracked, and a later save tries them again. Removing a tracked insert detaches it. Entity Framework's other entity states and its detection of changes are not modelled.
- ResolveInstance: a policy that answers `false` from `PreInsertInstance` but still supplies an instance is not modelled faithfully. The source then hands `Existing` an instance Entity Framework does not track, so its changes are never saved and removing it throws. The model applies the handler's change or the deletion to the row as if the instance were tracked. No policy in MassTransit answers that way.
  - A failed `transaction.Commit` is a failure the database reports. It goes through the same catch blocks as any failure in the `try`.
  - `EntityFrameworkSagaConsumeContext` is not part of this model. Its `SetCompleted` is taken to remove the existing row, or only to mark completion for the instance that `MissingPipe` proxies.
- Policy callbacks and the handler pipe are data: what each does to the saga, and whether it fails or completes. This replaces arbitrary user code.
- Deadlock detection: "a `DbUpdateException` whose base exception is SQL error 1205" is a failure kind.
- Guid, URI and DateTime parsing, and `ToString()` of a header value: these are parameters (`Conversions`), partial where the framework throws.
- `MessageUrn`: a concrete `urn:message:<namespace>:<name>`, without the assembly and nested-type parts of the real format.
- Header names: `BinaryMessageSerializer` is not part of this model, so its key constants are stood in for by distinct strings.
- The `Headers` property of `StaticConsumeContext` (`StaticHeaders`): it is not modelled.
- Case folding and prefixes: `OrdinalIgnoreCase` is modelled as ASCII upper-casing. The culture-sensitive `StartsWith("System.")` is modelled as an ordinal prefix test.
- `HasInterface` (the reflection extensions are not part of this model): it is taken as "the type, or one of its interfaces, is an instance of the generic definition".
- Retry behaviour: the GreenPipes retry policy engine, the filter it drives and the retry observers are not part of this model; they appear by identity.
- Topology bodies:
  - What a topology's or a specification's `Apply` does to a builder is opaque. The builder records which one was applied.
  - The delegated builder's calls are recorded in the same log, with a flag.
- Null callbacks in `MessageConsumeTopology`:
  - `ConsumeTopology.MessageConsumeTopology.UpdateConvention`: `update` is total, so an `update` that returns null is not modelled.
  - `add()` returning null is modelled (as `None`).
  - `Add(null)` on the lists is not modelled.
- Derived types:
  - `InMemoryMessageConsumeTopology` derives from `MessageConsumeTopology`; the model holds the base part as a field.
  - The `as` casts of the Service Bus `GetMessageTopology` and `CreateMessageTopology` are not modelled.
- Service Bus details:
  - `Defaults.CreateQueueDescription` is a parameter (`QueueDefaults`).
  - The query-string values `autodelete` and `express` arrive already parsed, `None` when absent or unparseable.
  - Time spans are in seconds.
- Integer widths do not matter here: ids are `nat`, and no arithmetic in the core overflows.

## Findings

| source | as written | input that shows it | evidently intended | confidence | as-written member | corrected member |
|---|---|---|---|---|---|---|
| src/Persistence/MassTransit.EntityFrameworkIntegration/Saga/EntityFrameworkSagaRepository.cs:96-124 | `inserted` is assigned from `PreInsertSagaInstance` but never read. When the policy supplies an instance, the lookup is skipped even when the insert failed because a row with that id already exists. | A stored saga with id 7 in state 3. The policy pre-inserts a new saga with id 7 in state 0. The insert fails and is swallowed, and `Existing` runs on the new state-0 instance, not on the stored saga. The failed insert stays tracked, so unless the handler completes the instance, the final save hits the duplicate key again and `Send` rolls back. The stored saga never receives the message, and every redelivery takes the same path. | A failed pre-insert falls back to the lookup, so `Existing` sees the stored saga. | not executed | EntityFrameworkSaga.PreInsertConflictSkipsStoredRow | EntityFrameworkSaga.FailedPreInsertFallsBackToLookup |

The imperative `Send` follows the code as written. `EntityFrameworkSaga.PreInsertConflictKeepsStoredRow` states what then happens to the stored row. `SendRunAsIntended` is the corrected definition, and the lemma beside it proves the intended behaviour.

Two places where the code guarantees less than a caller might expect are stated as proved facts, not as findings:

- **Subscription queue paths.** A path built from a subscription does not begin with `/` when the trimmed base path is non-empty. With an empty base the name is used untrimmed: `ServiceBusTopology.LeadingSlashSurvivesWithoutBase` gives the example.
- **Message-type checks.** `HasMessageType` compares case-insensitively, while `TryGetMessage` compares exactly and caches a miss. A type whose URN differs only in case is accepted by `HasMessageType` until `TryGetMessage` has been asked for it, and refused afterwards: `StaticConsume.NegativeCacheOverridesCaseInsensitiveMatch`.
