# Cascading cleanup after entity deletion (ThingsBoard `CleanUpService`)

This project models the orchestrator that runs after an entity is deleted. The
cleanup service deletes the entity's relations at once. It hands the rest of the
cleanup to the housekeeper as tasks, when a housekeeper is deployed. For tenant
teardown it either submits one bulk deletion task per entity type or, with no
housekeeper, has each type's dao service delete the tenant's entities directly.

Files:

- `housekeeper_types.dfy` (module `Housekeeper`): tenant and entity identifiers,
  entity types, and `HousekeeperTask`, with one constructor per task factory.
- `cleanup_spec.dfy` (module `CleanUpSpec`): the deletion event and the stores as
  values. It gives the tasks each operation submits and the end state of the fallback
  teardown as functions of the inputs, and proves what they promise.
- `cleanup_service.dfy` (module `CleanUp`): the service itself as a class.
  - The optional housekeeper is a nullable `HousekeeperService?` field whose task
    log only grows.
  - The relation store is a `RelationService` holding a set of relations.
  - The per-type dao services are an `EntityServiceRegistry` holding a map from
    entity type to that type's stored entities.
  - Each method of `CleanUpService` states the new state of every collaborator in
    terms of the functions of `CleanUpSpec`.
  - A ghost `trace` records relation deletions and task submissions in the order
    they happen. It is how the model states that relations go before any task is
    submitted.

Where the source throws, the model returns `Failed(...)` after the effects the source
has already had at that point:

- a user deletion event whose entity is not a `User` fails the `(User)` cast;
- a type with no dao service makes `getServiceByEntityType` return null, and the
  fallback loop stops at that type.

Other facts of the code the model keeps:

- The bulk task type is `DELETE_ENTITIES`, carrying a tenant and an entity type.
- Relation deletion is a direct call on the relation service, never a task.
- The alarm-unassignment task carries the deleted `User` itself.
- The four per-entity tasks are submitted one by one, each by its own call.

## Model

| member | source | states |
|---|---|---|
| `CleanUpSpec.EntityCleanUpTasks` | dao/src/main/java/org/thingsboard/server/dao/housekeeper/CleanUpService.java:64-69 | exactly four tasks, of types DELETE_ATTRIBUTES, DELETE_TELEMETRY, DELETE_EVENTS, DELETE_ENTITY_ALARMS in that order, each scoped to the given tenant and about the given entity |
| `CleanUpSpec.EntityCleanUpTasksCoverExpected` | application/src/test/java/org/thingsboard/server/service/housekeeper/HousekeeperServiceTest.java:211-214 | a task type is among the deleted entity's tasks if and only if it is one of the four types the deletion test expects |
| `CleanUpSpec.DeletionEventTasks` | dao/src/main/java/org/thingsboard/server/dao/housekeeper/CleanUpService.java:52-56 | the four per-entity tasks come first; a fifth task exists exactly for a user deletion whose entity is a User, and it is UNASSIGN_ALARMS carrying that user |
| `CleanUpSpec.DeleteEntitiesTasks` | dao/src/main/java/org/thingsboard/server/dao/housekeeper/CleanUpService.java:73-76 | one DELETE_ENTITIES task per listed type, in argument order, each carrying the tenant and its type |
| `CleanUpSpec.FallbackDeletion` | dao/src/main/java/org/thingsboard/server/dao/housekeeper/CleanUpService.java:77-82 | the registries after the fallback loop, and the first listed type with no dao service if the loop stops there; it stops exactly when some listed type has no service, and the same types stay registered |
| `CleanUpSpec.Purged` | dao/src/main/java/org/thingsboard/server/dao/housekeeper/CleanUpService.java:77-82 | reference end state of the fallback teardown: the same types stay registered; a stored entity is gone exactly when it is the tenant's and its type is listed |
| `CleanUpSpec.PurgedExtend` | dao/src/main/java/org/thingsboard/server/dao/housekeeper/CleanUpService.java:78-80 | one more deleteByTenantId in the fallback loop extends the reference end state by the next listed type |
| `CleanUpSpec.FallbackDeletionPurges` | dao/src/main/java/org/thingsboard/server/dao/housekeeper/CleanUpService.java:77-82 | when every listed type has a dao service, the fallback loop completes and reaches the reference end state |
| `CleanUpSpec.FallbackDeletionStops` | dao/src/main/java/org/thingsboard/server/dao/housekeeper/CleanUpService.java:78-80 | when the k-th listed type is the first without a dao service, the fallback has purged the types before it and stops there, naming that type |
| `CleanUpSpec.FallbackDeletionKeepsOtherTenants` | dao/src/main/java/org/thingsboard/server/dao/housekeeper/CleanUpService.java:77-82 | whether or not it completes, the fallback keeps every registered type, only removes entities, and keeps every entity of other tenants |
| `CleanUpSpec.FallbackDeletionIdempotent` | dao/src/main/java/org/thingsboard/server/dao/housekeeper/CleanUpService.java:77-82 | repeating a completed fallback teardown changes nothing more |
| `CleanUp.HousekeeperService.SubmitTask` | dao/src/main/java/org/thingsboard/server/dao/housekeeper/CleanUpService.java:65-68 | submitting appends the task to the end of the log and changes nothing else |
| `CleanUp.RelationService.DeleteEntityRelations` | dao/src/main/java/org/thingsboard/server/dao/housekeeper/CleanUpService.java:63 | afterwards no relation has the entity at either end, and every other relation is kept |
| `CleanUp.EntityServiceRegistry.DeleteByTenantId` | dao/src/main/java/org/thingsboard/server/dao/housekeeper/CleanUpService.java:79-80 | only the given type's store changes, and it loses exactly the tenant's entities |
| `CleanUp.CleanUpService.constructor` | dao/src/main/java/org/thingsboard/server/dao/housekeeper/CleanUpService.java:36-45 | the service holds the optional housekeeper, the relation service and the registry it is given |
| `CleanUp.CleanUpService.Submit` | dao/src/main/java/org/thingsboard/server/dao/housekeeper/CleanUpService.java:65-68 | a submission through the present housekeeper appends the task to its log and to the trace |
| `CleanUp.CleanUpService.CleanUpRelatedData` | dao/src/main/java/org/thingsboard/server/dao/housekeeper/CleanUpService.java:60-70 | the entity's relations are deleted whether or not the housekeeper is present, and before any submission; with the housekeeper, exactly the four per-entity tasks are appended; without it, nothing is submitted; the registries are unchanged |
| `CleanUp.CleanUpService.HandleEntityDeletionEvent` | dao/src/main/java/org/thingsboard/server/dao/housekeeper/CleanUpService.java:47-58 | for a non-user entity the effect is that of CleanUpRelatedData; for a user with the housekeeper present, UNASSIGN_ALARMS carrying the user follows the four tasks; a user event whose entity is not a User fails after those four; without the housekeeper the call only deletes relations |
| `CleanUp.CleanUpService.RemoveTenantEntities` | dao/src/main/java/org/thingsboard/server/dao/housekeeper/CleanUpService.java:72-83 | with the housekeeper: one DELETE_ENTITIES task per type in argument order, and the registries unchanged; without it: no submission, and the registries become the fallback's end state, failing at the first type with no service; an empty type list changes nothing |

## Left out

- The housekeeper's internals are not modelled: queueing, partitioned ordering, retry with backoff, dead-lettering, and the processors that carry out each task. They are asynchronous and their source is not part of this model. Submission is an append to a log.
- The end states the deletion tests wait for are not modelled: no telemetry, attributes or events left, and alarms with a null assignee. They are produced by the task processors, which are not part of this model. The model proves which tasks are submitted for them.
- Spring wiring is left out: the transactional event listener, lazy injection of the registry, and logging. These are framework mechanics.
- The `// todo: skipped entities list` at CleanUpService.java:62 is unimplemented. Relation deletion stays unconditional.
- CleanUp.EntityServiceRegistry.DeleteByTenantId: only the entity records of the type's store change. Deleting those entities in the real dao service sets off their own cleanup in turn (their relations, attributes, telemetry and events); that cascade is not modelled. So the frame of `RemoveTenantEntities` that leaves relations unchanged is a property of this abstraction, not of the code.
- `RelationService.DeleteEntityRelations` ignores its tenant argument. Relations are keyed by their two ends only, and the relation store's source is not part of this model.
- `HousekeeperTask.Subject` names no entity for a DELETE_ENTITIES task. The entity id that task factory sets lies outside this model.
- A null entity on a user deletion event is treated like any non-User entity. What the alarm-unassignment factory does with null lies outside this model.
- `EntityType` lists only some of the platform's entity kinds. The service distinguishes USER alone, so the rest behave alike.
- The stores are abstract: relations are a set of edges, and each type's dao service is a set of (tenant, entity) records. Attribute, time-series, event and alarm stores are reached only through tasks.
- The dashboard-state UI component is not part of this model. It is an Angular component unrelated to cleanup.
