/** The cleanup service and the collaborators it changes: the housekeeper's task queue,
    the relation store and the per-type entity services. */
module CleanUp {
  import opened Housekeeper
  import opened CleanUpSpec

  /** The housekeeper seen from the submitting side: an append-only task log. */
  class HousekeeperService {
    var tasks: seq<HousekeeperTask>

    constructor ()
      ensures tasks == []
    {
      tasks := [];
    }

    method SubmitTask(task: HousekeeperTask)
      modifies this
      ensures tasks == old(tasks) + [task]
    {
      tasks := tasks + [task];
    }
  }

  class RelationService {
    var relations: set<EntityRelation>

    constructor (relations: set<EntityRelation>)
      ensures this.relations == relations
    {
      this.relations := relations;
    }

    /** Deletes every relation the entity is an end of, and no other. */
    method DeleteEntityRelations(tenantId: TenantId, entityId: EntityId)
      modifies this
      ensures relations == RelationsWithout(old(relations), entityId)
      ensures forall rel :: rel in relations ==> rel.from != entityId && rel.to != entityId
    {
      relations := RelationsWithout(relations, entityId);
    }
  }

  /** The dao services by entity type; a type missing from registries has no service. */
  class EntityServiceRegistry {
    var registries: Registries

    constructor (registries: Registries)
      ensures this.registries == registries
    {
      this.registries := registries;
    }

    /** Whether getServiceByEntityType finds a service for the type. */
    predicate HasService(entityType: EntityType)
      reads this
    {
      entityType in registries
    }

    /** deleteByTenantId of the type's service: the tenant's entities of that type go. */
    method DeleteByTenantId(entityType: EntityType, tenantId: TenantId)
      requires HasService(entityType)
      modifies this
      ensures registries == old(registries)[entityType := WithoutTenant(old(registries)[entityType], tenantId)]
    {
      registries := registries[entityType := WithoutTenant(registries[entityType], tenantId)];
    }
  }

  /** How a call of the cleanup service ended: normally, or with the exception the
      source would throw at that point. */
  datatype CleanUpError =
    | EntityNotAUser(entityId: EntityId)     // the (User) cast of a user event's entity fails
    | NoEntityService(entityType: EntityType) // getServiceByEntityType finds no service
  datatype Outcome = Done | Failed(error: CleanUpError)

  /** A call the cleanup service makes on a collaborator, in the order it makes them. */
  datatype Step = RelationsDeleted(tenantId: TenantId, entityId: EntityId) | TaskSubmitted(task: HousekeeperTask)

  function Submissions(tasks: seq<HousekeeperTask>): seq<Step> {
    seq(|tasks|, k requires 0 <= k < |tasks| => TaskSubmitted(tasks[k]))
  }

  class CleanUpService {
    /** The optional housekeeper: null when it is not deployed. */
    const housekeeperService: HousekeeperService?
    const relationService: RelationService
    const entityServiceRegistry: EntityServiceRegistry
    /** Relation deletions and task submissions, in the order they happened. */
    ghost var trace: seq<Step>

    constructor (housekeeperService: HousekeeperService?, relationService: RelationService,
                 entityServiceRegistry: EntityServiceRegistry)
      ensures this.housekeeperService == housekeeperService
      ensures this.relationService == relationService
      ensures this.entityServiceRegistry == entityServiceRegistry
      ensures trace == []
    {
      this.housekeeperService := housekeeperService;
      this.relationService := relationService;
      this.entityServiceRegistry := entityServiceRegistry;
      trace := [];
    }

    method Submit(task: HousekeeperTask)
      requires housekeeperService != null
      modifies this, housekeeperService
      ensures housekeeperService.tasks == old(housekeeperService.tasks) + [task]
      ensures trace == old(trace) + [TaskSubmitted(task)]
    {
      housekeeperService.SubmitTask(task);
      trace := trace + [TaskSubmitted(task)];
    }

    /** Deletes the entity's relations, then, when the housekeeper is present, submits
        the four per-entity cleanup tasks. */
    method CleanUpRelatedData(tenantId: TenantId, entityId: EntityId)
      modifies this, housekeeperService, relationService
      ensures relationService.relations == RelationsWithout(old(relationService.relations), entityId)
      ensures housekeeperService != null ==>
        housekeeperService.tasks == old(housekeeperService.tasks) + EntityCleanUpTasks(tenantId, entityId)
      ensures trace == old(trace) + [RelationsDeleted(tenantId, entityId)] +
        (if housekeeperService != null then Submissions(EntityCleanUpTasks(tenantId, entityId)) else [])
      ensures entityServiceRegistry.registries == old(entityServiceRegistry.registries)
    {
      relationService.DeleteEntityRelations(tenantId, entityId);
      trace := trace + [RelationsDeleted(tenantId, entityId)];
      if housekeeperService != null {
        Submit(DeleteAttributes(tenantId, entityId));
        Submit(DeleteTelemetry(tenantId, entityId));
        Submit(DeleteEvents(tenantId, entityId));
        Submit(DeleteEntityAlarms(tenantId, entityId));
      }
    }

    /** Cleans up after a committed deletion; for a deleted user, also submits the task
        that unassigns the user's alarms. */
    method HandleEntityDeletionEvent(event: DeleteEntityEvent) returns (outcome: Outcome)
      modifies this, housekeeperService, relationService
      ensures relationService.relations == RelationsWithout(old(relationService.relations), event.entityId)
      ensures housekeeperService != null ==>
        housekeeperService.tasks == old(housekeeperService.tasks) + DeletionEventTasks(event)
      ensures housekeeperService != null && !IsUserDeletion(event) ==>
        housekeeperService.tasks == old(housekeeperService.tasks) + EntityCleanUpTasks(event.tenantId, event.entityId)
      ensures trace == old(trace) + [RelationsDeleted(event.tenantId, event.entityId)] +
        (if housekeeperService != null then Submissions(DeletionEventTasks(event)) else [])
      ensures outcome == if housekeeperService != null && IsUserDeletion(event) && event.entity.DeletedOther?
                         then Failed(EntityNotAUser(event.entityId)) else Done
      ensures entityServiceRegistry.registries == old(entityServiceRegistry.registries)
    {
      CleanUpRelatedData(event.tenantId, event.entityId);
      outcome := Done;
      if event.entityId.entityType == USER && housekeeperService != null {
        match event.entity
        case DeletedUser(user) =>
          Submit(UnassignAlarms(user));
        case DeletedOther =>
          outcome := Failed(EntityNotAUser(event.entityId));
      }
    }

    /** Tenant teardown: one bulk deletion task per type when the housekeeper is
        present; otherwise each type's service deletes the tenant's entities at once. */
    method RemoveTenantEntities(tenantId: TenantId, entityTypes: seq<EntityType>) returns (outcome: Outcome)
      modifies this, housekeeperService, entityServiceRegistry
      ensures relationService.relations == old(relationService.relations)
      ensures housekeeperService != null ==>
        housekeeperService.tasks == old(housekeeperService.tasks) + DeleteEntitiesTasks(tenantId, entityTypes) &&
        trace == old(trace) + Submissions(DeleteEntitiesTasks(tenantId, entityTypes)) &&
        entityServiceRegistry.registries == old(entityServiceRegistry.registries) &&
        outcome == Done
      ensures housekeeperService == null ==>
        var fallback := FallbackDeletion(old(entityServiceRegistry.registries), tenantId, entityTypes);
        entityServiceRegistry.registries == fallback.registries &&
        trace == old(trace) &&
        outcome == if fallback.missing.Some? then Failed(NoEntityService(fallback.missing.value)) else Done
      ensures entityTypes == [] ==>
        outcome == Done && trace == old(trace) &&
        entityServiceRegistry.registries == old(entityServiceRegistry.registries) &&
        (housekeeperService != null ==> housekeeperService.tasks == old(housekeeperService.tasks))
    {
      outcome := Done;
      var i := 0;
      if housekeeperService != null {
        while i < |entityTypes|
          invariant 0 <= i <= |entityTypes|
          invariant housekeeperService.tasks == old(housekeeperService.tasks) + DeleteEntitiesTasks(tenantId, entityTypes[..i])
          invariant trace == old(trace) + Submissions(DeleteEntitiesTasks(tenantId, entityTypes[..i]))
          invariant entityServiceRegistry.registries == old(entityServiceRegistry.registries)
        {
          Submit(DeleteEntities(tenantId, entityTypes[i]));
          assert DeleteEntitiesTasks(tenantId, entityTypes[..i + 1])
              == DeleteEntitiesTasks(tenantId, entityTypes[..i]) + [DeleteEntities(tenantId, entityTypes[i])];
          i := i + 1;
        }
        assert entityTypes[..i] == entityTypes;
      } else {
        ghost var start := entityServiceRegistry.registries;
        while i < |entityTypes|
          invariant 0 <= i <= |entityTypes|
          invariant forall j :: 0 <= j < i ==> entityTypes[j] in start
          invariant entityServiceRegistry.registries == Purged(start, tenantId, entityTypes[..i])
          invariant trace == old(trace)
        {
          var entityType := entityTypes[i];
          if !entityServiceRegistry.HasService(entityType) {
            FallbackDeletionStops(start, tenantId, entityTypes, i);
            return Failed(NoEntityService(entityType));
          }
          PurgedExtend(start, tenantId, entityTypes, i);
          entityServiceRegistry.DeleteByTenantId(entityType, tenantId);
          i := i + 1;
        }
        assert entityTypes[..i] == entityTypes;
        FallbackDeletionPurges(start, tenantId, entityTypes);
      }
    }
  }
}
