/** Identifiers, entity kinds and the housekeeper tasks the cleanup service submits. */
module Housekeeper {

  datatype Option<+T> = None | Some(value: T)

  /** The entity kinds that deletion events and tenant teardown name (abridged: the
      cleanup service only tells USER apart from the rest). */
  datatype EntityType =
    | TENANT | CUSTOMER | USER | DASHBOARD | ASSET | DEVICE | ALARM
    | RULE_CHAIN | RULE_NODE | ENTITY_VIEW | EDGE | WIDGETS_BUNDLE

  datatype TenantId = TenantId(uuid: nat)

  /** An entity reference: its kind and its identifier. */
  datatype EntityId = EntityId(entityType: EntityType, uuid: nat)

  /** The part of a deleted user that the alarm-unassignment task carries. */
  datatype User = User(id: EntityId, tenantId: TenantId)

  datatype HousekeeperTaskType =
    | DELETE_ATTRIBUTES | DELETE_TELEMETRY | DELETE_EVENTS | DELETE_ENTITY_ALARMS
    | DELETE_ENTITIES | UNASSIGN_ALARMS

  /** One constructor per task factory the cleanup service calls. */
  datatype HousekeeperTask =
    | DeleteAttributes(tenantId: TenantId, entityId: EntityId)
    | DeleteTelemetry(tenantId: TenantId, entityId: EntityId)
    | DeleteEvents(tenantId: TenantId, entityId: EntityId)
    | DeleteEntityAlarms(tenantId: TenantId, entityId: EntityId)
    | DeleteEntities(tenantId: TenantId, entityType: EntityType)
    | UnassignAlarms(user: User)
  {
    function TaskType(): HousekeeperTaskType {
      match this
      case DeleteAttributes(_, _) => DELETE_ATTRIBUTES
      case DeleteTelemetry(_, _) => DELETE_TELEMETRY
      case DeleteEvents(_, _) => DELETE_EVENTS
      case DeleteEntityAlarms(_, _) => DELETE_ENTITY_ALARMS
      case DeleteEntities(_, _) => DELETE_ENTITIES
      case UnassignAlarms(_) => UNASSIGN_ALARMS
    }

    /** The tenant the task's work is scoped to. */
    function Tenant(): TenantId {
      if UnassignAlarms? then user.tenantId else tenantId
    }

    /** The entity whose data the task cleans up; a bulk DELETE_ENTITIES task names none. */
    function Subject(): Option<EntityId> {
      match this
      case DeleteAttributes(_, e) => Some(e)
      case DeleteTelemetry(_, e) => Some(e)
      case DeleteEvents(_, e) => Some(e)
      case DeleteEntityAlarms(_, e) => Some(e)
      case DeleteEntities(_, _) => None
      case UnassignAlarms(u) => Some(u.id)
    }
  }
}
