/**
 * What `BaseService` gives every domain service: the two injected hub callables, the requests a
 * service issues through them, and the tool-table entry shape.
 */
module Base {
  import opened Wrappers
  import opened JsonValues
  import opened Strings
  import opened Entity
  import opened Schemas

  /** One call a service issues to the hub. */
  datatype Request =
    | ServiceCall(domain: EntityDomain, service: string, data: JsonObject)
    | StateQuery(entityId: string)

  /** The injected `call_service(domain, service, data)` and `get_state(entity_id)`; `R` is what they return. */
  datatype Gateway<R> = Gateway(callService: (EntityDomain, string, JsonObject) -> R, getState: string -> R)

  /** One entry of a service's `tools` table: its key, its wire name, its description and its schema. */
  datatype Tool = Tool(key: string, name: string, description: string, schema: Schema)

  /** The failure the base `get_available_entities` raises. */
  datatype ServiceError = NotImplementedError

  /** Issues a request through the gateway and hands back whatever the gateway returned. */
  function Send<R>(g: Gateway<R>, req: Request): (r: R)
    ensures req.ServiceCall? ==> r == g.callService(req.domain, req.service, req.data)
    ensures req.StateQuery? ==> r == g.getState(req.entityId)
  {
    match req
    case ServiceCall(domain, service, data) => g.callService(domain, service, data)
    case StateQuery(entityId) => g.getState(entityId)
  }

  /** The hub entity id `<domain value>.<entity_id>`; its first dot separates the domain again. */
  function EntityRef(domain: EntityDomain, entityId: string): (r: string)
    ensures SplitAtFirst(r, '.') == Some((domain.Value(), entityId))
  {
    SplitJoin(domain.Value(), '.', entityId);
    domain.Value() + "." + entityId
  }

  /** A service that spells the prefix out (`f"light.{entity_id}"`) builds the same reference. */
  lemma {:induction false} EntityRefPrefix(domain: EntityDomain, prefix: string, entityId: string)
    requires prefix == domain.Value() + "."
    ensures EntityRef(domain, entityId) == prefix + entityId
  {
    assert domain.Value() + "." + entityId == (domain.Value() + ".") + entityId;
  }

  /** Distinct (domain, entity) pairs name distinct hub entities. */
  lemma EntityRefInjective(d1: EntityDomain, id1: string, d2: EntityDomain, id2: string)
    ensures EntityRef(d1, id1) == EntityRef(d2, id2) <==> d1 == d2 && id1 == id2
  {
    if EntityRef(d1, id1) == EntityRef(d2, id2) {
      DomainValueInjective(d1, d2);
    }
  }

  /** `call_domain_service(service, data)`: a service call in the service's own domain, payload untouched. */
  function CallDomainService(domain: EntityDomain, service: string, data: JsonObject): (req: Request)
    ensures req.ServiceCall? && req.domain == domain && req.service == service && req.data == data
  {
    ServiceCall(domain, service, data)
  }

  /** `get_entity_state(entity_id)`: a state query for the entity, prefixed with the domain value. */
  function GetEntityState(domain: EntityDomain, entityId: string): (req: Request)
    ensures req.StateQuery? && SplitAtFirst(req.entityId, '.') == Some((domain.Value(), entityId))
  {
    StateQuery(EntityRef(domain, entityId))
  }

  /** The gateway's result for a domain service call is exactly what `call_service` returned for it. */
  lemma CallDomainServicePassesThrough<R>(g: Gateway<R>, domain: EntityDomain, service: string, data: JsonObject)
    ensures Send(g, CallDomainService(domain, service, data)) == g.callService(domain, service, data)
  {
  }

  /** The gateway's result for a state query is exactly what `get_state` returned for `<domain>.<id>`. */
  lemma GetEntityStatePassesThrough<R>(g: Gateway<R>, domain: EntityDomain, entityId: string)
    ensures Send(g, GetEntityState(domain, entityId)) == g.getState(domain.Value() + "." + entityId)
  {
  }

  /** The base `get_available_entities`: every domain must override it, the base always fails. */
  function GetAvailableEntities<S>(): (r: Result<map<string, EntityDescription<S>>, ServiceError>)
    ensures r.Failure? && r.error == NotImplementedError
  {
    Failure(NotImplementedError)
  }
}
