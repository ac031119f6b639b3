/** `DummyConnection`: git-gateway's storage connection interface backed by
    the single fixed tenant instead of a database. Lookups match exactly or
    miss, Create only rejects collisions, every other mutation is a no-op and
    migration is refused. */
module DummyConnection {
  import opened Results
  import opened Environment
  import opened Tenant

  /** The connection is an empty struct: it has no state at all. */
  datatype Connection = Connection

  /** The errors the connection returns. */
  datatype StoreError = NotFound | AlreadyExists | MigrationNotSupported

  /** The text of each error, as passed to `errors.New`. */
  function Message(e: StoreError): string {
    match e
    case NotFound => "instance not found"
    case AlreadyExists => "instance already exists"
    case MigrationNotSupported => "migration not supported"
  }

  /** Callers can tell the errors apart by their text. */
  lemma MessagesDistinct(e1: StoreError, e2: StoreError)
    ensures Message(e1) == Message(e2) <==> e1 == e2
  {
  }

  /** `NewDummyConnection`: every connection is the one it returns, since the
      empty struct has a single value. */
  function NewDummyConnection(): (r: Connection)
    ensures forall c: Connection {:trigger c.Connection?} :: c == r
  {
    Connection
  }

  /** `Close` releases nothing and always succeeds. */
  function Close(c: Connection): (r: Outcome<StoreError>)
    ensures r.Pass?
  {
    Pass
  }

  /** `Automigrate` always refuses: there is no schema to migrate. */
  function Automigrate(c: Connection): (r: Outcome<StoreError>)
    ensures r.Fail? && Message(r.error) == "migration not supported"
  {
    Fail(MigrationNotSupported)
  }

  /** `GetInstanceByUUID`: the fixed tenant for its exact UUID, otherwise a
      not-found error and no record. */
  function GetInstanceByUUID(c: Connection, uuid: string, env: Env, derive: Env -> Config)
    : (r: Result<Instance, StoreError>)
    ensures r.Success? <==> uuid == InstanceUuid
    ensures r.Success? ==> IsTenantRecord(r.value, derive(env))
    ensures r.Failure? ==> Message(r.error) == "instance not found"
  {
    if uuid == InstanceUuid then Success(FreshInstance(env, derive)) else Failure(NotFound)
  }

  /** `GetInstance`: the fixed tenant for its exact short identifier,
      otherwise a not-found error and no record. */
  function GetInstance(c: Connection, instanceId: string, env: Env, derive: Env -> Config)
    : (r: Result<Instance, StoreError>)
    ensures r.Success? <==> instanceId == InstanceId
    ensures r.Success? ==> IsTenantRecord(r.value, derive(env))
    ensures r.Failure? ==> Message(r.error) == "instance not found"
  {
    if instanceId == InstanceId then Success(FreshInstance(env, derive)) else Failure(NotFound)
  }

  /** `CreateInstance`: rejects a candidate that collides with the fixed
      tenant by identifier or by UUID, and otherwise succeeds without storing
      anything. */
  function CreateInstance(c: Connection, candidate: Instance): (r: Outcome<StoreError>)
    ensures r.Fail? <==> candidate.id == InstanceId || candidate.uuid == InstanceUuid
    ensures r.Fail? ==> Message(r.error) == "instance already exists"
  {
    if candidate.id == InstanceId || candidate.uuid == InstanceUuid then Fail(AlreadyExists) else Pass
  }

  /** `DeleteInstance`: a no-op that always succeeds, whatever the record. */
  function DeleteInstance(c: Connection, candidate: Option<Instance>): (r: Outcome<StoreError>)
    ensures r.Pass?
  {
    Pass
  }

  /** `UpdateInstance`: a no-op that always succeeds, whatever the record. */
  function UpdateInstance(c: Connection, candidate: Option<Instance>): (r: Outcome<StoreError>)
    ensures r.Pass?
  {
    Pass
  }

  /** The set of tenant identities the connection knows: exactly one. */
  const Registry: set<(string, string)> := {(InstanceId, InstanceUuid)}

  /** Against the registry as a reference store: a lookup by identifier hits
      exactly when some registered tenant carries that identifier, a lookup
      by UUID likewise, and Create is rejected exactly when the candidate
      shares an identifier or a UUID with a registered tenant. */
  lemma AgreesWithRegistry(c: Connection, candidate: Instance, key: string,
                           env: Env, derive: Env -> Config)
    ensures GetInstance(c, key, env, derive).Success?
            <==> exists t :: t in Registry && t.0 == key
    ensures GetInstanceByUUID(c, key, env, derive).Success?
            <==> exists t :: t in Registry && t.1 == key
    ensures CreateInstance(c, candidate).Fail?
            <==> exists t :: t in Registry && (t.0 == candidate.id || t.1 == candidate.uuid)
  {
  }

  /** Create is rejected exactly for the candidates that one of the lookups
      would already find, by identifier or by UUID. */
  lemma CreateRejectsWhatLookupsFind(c: Connection, candidate: Instance,
                                     env: Env, derive: Env -> Config)
    ensures CreateInstance(c, candidate).Fail?
            <==> (|| GetInstance(c, candidate.id, env, derive).Success?
                  || GetInstanceByUUID(c, candidate.uuid, env, derive).Success?)
  {
  }

  /** The two lookups of the fixed tenant hand back the same record. */
  lemma LookupsAgree(c: Connection, env: Env, derive: Env -> Config)
    ensures GetInstance(c, InstanceId, env, derive) == GetInstanceByUUID(c, InstanceUuid, env, derive)
  {
  }
}
