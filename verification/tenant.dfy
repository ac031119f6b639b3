/** The one tenant this deployment serves and the record built for it. */
module Tenant {
  import opened Results
  import opened Environment

  /** The git-gateway configuration. Its contents belong to an external
      library that fills it from the environment and applies defaults; this
      model never looks inside it. */
  type Config(==)

  /** The fixed short identifier of the tenant. */
  const InstanceId: string := "ovo-cms"

  /** The fixed UUID of the tenant. */
  const InstanceUuid: string := "d75d142d-2aca-45db-a42c-f68d6e8376e4"

  /** A `time.Date` value, kept as the components it was written with (all
      in UTC); no calendar arithmetic is modelled. */
  datatype Timestamp = Timestamp(year: int, month: int, day: int,
                                 hour: int, minute: int, second: int, nanosecond: int)

  /** 2023-01-01T00:00:00Z, the creation and update time of the tenant. */
  const FixedTime: Timestamp := Timestamp(2023, 1, 1, 0, 0, 0, 0)

  /** `models.Instance`: the tenant record of git-gateway. `deletedAt` and
      `baseConfig` are pointers in Go and may be nil. */
  datatype Instance = Instance(
    id: string,
    uuid: string,
    createdAt: Timestamp,
    updatedAt: Timestamp,
    deletedAt: Option<Timestamp>,
    rawBaseConfig: string,
    baseConfig: Option<Config>)

  /** What every record handed out for the fixed tenant looks like, given the
      configuration derived for it. */
  ghost predicate IsTenantRecord(r: Instance, config: Config) {
    && r.id == InstanceId
    && r.uuid == InstanceUuid
    && r.createdAt == FixedTime
    && r.updatedAt == r.createdAt
    && r.deletedAt.None?
    && |r.rawBaseConfig| == 0
    && r.baseConfig == Some(config)
  }

  /** The package-level `GetInstance()`: builds a fresh record of the fixed
      tenant, deriving the configuration
      anew from the environment on every call (nothing is cached). */
  function FreshInstance(env: Env, derive: Env -> Config): (r: Instance)
    ensures IsTenantRecord(r, derive(env))
  {
    Instance(InstanceId, InstanceUuid, FixedTime, FixedTime, None, "", Some(derive(env)))
  }

  /** There is exactly one tenant record per configuration: two records that
      both describe the fixed tenant are equal, so every fresh build in the
      same environment yields the same value. */
  lemma TenantRecordUnique(a: Instance, b: Instance, config: Config)
    requires IsTenantRecord(a, config) && IsTenantRecord(b, config)
    ensures a == b
  {
  }

  /** Builds in the same environment agree; builds in environments that
      derive different configurations differ only in the configuration. */
  lemma FreshInstanceDeterministic(env1: Env, env2: Env, derive: Env -> Config)
    ensures FreshInstance(env1, derive) == FreshInstance(env2, derive)
            <==> derive(env1) == derive(env2)
    ensures FreshInstance(env1, derive).(baseConfig := None)
            == FreshInstance(env2, derive).(baseConfig := None)
  {
  }
}
