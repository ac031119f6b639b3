/** A sequence of calls made by git-gateway on one connection. Because the
    connection holds no state, what any call returns depends only on the call
    itself and the environment, never on the calls made before it. */
module Session {
  import opened Results
  import opened Environment
  import opened Tenant
  import DC = DummyConnection

  /** One call on the storage connection interface. */
  datatype Call =
    | Close
    | Automigrate
    | GetInstanceByUUID(uuid: string)
    | GetInstance(instanceId: string)
    | CreateInstance(candidate: Instance)
    | DeleteInstance(target: Option<Instance>)
    | UpdateInstance(target: Option<Instance>)

  /** What a call returns: a record or an error for lookups, an error or nil
      for everything else. */
  datatype Reply =
    | Lookup(result: Result<Instance, DC.StoreError>)
    | Status(outcome: Outcome<DC.StoreError>)

  /** Performs one call on connection `c`, returning the connection the next
      call is made on together with the reply. */
  function Step(c: DC.Connection, call: Call, env: Env, derive: Env -> Config)
    : (DC.Connection, Reply)
  {
    var reply := match call
      case Close => Status(DC.Close(c))
      case Automigrate => Status(DC.Automigrate(c))
      case GetInstanceByUUID(uuid) => Lookup(DC.GetInstanceByUUID(c, uuid, env, derive))
      case GetInstance(id) => Lookup(DC.GetInstance(c, id, env, derive))
      case CreateInstance(candidate) => Status(DC.CreateInstance(c, candidate))
      case DeleteInstance(target) => Status(DC.DeleteInstance(c, target))
      case UpdateInstance(target) => Status(DC.UpdateInstance(c, target));
    (c, reply)
  }

  /** The reply a newly made connection gives to a single call. */
  function Fresh(call: Call, env: Env, derive: Env -> Config): Reply {
    Step(DC.NewDummyConnection(), call, env, derive).1
  }

  /** Performs `calls` in order on one connection, threading the connection
      from each call to the next. Every reply equals the reply a newly made
      connection would give to that call alone: no call can influence a
      later one. */
  function Run(c: DC.Connection, calls: seq<Call>, env: Env, derive: Env -> Config)
    : (replies: seq<Reply>)
    ensures |replies| == |calls|
    ensures forall i :: 0 <= i < |calls| ==> replies[i] == Fresh(calls[i], env, derive)
    decreases |calls|
  {
    if calls == [] then []
    else
      var (next, reply) := Step(c, calls[0], env, derive);
      [reply] + Run(next, calls[1..], env, derive)
  }

  /** The reply to a call is the same after any history of earlier calls as
      on a newly made connection. */
  lemma HistoryIrrelevant(c: DC.Connection, history: seq<Call>, call: Call,
                          env: Env, derive: Env -> Config)
    ensures Run(c, history + [call], env, derive)[|history|] == Fresh(call, env, derive)
  {
  }

  /** Running two traces back to back replies as running each on its own. */
  lemma RunAppend(c: DC.Connection, a: seq<Call>, b: seq<Call>,
                   env: Env, derive: Env -> Config)
    ensures Run(c, a + b, env, derive) == Run(c, a, env, derive) + Run(c, b, env, derive)
  {
  }

  /** Whatever came before, a lookup by identifier succeeds exactly for the
      fixed identifier and then yields the tenant record for the current
      environment; any other identifier is a not-found miss. */
  lemma LookupAfterAnyHistory(c: DC.Connection, history: seq<Call>, id: string,
                              env: Env, derive: Env -> Config)
    ensures var reply := Run(c, history + [GetInstance(id)], env, derive)[|history|];
            && reply.Lookup?
            && (reply.result.Success? <==> id == InstanceId)
            && (reply.result.Success? ==> IsTenantRecord(reply.result.value, derive(env)))
            && (reply.result.Failure? ==> reply.result.error == DC.NotFound)
  {
  }

  /** Creating a tenant that does not collide succeeds, yet leaves it
      unknown: looking it up afterwards by identifier or by UUID still
      misses. */
  lemma CreateDoesNotRegister(candidate: Instance, env: Env, derive: Env -> Config)
    requires candidate.id != InstanceId && candidate.uuid != InstanceUuid
    ensures Run(DC.NewDummyConnection(),
                [CreateInstance(candidate), GetInstance(candidate.id), GetInstanceByUUID(candidate.uuid)],
                env, derive)
            == [Status(Pass), Lookup(Failure(DC.NotFound)), Lookup(Failure(DC.NotFound))]
  {
  }

  /** Delete, Update and Close succeed and Automigrate fails at every point
      of every trace. */
  lemma MutationsAlwaysAnswerAlike(c: DC.Connection, calls: seq<Call>, i: nat,
                                   env: Env, derive: Env -> Config)
    requires i < |calls|
    ensures calls[i].DeleteInstance? || calls[i].UpdateInstance? || calls[i].Close?
            ==> Run(c, calls, env, derive)[i] == Status(Pass)
    ensures calls[i].Automigrate?
            ==> Run(c, calls, env, derive)[i] == Status(Fail(DC.MigrationNotSupported))
  {
  }

  /** Dropping any call from a trace, a Create, Delete, Update or Close
      included, leaves the replies to all other calls unchanged. */
  lemma CallRemovable(c: DC.Connection, before: seq<Call>, mutation: Call, after: seq<Call>,
                      env: Env, derive: Env -> Config)
    ensures var full := Run(c, before + [mutation] + after, env, derive);
            full == Run(c, before, env, derive) + [full[|before|]] + Run(c, after, env, derive)
  {
  }
}
