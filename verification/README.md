# Single-tenant storage shim of git-gateway-vercel

git-gateway-vercel runs Netlify's git-gateway as a Vercel serverless
function. git-gateway expects a multi-tenant storage connection to resolve
the tenant ("instance") of every request. This deployment serves one fixed
tenant, `ovo-cms` with UUID `d75d142d-2aca-45db-a42c-f68d6e8376e4`. It
supplies `DummyConnection`, a stateless stand-in that implements the whole
connection interface:

- lookups match exactly or fail with "instance not found";
- Create rejects a candidate that collides with the fixed tenant and
  otherwise stores nothing;
- Delete, Update and Close always succeed and change nothing;
- Automigrate always fails with "migration not supported";
- every successful lookup builds a fresh tenant record with fixed
  timestamps and the configuration derived from the environment.

The request handler also picks the logging level from `VERCEL_ENV`.

`api/index.go` and `handler.go` hold the same code under exported and
unexported names, for example `DummyConnection`/`dummyConnection`,
`GetInstance`/`getInstance`, `INSTANCE_ID`/`instanceId` and
`INSTANCE_UUID`/`instanceUuid`. Lines 1-21 coincide. From line 23 on, a line
of `handler.go` is the `api/index.go` line minus one, because `handler.go`
lacks the comment at `api/index.go:22`. The table below cites `api/index.go`;
each member models both files.

The comment at `api/index.go:22` says Info cannot be set in production, but
the code does set Info there. The model follows the code.

The connection is the empty struct `DummyConnection` (`api/index.go:76`).
Its statelessness holds by its type: the Dafny `Connection` has exactly one
value, so no operation can leave anything behind for a later call.

Modules:

- `Results` (results.dfy): `Option`, `Result` and `Outcome`, standing for
  nil-able pointers, `(value, error)` pairs and bare `error` returns.
- `Environment` (environment.dfy): the environment as a map, with
  `os.Getenv` semantics (unset reads as "").
- `Tenant` (tenant.dfy): the fixed identity constants, the `Instance`
  record, the fixed timestamp, and the record builder. The configuration is
  an opaque type `Config`. It is derived by a function `derive: Env -> Config`
  that the record builder and both lookups take as a parameter.
- `DummyConnection` (connection.dfy): the connection operations, the error
  texts, and the registry of one identity used as a reference store.
- `Session` (session.dfy): a trace of calls made on one connection. `Run`
  threads the connection through the trace and shows that no call
  influences a later one.
- `Handler` (handler.dfy): the log-level decision.

## Model

| member | source | states |
|---|---|---|
| Tenant.FreshInstance | api/index.go:58-72 | The built record has ID `ovo-cms` and the fixed UUID. Created and updated times are both 2023-01-01T00:00:00Z. There is no deletion time and the raw config is empty. The base config is the one derived from the current environment. |
| Tenant.TenantRecordUnique | api/index.go:61-72 | Any two records that satisfy the tenant-record description for the same configuration are equal: there is one tenant record per configuration. |
| Tenant.FreshInstanceDeterministic | api/index.go:61-72 | Builds in two environments are equal iff the derived configurations are equal. Apart from the configuration they are always equal. |
| DummyConnection.NewDummyConnection | api/index.go:117-119 | Every connection equals the one it returns: the empty struct has a single value. This is the connection `Session.Fresh` starts from. |
| DummyConnection.Close | api/index.go:78-80 | Close never returns an error. |
| DummyConnection.Automigrate | api/index.go:82-84 | Automigrate always fails, with the text "migration not supported". |
| DummyConnection.GetInstanceByUUID | api/index.go:86-92 | The lookup succeeds iff the argument equals the fixed UUID exactly. On success it returns the fixed tenant record with the freshly derived configuration. Otherwise it returns no record and the error "instance not found". |
| DummyConnection.GetInstance | api/index.go:94-100 | The lookup succeeds iff the argument equals `ovo-cms` exactly. On success it returns the fixed tenant record with the freshly derived configuration. Otherwise it returns no record and the error "instance not found". |
| DummyConnection.CreateInstance | api/index.go:102-107 | Create fails iff the candidate's ID equals `ovo-cms` or its UUID equals the fixed UUID, and the failure text is "instance already exists". Otherwise it succeeds. |
| DummyConnection.DeleteInstance | api/index.go:109-111 | Delete succeeds for every input, including nil. |
| DummyConnection.UpdateInstance | api/index.go:113-115 | Update succeeds for every input, including nil. |
| DummyConnection.MessagesDistinct | api/index.go:83-104 | The three error texts are pairwise distinct, so each error kind is recognisable by its text. |
| DummyConnection.AgreesWithRegistry | api/index.go:74-107 | Against a reference store holding exactly the one identity: a lookup by ID hits iff a registered identity has that ID, and likewise for UUID. Create fails iff the candidate shares an ID or a UUID with a registered identity. |
| DummyConnection.CreateRejectsWhatLookupsFind | api/index.go:86-107 | Create fails exactly for the candidates whose ID or UUID one of the lookups would find. |
| DummyConnection.LookupsAgree | api/index.go:86-100 | Looking up the fixed ID and looking up the fixed UUID return records with equal contents. |
| Session.Run | api/index.go:74-119 | On one connection, the reply to every call in a trace equals the reply a newly made connection gives to that call alone. The connection is an empty struct and keeps no state. |
| Session.HistoryIrrelevant | api/index.go:74-119 | The reply to a call made after any history of calls is the reply on a new connection. |
| Session.RunAppend | api/index.go:74-119 | Running two traces back to back gives the replies of running each on its own. |
| Session.LookupAfterAnyHistory | api/index.go:94-100 | After any earlier calls, including Creates, a lookup by ID succeeds iff the ID is `ovo-cms`, returning the tenant record. Any other ID misses with not-found. |
| Session.CreateDoesNotRegister | api/index.go:102-107 | Creating a non-colliding tenant succeeds. Looking it up afterwards by its ID or by its UUID still fails with not-found. |
| Session.MutationsAlwaysAnswerAlike | api/index.go:78-115 | At every position of every trace, Delete, Update and Close succeed and Automigrate fails with "migration not supported". |
| Session.CallRemovable | api/index.go:74-119 | Removing any call from a trace, a Create, Delete, Update or Close included, leaves the replies to all other calls unchanged. |
| Environment.UnsetReadsAsEmpty | api/index.go:24 | Reading a variable through `os.Getenv` gives the same value whether the variable is unset or set to "". |
| Handler.SetLevelCalls | api/index.go:23-26 | The handler first sets Info. It sets a second level exactly when `VERCEL_ENV` is non-empty and not "production", and that second level is Debug. |
| Handler.LogLevel | api/index.go:22-26 | The final level is Debug iff `VERCEL_ENV` is set to something other than "" and "production". Otherwise it is Info. |
| Handler.PreviewIsVerbose | api/index.go:23-26 | Concrete example of `LogLevel`: with `VERCEL_ENV` = "preview", the level is Debug. |

## Left out

- `GetApiHandler` / `getApiHandler`: it reads a private field of git-gateway's API object through reflection and `unsafe`. Nothing can be stated about it without that library's internals.
- The HTTP plumbing of `Handler`: `WithInstanceConfig`, `NewAPIWithVersion`, `ServeHTTP` and the 500 response on a context error. These are calls into git-gateway and the HTTP runtime.
- `GetConfiguration`: `envconfig.Process` and `ApplyDefaults` are external library code. The configuration is the opaque `Config`, produced by the parameter `derive`.
- The logrus global side effect: only the sequence of levels set and the level left in force are modelled.
- `time.Date`: the timestamp is kept as its written components, with no calendar meaning.
- DummyConnection.CreateInstance: takes a record, not a pointer. In Go a nil candidate makes the field access panic, and that panic is not modelled.
- A trace in `Session` runs in one fixed environment: the environment is read-only after the process starts, so calls in one trace cannot see different environments.
- Pointers and errors: a Go pointer is modelled by the value it points to, and an error by its kind and text. In Go each successful lookup returns a fresh `&i` whose `BaseConfig` is a fresh `&config`, and each failure returns a fresh `errors.New` value, and no two of these are `==`. The model compares contents only, so it cannot tell a freshly built record from a shared, cached one.
- Concurrency: the connection holds no shared mutable state, so there is nothing to model.
