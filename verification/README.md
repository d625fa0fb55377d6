# smithy agent: declared-schema grouping and start-up orchestration in Dafny

smithy lets an operator declare tables and columns, plus a restricted database
user, in a configuration file. An agent then reconciles a live PostgreSQL
database against that declaration. This project models two pieces of it.

- **`Database` (`database.dfy`)** covers the declared schema records
  (`ConnectionInfo`, `ExecutiveAccount`, `Model`, `Column`) and the three
  helpers that regroup columns:
  - `ColumnsByTableName` merges the columns of models that share a table name.
  - `GroupByName` buckets columns by name.
  - `Names` lists column names.

  Each helper is a method with a loop. Its contract ties the result to
  specification functions (`TableNames`, `ColumnsOf`, `ColumnNames`, `Named`).
  Lemmas prove what the grouping promises: the first model starts a group and
  later ones append to it, and no column is lost or duplicated.
- **`Agent` (`agent.dfy`)** covers the start-up orchestration in
  `agent/agent.go`:
  - `NewConfig` reads the configuration and, when `VerifyConfig` is set, checks it.
  - `CheckModelList` and its PostgreSQL path run the strict check.
  - `CreateUserWithACL` provisions the restricted user.
  - `AutoMigrate` adds what is missing for the models flagged `AutoMigration`.

  Behind these calls, the connection library and the PostgreSQL store driver
  are one object, `Postgres`. It records every call it receives, with the
  call's arguments and the answer it gave, in a ghost `trace`. Its answers are
  arbitrary. The orchestration's contracts say which calls are made, in which
  order, with which arguments, and how each answer decides the result.
  Properties:
  - any database type other than `"postgres"` is refused without touching the database;
  - only flagged models reach `MissingColumns`, in configured order;
  - `AutoMigrate` gets exactly the map `MissingColumns` returned, and only after it succeeded;
  - the first error stops the run and is returned;
  - an explicit `forceCreate` overrides the configured `ForceRecreate`;
  - the strict check sees the whole, unfiltered model list.

## Model

| member | source | states |
|---|---|---|
| `Database.ColumnsByTableName` | common/database/database.go:36-47 | The result's keys are exactly the table names in the list. Each table's group is the columns of every model with that name, concatenated in list order. |
| `Database.GroupStartsWithFirstAndAppends` | common/database/database.go:38-44 | The first model with a name supplies its group's opening columns. A later model with the same name appends its columns to the group, never replacing what is there. |
| `Database.GroupsOfEmptyAndSingle` | common/database/database.go:37-46 | An empty list has no table names. A single model has only its own table name, and its group is exactly its own columns. |
| `Database.ColumnsOfConcat` | common/database/database.go:38-44 | Grouping two consecutive parts of the list gives the first part's group followed by the second's. |
| `Database.GroupsPartitionColumns` | common/database/database.go:38-44 | Take the groups of all table names, in any order, each name once. Together they hold exactly the multiset of all columns of all models. Their lengths add up to the sum of `len(m.Columns)`. |
| `Database.GroupByName` | common/database/database.go:63-74 | The result's keys are exactly the column names that occur. Each bucket holds the columns with that name, in input order. |
| `Database.NamedGroupIsExact` | common/database/database.go:65-71 | A bucket holds only columns with its name. It holds every such column as often as the column occurs in the input. The bucket of a name that occurs is non-empty. |
| `Database.NameGroupsPartitionColumns` | common/database/database.go:65-71 | Take the buckets of all names, in any order. Together they hold exactly the input columns, and their sizes add up to `len(cols)`. |
| `Database.Names` | common/database/database.go:77-85 | The result is as long as the input, and position `i` holds the name of column `i`. An empty input gives an empty result. |
| `Agent.AutoMigratableSelectsFlagged` | agent/agent.go:99-104 | Every selected model has `AutoMigration` set. Each flagged model is selected as often as it occurs in the list; an unflagged one is never selected. |
| `Agent.AutoMigratableKeepsOrder` | agent/agent.go:99-104 | Selection keeps list order: selecting from a concatenation gives the concatenation of the selections. |
| `Agent.AutoMigratableIsAllIffAllFlagged` | agent/agent.go:99-104 | The selection is the whole model list if and only if every model is flagged. |
| `Agent.Postgres.Open` | agent/agent.go:49-52 | Opening a connection is one recorded call, with the connection settings, that may fail. |
| `Agent.Postgres.Verify` | agent/agent.go:54 | The store's strict check is one recorded call on the given models, answering success or an error. |
| `Agent.Postgres.MissingColumns` | agent/agent.go:107 | The store's diff is one recorded call on the given models, answering a map or an error. |
| `Agent.Postgres.AutoMigrate` | agent/agent.go:112 | The store's migration is one recorded call on the given map, answering success or an error. |
| `Agent.Postgres.CreateUserWithACL` | agent/agent.go:77-80 | User provisioning is one recorded call with the models, credentials and force flag, answering a user or an error. |
| `Agent.NewConfig` | agent/agent.go:18-32 | A read error is returned and no check runs. Without `VerifyConfig`, the read configuration is returned as it is and the database is not touched. With `VerifyConfig`, the check runs, and its error replaces the configuration. |
| `Agent.CheckConfig` | agent/agent.go:35-37 | Does exactly what the model-list check does. |
| `Agent.CheckModelList` | agent/agent.go:39-46 | A database type other than `"postgres"` returns the "not support" error and makes no call. `"postgres"` runs the PostgreSQL check. |
| `Agent.CheckModelListPG` | agent/agent.go:48-55 | Opens a connection; if that fails, returns its error. Otherwise asks the store configured for `DBName` and `DBSchemaName` to verify the full model list, and returns its answer. |
| `Agent.VerifySeesAllModels` | agent/agent.go:54 | The strict check receives the unfiltered model list. The migration path receives a different list whenever some model is not flagged. |
| `Agent.CreateUserWithACL` | agent/agent.go:58-65 | A database type other than `"postgres"` returns the "not support" error and makes no call. `"postgres"` runs the PostgreSQL path. |
| `Agent.CreateUserWithACLPG` | agent/agent.go:68-81 | Opens a connection; if that fails, returns its error. Otherwise makes exactly one provisioning call, with the full model list and the configured username and password, and returns the store's answer. |
| `Agent.ForceCreateTakesPrecedence` | agent/agent.go:75-80 | The store receives `force = true` when `forceCreate` is set, and the configured `ForceRecreate` otherwise. |
| `Agent.AutoMigrate` | agent/agent.go:84-91 | A database type other than `"postgres"` returns the "not support" error and makes no call. `"postgres"` runs the PostgreSQL path. |
| `Agent.AutoMigrationPG` | agent/agent.go:93-118 | Opens a connection, then asks for the missing columns of exactly the flagged models, in order. Applies exactly the returned map. Returns the first error, and makes no further call after it. |
| `Agent.MigrationOutcome` | agent/agent.go:107-117 | Migration returns nil if and only if the open, the diff and the migration all succeed. The diff receives only flagged models. The migration call comes only after a successful diff, with that diff's map. No strict-check call is made. |

## Left out

- Opening connections: the connection string (`DBConnectionString`) and the
  connection library are not part of this model. Opening is a recorded call
  with the `ConnectionInfo` that may fail.
- The store driver (`drivers.NewPGStore`) is not part of this model. That
  covers introspection, the missing-column diff, DDL synthesis, role creation
  and grants. Its calls answer arbitrarily. So this model states nothing about
  idempotence of migration, what `Verify` detects, or which privileges are
  granted.
- The store value: the store built from `DBName` and `DBSchemaName` is
  represented by that pair (`StoreTarget`), carried on each store call.
- The agent configuration type (`agent/config`) is not part of this model. `Config` holds
  only the fields the orchestration reads. The reader's `Read` is represented
  by its result, passed to `NewConfig`.
- `database.User` is not part of this model. The store's answer is an opaque
  descriptor.
- Go errors are modelled by their messages. A Go function that returns both a
  user and an error is modelled as returning one or the other.
- Slice aliasing in `ColumnsByTableName`: Go's `append` onto the first
  model's `Columns` slice may write into that model's backing array. The model
  uses value sequences, so it does not capture that sharing.
- Go map iteration order: the "no column lost" lemmas hold for every order in
  which the keys can be listed.
- The HTTP exposure handler, the dashboard backend, its endpoints, its tests
  and process start-up are transport and plumbing, and are not modelled.
