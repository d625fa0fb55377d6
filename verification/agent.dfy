/**
 The agent's start-up orchestration: loading and optionally verifying the
 configuration, provisioning the restricted database user, and adding the
 missing columns of the models flagged for auto-migration.

 The PostgreSQL store the agent drives is an object that records every call
 it receives together with the answer it gave. Its answers are arbitrary:
 how it introspects the schema, computes the missing columns, issues DDL or
 grants privileges is not part of this model. The contracts below say which
 calls the agent makes, with which arguments, in which order, and what it
 makes of the answers.
 */
module Agent {
  import opened Database

  /** The only database type the agent supports. */
  const PgDriver: string := "postgres"

  /** Prefix of the error checkModelList returns for another database type. */
  const CheckUnsupportedPrefix: string := "using not support database type "

  /** Prefix of the error AutoMigrate and CreateUserWithACL return for another database type. */
  const UnsupportedPrefix: string := "using not support database type: "

  /** A Go error value, carried by its message. */
  datatype Error = Error(message: string)

  datatype Option<T> = None | Some(value: T)

  datatype Result<T> = Ok(value: T) | Err(error: Error)

  /** The credentials of the restricted user the agent provisions. */
  datatype Credentials = Credentials(username: string, password: string)

  /** The role descriptor the store hands back; its contents are the store's own. */
  datatype User = User(descriptor: nat)

  /** The fields of the agent configuration that the orchestration reads. */
  datatype Config = Config(
    connection: ConnectionInfo,
    modelList: seq<Model>,
    verifyConfig: bool,
    userWithACL: Credentials,
    forceRecreate: bool)

  /** The database and schema a store is created for. */
  datatype StoreTarget = StoreTarget(dbName: string, schemaName: string)

  /** One call received by the database, with the answer it gave. */
  datatype Call =
    | CallOpen(connection: ConnectionInfo, failure: Option<Error>)
    | CallVerify(target: StoreTarget, models: seq<Model>, failure: Option<Error>)
    | CallMissingColumns(target: StoreTarget, models: seq<Model>, answer: Result<map<string, seq<Column>>>)
    | CallAutoMigrate(target: StoreTarget, missing: map<string, seq<Column>>, failure: Option<Error>)
    | CallCreateUserWithACL(target: StoreTarget, models: seq<Model>, username: string, password: string,
                            force: bool, user: Result<User>)

  /**
   The PostgreSQL server as seen through the connection library and the
   store driver. Every operation appends itself to the trace; what it answers
   is not determined by this model.
   */
  class Postgres {
    ghost var trace: seq<Call>

    constructor ()
      ensures trace == []
    {
      trace := [];
    }

    /** Opens a connection described by the connection settings; may fail. */
    method Open(connection: ConnectionInfo) returns (failure: Option<Error>)
      modifies this
      ensures trace == old(trace) + [CallOpen(connection, failure)]
    {
      failure :| true;
      trace := trace + [CallOpen(connection, failure)];
    }

    /** Strict check of the live schema against the models. */
    method Verify(target: StoreTarget, models: seq<Model>) returns (failure: Option<Error>)
      modifies this
      ensures trace == old(trace) + [CallVerify(target, models, failure)]
    {
      failure :| true;
      trace := trace + [CallVerify(target, models, failure)];
    }

    /** The columns of the models that the live schema lacks, by table name. */
    method MissingColumns(target: StoreTarget, models: seq<Model>)
      returns (answer: Result<map<string, seq<Column>>>)
      modifies this
      ensures trace == old(trace) + [CallMissingColumns(target, models, answer)]
    {
      answer :| true;
      trace := trace + [CallMissingColumns(target, models, answer)];
    }

    /** Adds the given missing columns and tables. */
    method AutoMigrate(target: StoreTarget, missing: map<string, seq<Column>>) returns (failure: Option<Error>)
      modifies this
      ensures trace == old(trace) + [CallAutoMigrate(target, missing, failure)]
    {
      failure :| true;
      trace := trace + [CallAutoMigrate(target, missing, failure)];
    }

    /** Creates (or, when forced, recreates) the restricted user with grants on the models' tables. */
    method CreateUserWithACL(target: StoreTarget, models: seq<Model>, username: string, password: string,
                             force: bool) returns (user: Result<User>)
      modifies this
      ensures trace == old(trace) + [CallCreateUserWithACL(target, models, username, password, force, user)]
    {
      user :| true;
      trace := trace + [CallCreateUserWithACL(target, models, username, password, force, user)];
    }
  }

  /** The store every PostgreSQL path creates: bound to the configured database and schema. */
  function Target(c: Config): StoreTarget
  {
    StoreTarget(c.connection.dbName, c.connection.dbSchemaName)
  }

  function ErrorOf<T>(r: Result<T>): Option<Error>
  {
    if r.Ok? then None else Some(r.error)
  }

  /** The calls appended to a trace that started as before. */
  ghost function Since(before: seq<Call>, after: seq<Call>): seq<Call>
    requires |before| <= |after|
  {
    after[|before|..]
  }

  // ---------------------------------------------------------------------
  // Model selection for auto-migration

  /** The models with AutoMigration set, in list order. */
  function AutoMigratable(ms: seq<Model>): seq<Model>
  {
    if ms == [] then []
    else
      var last := ms[|ms| - 1];
      AutoMigratable(ms[..|ms| - 1]) + (if last.autoMigration then [last] else [])
  }

  /**
   Exactly the flagged models are selected, each as often as it occurs in
   the configuration.
   */
  lemma {:induction false} AutoMigratableSelectsFlagged(ms: seq<Model>)
    ensures forall m | m in AutoMigratable(ms) :: m.autoMigration
    ensures forall m: Model :: multiset(AutoMigratable(ms))[m] == if m.autoMigration then multiset(ms)[m] else 0
  {
    if ms != [] {
      var p := ms[..|ms| - 1];
      AutoMigratableSelectsFlagged(p);
      assert ms == p + [ms[|ms| - 1]];
    }
  }

  /** Selection keeps the configured order: selecting from a concatenation concatenates. */
  lemma {:induction false} AutoMigratableKeepsOrder(a: seq<Model>, b: seq<Model>)
    ensures AutoMigratable(a + b) == AutoMigratable(a) + AutoMigratable(b)
  {
    if b == [] {
      assert a + b == a;
    } else {
      assert (a + b)[..|a + b| - 1] == a + b[..|b| - 1];
      assert (a + b)[|a + b| - 1] == b[|b| - 1];
      AutoMigratableKeepsOrder(a, b[..|b| - 1]);
    }
  }

  /** The selection is the whole list exactly when every model is flagged. */
  lemma {:induction false} AutoMigratableIsAllIffAllFlagged(ms: seq<Model>)
    ensures AutoMigratable(ms) == ms <==> forall m | m in ms :: m.autoMigration
  {
    if ms != [] {
      var p, last := ms[..|ms| - 1], ms[|ms| - 1];
      assert ms == p + [last];
      AutoMigratableIsAllIffAllFlagged(p);
      AutoMigratableSelectsFlagged(ms);
      if forall m | m in ms :: m.autoMigration {
        assert forall m | m in p :: m in ms;
      } else {
        var m :| m in ms && !m.autoMigration;
        assert multiset(AutoMigratable(ms))[m] == 0 < multiset(ms)[m];
      }
    }
  }

  // ---------------------------------------------------------------------
  // What each PostgreSQL path does to the database

  /** checkModelListPG: open, then verify every configured model. */
  ghost predicate CheckedPG(c: Config, t: seq<Call>, err: Option<Error>)
  {
    |t| >= 1 && t[0].CallOpen? && t[0].connection == c.connection &&
    if t[0].failure.Some? then t == [t[0]] && err == t[0].failure
    else t == [t[0], CallVerify(Target(c), c.modelList, err)]
  }

  /**
   autoMigrationPG: open, ask for the missing columns of the flagged models,
   then apply exactly that map; stop at the first failure.
   */
  ghost predicate MigratedPG(c: Config, t: seq<Call>, err: Option<Error>)
  {
    |t| >= 1 && t[0].CallOpen? && t[0].connection == c.connection &&
    if t[0].failure.Some? then t == [t[0]] && err == t[0].failure
    else
      |t| >= 2 && t[1].CallMissingColumns? && t[1].target == Target(c) &&
      t[1].models == AutoMigratable(c.modelList) &&
      if t[1].answer.Err? then t == [t[0], t[1]] && err == Some(t[1].answer.error)
      else t == [t[0], t[1], CallAutoMigrate(Target(c), t[1].answer.value, err)]
  }

  /**
   createUserWithACLPG: open, then ask the store for the user over the whole
   model list; an explicit forceCreate overrides the configured policy.
   */
  ghost predicate ProvisionedPG(c: Config, forceCreate: bool, t: seq<Call>, r: Result<User>)
  {
    |t| >= 1 && t[0].CallOpen? && t[0].connection == c.connection &&
    if t[0].failure.Some? then t == [t[0]] && r == Err(t[0].failure.value)
    else
      var force := if forceCreate then true else c.forceRecreate;
      t == [t[0], CallCreateUserWithACL(Target(c), c.modelList, c.userWithACL.username,
                                        c.userWithACL.password, force, r)]
  }

  /**
   Auto-migration succeeds exactly when the connection, the diff and the
   migration all succeed; the diff only ever sees the flagged models, and the
   migration is attempted only after a successful diff, with its very map.
   */
  lemma MigrationOutcome(c: Config, t: seq<Call>, err: Option<Error>)
    requires MigratedPG(c, t, err)
    ensures err.None? <==> |t| == 3 && t[0].failure.None? && t[1].answer.Ok? && t[2].failure.None?
    ensures forall i | 0 <= i < |t| && t[i].CallMissingColumns? :: t[i].models == AutoMigratable(c.modelList)
    ensures forall i | 0 <= i < |t| && t[i].CallAutoMigrate? ::
              i == 2 && t[1].CallMissingColumns? && t[1].answer == Ok(t[i].missing)
    ensures forall i | 0 <= i < |t| && t[i].CallVerify? :: false
  {
  }

  /**
   The strict check hands the store the whole model list, flagged or not,
   whereas the migration path hands it only the flagged ones; the two lists
   differ as soon as one model is not flagged.
   */
  lemma VerifySeesAllModels(c: Config, t: seq<Call>, err: Option<Error>, t': seq<Call>, err': Option<Error>)
    requires CheckedPG(c, t, err)
    requires MigratedPG(c, t', err')
    requires |t| == 2 && |t'| >= 2
    requires exists m | m in c.modelList :: !m.autoMigration
    ensures t[1].models == c.modelList
    ensures t'[1].models != t[1].models
  {
    AutoMigratableIsAllIffAllFlagged(c.modelList);
  }

  /** forceCreate wins over the configured ForceRecreate; otherwise the configuration decides. */
  lemma ForceCreateTakesPrecedence(c: Config, forceCreate: bool, t: seq<Call>, r: Result<User>)
    requires ProvisionedPG(c, forceCreate, t, r)
    requires |t| == 2
    ensures t[1].force == (forceCreate || c.forceRecreate)
    ensures t[1].models == c.modelList
    ensures t[1].username == c.userWithACL.username && t[1].password == c.userWithACL.password
    ensures r == t[1].user
  {
  }

  // ---------------------------------------------------------------------
  // The orchestration

  /**
   Reads the configuration and, when VerifyConfig is set, checks it against
   the database before handing it out. `read` is what the reader returned.
   */
  method NewConfig(read: Result<Config>, pg: Postgres) returns (r: Result<Config>)
    modifies pg
    ensures |old(pg.trace)| <= |pg.trace| && pg.trace[..|old(pg.trace)|] == old(pg.trace)
    ensures read.Err? ==> r == read && pg.trace == old(pg.trace)
    ensures read.Ok? && !read.value.verifyConfig ==> r == read && pg.trace == old(pg.trace)
    ensures read.Ok? && read.value.verifyConfig ==>
              (r.Ok? ==> r == read) &&
              var c := read.value;
              if c.connection.dbType == PgDriver then CheckedPG(c, Since(old(pg.trace), pg.trace), ErrorOf(r))
              else pg.trace == old(pg.trace) && r == Err(Error(CheckUnsupportedPrefix + c.connection.dbType))
  {
    if read.Err? {
      return read;
    }
    var cfg := read.value;
    if cfg.verifyConfig {
      var err := CheckConfig(cfg, pg);
      if err.Some? {
        return Err(err.value);
      }
    }
    return Ok(cfg);
  }

  /** checkConfig: the model-list check is the whole check. */
  method CheckConfig(c: Config, pg: Postgres) returns (err: Option<Error>)
    modifies pg
    ensures |old(pg.trace)| <= |pg.trace| && pg.trace[..|old(pg.trace)|] == old(pg.trace)
    ensures c.connection.dbType == PgDriver ==> CheckedPG(c, Since(old(pg.trace), pg.trace), err)
    ensures c.connection.dbType != PgDriver ==>
              pg.trace == old(pg.trace) && err == Some(Error(CheckUnsupportedPrefix + c.connection.dbType))
  {
    err := CheckModelList(c, pg);
  }

  /** Dispatches the model-list check on the database type. */
  method CheckModelList(c: Config, pg: Postgres) returns (err: Option<Error>)
    modifies pg
    ensures |old(pg.trace)| <= |pg.trace| && pg.trace[..|old(pg.trace)|] == old(pg.trace)
    ensures c.connection.dbType == PgDriver ==> CheckedPG(c, Since(old(pg.trace), pg.trace), err)
    ensures c.connection.dbType != PgDriver ==>
              pg.trace == old(pg.trace) && err == Some(Error(CheckUnsupportedPrefix + c.connection.dbType))
  {
    if c.connection.dbType == PgDriver {
      err := CheckModelListPG(c, pg);
    } else {
      err := Some(Error(CheckUnsupportedPrefix + c.connection.dbType));
    }
  }

  method CheckModelListPG(c: Config, pg: Postgres) returns (err: Option<Error>)
    modifies pg
    ensures |old(pg.trace)| <= |pg.trace| && pg.trace[..|old(pg.trace)|] == old(pg.trace)
    ensures CheckedPG(c, Since(old(pg.trace), pg.trace), err)
  {
    var failure := pg.Open(c.connection);
    if failure.Some? {
      return failure;
    }
    err := pg.Verify(Target(c), c.modelList);
  }

  /** Dispatches user provisioning on the database type. */
  method CreateUserWithACL(cfg: Config, forceCreate: bool, pg: Postgres) returns (r: Result<User>)
    modifies pg
    ensures |old(pg.trace)| <= |pg.trace| && pg.trace[..|old(pg.trace)|] == old(pg.trace)
    ensures cfg.connection.dbType == PgDriver ==>
              ProvisionedPG(cfg, forceCreate, Since(old(pg.trace), pg.trace), r)
    ensures cfg.connection.dbType != PgDriver ==>
              pg.trace == old(pg.trace) && r == Err(Error(UnsupportedPrefix + cfg.connection.dbType))
  {
    if cfg.connection.dbType == PgDriver {
      r := CreateUserWithACLPG(cfg, forceCreate, pg);
    } else {
      r := Err(Error(UnsupportedPrefix + cfg.connection.dbType));
    }
  }

  method CreateUserWithACLPG(cfg: Config, forceCreate: bool, pg: Postgres) returns (r: Result<User>)
    modifies pg
    ensures |old(pg.trace)| <= |pg.trace| && pg.trace[..|old(pg.trace)|] == old(pg.trace)
    ensures ProvisionedPG(cfg, forceCreate, Since(old(pg.trace), pg.trace), r)
  {
    var failure := pg.Open(cfg.connection);
    if failure.Some? {
      return Err(failure.value);
    }
    var target := Target(cfg);
    if forceCreate {
      r := pg.CreateUserWithACL(target, cfg.modelList, cfg.userWithACL.username, cfg.userWithACL.password, true);
      return;
    }
    r := pg.CreateUserWithACL(target, cfg.modelList, cfg.userWithACL.username, cfg.userWithACL.password,
                              cfg.forceRecreate);
  }

  /** Dispatches auto-migration on the database type. */
  method AutoMigrate(cfg: Config, pg: Postgres) returns (err: Option<Error>)
    modifies pg
    ensures |old(pg.trace)| <= |pg.trace| && pg.trace[..|old(pg.trace)|] == old(pg.trace)
    ensures cfg.connection.dbType == PgDriver ==> MigratedPG(cfg, Since(old(pg.trace), pg.trace), err)
    ensures cfg.connection.dbType != PgDriver ==>
              pg.trace == old(pg.trace) && err == Some(Error(UnsupportedPrefix + cfg.connection.dbType))
  {
    if cfg.connection.dbType == PgDriver {
      err := AutoMigrationPG(cfg, pg);
    } else {
      err := Some(Error(UnsupportedPrefix + cfg.connection.dbType));
    }
  }

  method AutoMigrationPG(cfg: Config, pg: Postgres) returns (err: Option<Error>)
    modifies pg
    ensures |old(pg.trace)| <= |pg.trace| && pg.trace[..|old(pg.trace)|] == old(pg.trace)
    ensures MigratedPG(cfg, Since(old(pg.trace), pg.trace), err)
  {
    var failure := pg.Open(cfg.connection);
    if failure.Some? {
      return failure;
    }

    var models: seq<Model> := [];
    for i := 0 to |cfg.modelList|
      invariant models == AutoMigratable(cfg.modelList[..i])
    {
      assert cfg.modelList[..i + 1][..i] == cfg.modelList[..i];
      if cfg.modelList[i].autoMigration {
        models := models + [cfg.modelList[i]];
      }
    }
    assert cfg.modelList[..|cfg.modelList|] == cfg.modelList;

    var target := Target(cfg);
    var missing := pg.MissingColumns(target, models);
    if missing.Err? {
      return Some(missing.error);
    }

    err := pg.AutoMigrate(target, missing.value);
    if err.Some? {
      return err;
    }
    return None;
  }
}
