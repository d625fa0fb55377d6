/**
 The declared schema: connection settings, the restricted account, tables
 (models) and their columns, and the three helpers that regroup columns.
 */
module Database {

  /** Where the target database is and how to reach it. */
  datatype ConnectionInfo = ConnectionInfo(
    dbType: string,
    dbUsername: string,
    dbPassword: string,
    dbName: string,
    dbSSLModeOption: string,
    dbHostname: string,
    dbPort: string,
    dbEnvironment: string,
    dbSchemaName: string)

  /** The restricted user that manages the tables of the model list. */
  datatype ExecutiveAccount = ExecutiveAccount(userName: string, password: string, forceRecreate: bool)

  /** One declared column of a table. */
  datatype Column = Column(
    name: string,
    dataType: string,
    tags: string,
    isNullable: bool,
    isPrimary: bool,
    defaultValue: string)

  /** One declared table; autoMigration lets the agent add what is missing. */
  datatype Model = Model(
    tableName: string,
    columns: seq<Column>,
    autoMigration: bool,
    displayName: string,
    nameDisplayColumn: string)

  /** The keys of a set of groups listed once each, in some order. */
  predicate Enumerates(ks: seq<string>, keys: set<string>)
  {
    (forall i, j | 0 <= i < j < |ks| :: ks[i] != ks[j]) &&
    (forall i | 0 <= i < |ks| :: ks[i] in keys) &&
    (forall k | k in keys :: k in ks)
  }

  // ---------------------------------------------------------------------
  // Models.ColumnsByTableName

  /** Every table name that occurs in the model list. */
  function TableNames(ms: seq<Model>): set<string>
  {
    set m | m in ms :: m.tableName
  }

  /** The columns of every model named t, concatenated in list order. */
  function ColumnsOf(ms: seq<Model>, t: string): seq<Column>
  {
    if ms == [] then []
    else
      var last := ms[|ms| - 1];
      ColumnsOf(ms[..|ms| - 1], t) + (if last.tableName == t then last.columns else [])
  }

  /** All columns of the model list, in list order. */
  function AllColumns(ms: seq<Model>): seq<Column>
  {
    if ms == [] then [] else AllColumns(ms[..|ms| - 1]) + ms[|ms| - 1].columns
  }

  /** The sum of len(m.Columns) over the model list. */
  function ColumnCount(ms: seq<Model>): nat
  {
    if ms == [] then 0 else ColumnCount(ms[..|ms| - 1]) + |ms[|ms| - 1].columns|
  }

  /** The groups of the tables ks, one after the other. */
  function Regrouped(ms: seq<Model>, ks: seq<string>): seq<Column>
  {
    if ks == [] then [] else ColumnsOf(ms, ks[0]) + Regrouped(ms, ks[1..])
  }

  /**
   Builds the map from table name to the columns of the models with that
   name: the first model with a name starts its group, later ones append.
   */
  method ColumnsByTableName(ms: seq<Model>) returns (res: map<string, seq<Column>>)
    ensures res.Keys == TableNames(ms)
    ensures forall t | t in res :: res[t] == ColumnsOf(ms, t)
  {
    res := map[];
    for i := 0 to |ms|
      invariant res.Keys == TableNames(ms[..i])
      invariant forall t | t in res :: res[t] == ColumnsOf(ms[..i], t)
    {
      var m := ms[i];
      assert ms[..i + 1][..i] == ms[..i];
      if m.tableName in res {
        res := res[m.tableName := res[m.tableName] + m.columns];
      } else {
        ColumnsOfAbsent(ms[..i], m.tableName);
        res := res[m.tableName := m.columns];
      }
    }
    assert ms[..|ms|] == ms;
  }

  /** A table name that no model carries has an empty group. */
  lemma {:induction false} ColumnsOfAbsent(ms: seq<Model>, t: string)
    requires t !in TableNames(ms)
    ensures ColumnsOf(ms, t) == []
  {
    if ms != [] {
      assert TableNames(ms[..|ms| - 1]) <= TableNames(ms);
      ColumnsOfAbsent(ms[..|ms| - 1], t);
    }
  }

  /** Grouping a split list gives the first part's group followed by the second's. */
  lemma {:induction false} ColumnsOfConcat(a: seq<Model>, b: seq<Model>, t: string)
    ensures ColumnsOf(a + b, t) == ColumnsOf(a, t) + ColumnsOf(b, t)
  {
    if b != [] {
      assert (a + b)[..|a + b| - 1] == a + b[..|b| - 1];
      assert (a + b)[|a + b| - 1] == b[|b| - 1];
      ColumnsOfConcat(a, b[..|b| - 1], t);
    } else {
      assert a + b == a;
    }
  }

  /**
   The first model of a name initialises its group and a later model of the
   same name appends to it: it never replaces what is already there.
   */
  lemma GroupStartsWithFirstAndAppends(m: Model, rest: seq<Model>, later: Model)
    ensures ColumnsOf([m], m.tableName) == m.columns
    ensures ColumnsOf([m] + rest, m.tableName) == m.columns + ColumnsOf(rest, m.tableName)
    ensures ColumnsOf([m] + rest + [later], later.tableName)
         == ColumnsOf([m] + rest, later.tableName) + later.columns
  {
    assert [m][..0] == [];
    ColumnsOfConcat([m], rest, m.tableName);
    assert ([m] + rest + [later])[..|[m] + rest|] == [m] + rest;
  }

  /** An empty model list groups to nothing; one model groups to its own columns. */
  lemma GroupsOfEmptyAndSingle(m: Model)
    ensures TableNames([]) == {}
    ensures TableNames([m]) == {m.tableName}
    ensures ColumnsOf([m], m.tableName) == m.columns
  {
  }

  lemma {:induction false} AllColumnsCount(ms: seq<Model>)
    ensures |AllColumns(ms)| == ColumnCount(ms)
  {
    if ms != [] {
      AllColumnsCount(ms[..|ms| - 1]);
    }
  }

  /** The columns of the models whose table is one of ks, in list order. */
  function ColumnsIn(ms: seq<Model>, ks: seq<string>): seq<Column>
  {
    if ms == [] then []
    else
      var last := ms[|ms| - 1];
      ColumnsIn(ms[..|ms| - 1], ks) + (if last.tableName in ks then last.columns else [])
  }

  /** Adding a new table to ks adds exactly its group. */
  lemma {:induction false} ColumnsInWith(ms: seq<Model>, k: string, ks: seq<string>)
    requires k !in ks
    ensures multiset(ColumnsIn(ms, [k] + ks)) == multiset(ColumnsOf(ms, k)) + multiset(ColumnsIn(ms, ks))
  {
    if ms != [] {
      ColumnsInWith(ms[..|ms| - 1], k, ks);
    }
  }

  /** Selecting every table that occurs selects every column. */
  lemma {:induction false} ColumnsInAll(ms: seq<Model>, ks: seq<string>)
    requires forall m | m in ms :: m.tableName in ks
    ensures ColumnsIn(ms, ks) == AllColumns(ms)
  {
    if ms != [] {
      ColumnsInAll(ms[..|ms| - 1], ks);
    }
  }

  /** The groups of distinct tables ks hold exactly the columns of those tables. */
  lemma {:induction false} RegroupedIsColumnsIn(ms: seq<Model>, ks: seq<string>)
    requires forall i, j | 0 <= i < j < |ks| :: ks[i] != ks[j]
    ensures multiset(Regrouped(ms, ks)) == multiset(ColumnsIn(ms, ks))
  {
    if ks == [] {
      ColumnsInNone(ms);
    } else {
      RegroupedIsColumnsIn(ms, ks[1..]);
      assert ks[0] !in ks[1..];
      assert ks == [ks[0]] + ks[1..];
      ColumnsInWith(ms, ks[0], ks[1..]);
    }
  }

  lemma {:induction false} ColumnsInNone(ms: seq<Model>)
    ensures ColumnsIn(ms, []) == []
  {
    if ms != [] {
      ColumnsInNone(ms[..|ms| - 1]);
    }
  }

  /**
   No column is lost or duplicated: the groups of all table names, taken in
   any order, hold exactly the columns of all models, and their lengths add
   up to the sum of len(m.Columns).
   */
  lemma GroupsPartitionColumns(ms: seq<Model>, ks: seq<string>)
    requires Enumerates(ks, TableNames(ms))
    ensures multiset(Regrouped(ms, ks)) == multiset(AllColumns(ms))
    ensures |Regrouped(ms, ks)| == ColumnCount(ms)
  {
    RegroupedIsColumnsIn(ms, ks);
    assert forall m | m in ms :: m.tableName in TableNames(ms);
    ColumnsInAll(ms, ks);
    AllColumnsCount(ms);
    assert |multiset(Regrouped(ms, ks))| == |multiset(AllColumns(ms))|;
  }

  // ---------------------------------------------------------------------
  // Columns.GroupByName

  /** Every column name that occurs in the list. */
  function ColumnNames(cols: seq<Column>): set<string>
  {
    set c | c in cols :: c.name
  }

  /** The columns named n, in list order. */
  function Named(cols: seq<Column>, n: string): seq<Column>
  {
    if cols == [] then []
    else
      var last := cols[|cols| - 1];
      Named(cols[..|cols| - 1], n) + (if last.name == n then [last] else [])
  }

  /** The groups of the names ks, one after the other. */
  function NameGroups(cols: seq<Column>, ks: seq<string>): seq<Column>
  {
    if ks == [] then [] else Named(cols, ks[0]) + NameGroups(cols, ks[1..])
  }

  /** Buckets the columns by name, each bucket in list order. */
  method GroupByName(cols: seq<Column>) returns (res: map<string, seq<Column>>)
    ensures res.Keys == ColumnNames(cols)
    ensures forall n | n in res :: res[n] == Named(cols, n)
  {
    res := map[];
    for i := 0 to |cols|
      invariant res.Keys == ColumnNames(cols[..i])
      invariant forall n | n in res :: res[n] == Named(cols[..i], n)
    {
      var col := cols[i];
      assert cols[..i + 1][..i] == cols[..i];
      if col.name in res {
        res := res[col.name := res[col.name] + [col]];
      } else {
        NamedAbsent(cols[..i], col.name);
        res := res[col.name := [col]];
      }
    }
    assert cols[..|cols|] == cols;
  }

  lemma {:induction false} NamedAbsent(cols: seq<Column>, n: string)
    requires n !in ColumnNames(cols)
    ensures Named(cols, n) == []
  {
    if cols != [] {
      assert ColumnNames(cols[..|cols| - 1]) <= ColumnNames(cols);
      NamedAbsent(cols[..|cols| - 1], n);
    }
  }

  /**
   Each bucket holds only columns of its name, and every column of that name
   as often as it occurs in the input; so a bucket of an occurring name is
   never empty.
   */
  lemma {:induction false} NamedGroupIsExact(cols: seq<Column>, n: string)
    ensures forall c | c in Named(cols, n) :: c.name == n
    ensures forall c: Column | c.name == n :: multiset(Named(cols, n))[c] == multiset(cols)[c]
    ensures n in ColumnNames(cols) ==> |Named(cols, n)| > 0
  {
    if cols != [] {
      var p := cols[..|cols| - 1];
      NamedGroupIsExact(p, n);
      assert cols == p + [cols[|cols| - 1]];
      assert n in ColumnNames(cols) && n !in ColumnNames(p) ==> cols[|cols| - 1].name == n;
    }
  }

  /** The columns whose name is one of ks, in list order. */
  function NamedIn(cols: seq<Column>, ks: seq<string>): seq<Column>
  {
    if cols == [] then []
    else
      var last := cols[|cols| - 1];
      NamedIn(cols[..|cols| - 1], ks) + (if last.name in ks then [last] else [])
  }

  lemma {:induction false} NamedInWith(cols: seq<Column>, k: string, ks: seq<string>)
    requires k !in ks
    ensures multiset(NamedIn(cols, [k] + ks)) == multiset(Named(cols, k)) + multiset(NamedIn(cols, ks))
  {
    if cols != [] {
      NamedInWith(cols[..|cols| - 1], k, ks);
    }
  }

  lemma {:induction false} NamedInAll(cols: seq<Column>, ks: seq<string>)
    requires forall c | c in cols :: c.name in ks
    ensures NamedIn(cols, ks) == cols
  {
    if cols != [] {
      NamedInAll(cols[..|cols| - 1], ks);
      assert cols == cols[..|cols| - 1] + [cols[|cols| - 1]];
    }
  }

  lemma {:induction false} NamedInNone(cols: seq<Column>)
    ensures NamedIn(cols, []) == []
  {
    if cols != [] {
      NamedInNone(cols[..|cols| - 1]);
    }
  }

  lemma {:induction false} NameGroupsIsNamedIn(cols: seq<Column>, ks: seq<string>)
    requires forall i, j | 0 <= i < j < |ks| :: ks[i] != ks[j]
    ensures multiset(NameGroups(cols, ks)) == multiset(NamedIn(cols, ks))
  {
    if ks == [] {
      NamedInNone(cols);
    } else {
      NameGroupsIsNamedIn(cols, ks[1..]);
      assert ks[0] !in ks[1..];
      assert ks == [ks[0]] + ks[1..];
      NamedInWith(cols, ks[0], ks[1..]);
    }
  }

  /**
   The buckets of all names, taken in any order, hold exactly the input
   columns; their sizes add up to len(cols).
   */
  lemma NameGroupsPartitionColumns(cols: seq<Column>, ks: seq<string>)
    requires Enumerates(ks, ColumnNames(cols))
    ensures multiset(NameGroups(cols, ks)) == multiset(cols)
    ensures |NameGroups(cols, ks)| == |cols|
  {
    NameGroupsIsNamedIn(cols, ks);
    assert forall c | c in cols :: c.name in ColumnNames(cols);
    NamedInAll(cols, ks);
    assert |multiset(NameGroups(cols, ks))| == |multiset(cols)|;
  }

  // ---------------------------------------------------------------------
  // Columns.Names

  /** The names of the columns, position by position. */
  method Names(cols: seq<Column>) returns (res: seq<string>)
    ensures |res| == |cols|
    ensures forall i | 0 <= i < |cols| :: res[i] == cols[i].name
  {
    res := [];
    for i := 0 to |cols|
      invariant |res| == i
      invariant forall j | 0 <= j < i :: res[j] == cols[j].name
    {
      res := res + [cols[i].name];
    }
  }
}
