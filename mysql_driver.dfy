/**
  The MySQL driver (src/drivers/mysql/MySQLDriver.ts): its connected state,
  the shaping of statement answers into QueryResults, the transaction
  loop, the schema snapshot and the narrower catalog accessors.
 */
module MySQL {
  import opened Types
  import opened Seqs
  import opened Wire
  import opened Catalog

  const NoActiveConnection := "Não há conexão ativa"
  const NoDatabaseSpecified := "Nenhum banco de dados especificado"
  const ConnectErrorPrefix := "Erro ao conectar ao MySQL: "
  /** What the engine throws when `fields.map` is applied to an undefined field list. */
  const FieldsUndefined := "Cannot read properties of undefined (reading 'map')"

  const MySQLConfig := DriverConfig(
    "MySQL", "8.0", ["5.7", "8.0"],
    [Transactions, StoredProcedures, Views, Triggers, ForeignKeys, Indexes, Ssl, Pooling])

  // ---------------------------------------------------------------------
  // Connecting

  /** What `connect` and `testConnection` throw when anything in their try block throws. */
  function ConnectFailure(cause: Thrown): (t: Thrown)
    ensures t.ThrownError? && t.message == ConnectErrorPrefix + ErrorText(cause)
  {
    ThrownError(ConnectErrorPrefix + ErrorText(cause))
  }

  /** What `testConnection` yields once the throwaway handle exists: `true` when both `ping`
      and `end` return, otherwise the wrapped error of the first that throws. */
  function PingOutcome(srv: Server): (r: Result<bool, Thrown>)
    ensures r.Ok? <==> srv.control(Ping).None? && srv.control(End).None?
    ensures r.Ok? ==> r.value
    ensures srv.control(Ping).Some? ==> r == Err(ConnectFailure(srv.control(Ping).value))
    ensures srv.control(Ping).None? && srv.control(End).Some? ==> r == Err(ConnectFailure(srv.control(End).value))
  {
    if srv.control(Ping).Some? then Err(ConnectFailure(srv.control(Ping).value))
    else if srv.control(End).Some? then Err(ConnectFailure(srv.control(End).value))
    else Ok(true)
  }

  // ---------------------------------------------------------------------
  // Result shaping

  /** `Array.isArray(rows) ? rows.length : 0` */
  function RowCount(rows: RowData): nat {
    match rows
    case RowList(items) => |items|
    case ResultHeader(_, _) => 0
  }

  /** The value `executeQuery` returns for one answer of `execute`: a statement failure becomes
      data, with the error text and no columns or rows. */
  function ResultOf(out: ExecOutcome): (r: QueryResult)
    ensures r.error.Some? ==> r.columns == [] && r.rows == RowList([]) && r.rowCount == 0
    ensures r.error.None? <==> out.Executed? && out.fields.Some?
    ensures r.error.None? ==>
      r.columns == out.fields.value && r.rows == out.rows &&
      r.rowCount == (if out.rows.RowList? then |out.rows.items| else 0)
    ensures out.ExecFailed? ==> r.error == Some(ErrorText(out.thrown))
    ensures r.executionTime == out.elapsed
  {
    match out
    case Executed(fields, rows, t) =>
      if fields.Some? then QueryResult(fields.value, rows, RowCount(rows), t, None)
      else QueryResult([], RowList([]), 0, t, Some(FieldsUndefined))
    case ExecFailed(e, t) => QueryResult([], RowList([]), 0, t, Some(ErrorText(e)))
  }

  /** `if (result.error)`: an error text that is present and not empty. */
  predicate Failed(r: QueryResult) {
    Truthy(r.error)
  }

  // ---------------------------------------------------------------------
  // Transaction specification

  function StatementFails(srv: Server): string -> bool {
    q => Failed(ResultOf(srv.execute(q, [])))
  }

  /** The number of statements sent: all of them, or up to and including the first that fails. */
  function TxnSent(srv: Server, queries: seq<string>): nat {
    var k := FirstIndex(queries, StatementFails(srv));
    if k == -1 then |queries| else k + 1
  }

  function StatementCalls(queries: seq<string>): seq<WireCall> {
    seq(|queries|, i requires 0 <= i < |queries| => Statement(queries[i], []))
  }

  function ResultsOf(srv: Server, queries: seq<string>): seq<QueryResult> {
    seq(|queries|, i requires 0 <= i < |queries| => ResultOf(srv.execute(queries[i], [])))
  }

  /** The wire calls of `executeTransaction` on a connected driver. */
  function TxnCalls(srv: Server, queries: seq<string>): seq<WireCall> {
    if srv.control(Begin).Some? then [ControlCall(Begin), ControlCall(Rollback)]
    else
      var n := TxnSent(srv, queries);
      var sent := [ControlCall(Begin)] + StatementCalls(queries[..n]);
      if FirstIndex(queries, StatementFails(srv)) != -1 then sent + [ControlCall(Rollback)]
      else if srv.control(Commit).Some? then sent + [ControlCall(Commit), ControlCall(Rollback)]
      else sent + [ControlCall(Commit)]
  }

  /** The outcome of `executeTransaction` on a connected driver: the results of every statement
      when all succeed and the commit goes through; otherwise what the catch block rethrows
      (or what `rollback` throws instead). */
  function TxnOutcome(srv: Server, queries: seq<string>): Result<seq<QueryResult>, Thrown> {
    var rollback := srv.control(Rollback);
    if srv.control(Begin).Some? then Err(if rollback.Some? then rollback.value else srv.control(Begin).value)
    else
      var k := FirstIndex(queries, StatementFails(srv));
      if k != -1 then
        Err(if rollback.Some? then rollback.value
            else ThrownError(ResultOf(srv.execute(queries[k], [])).error.value))
      else if srv.control(Commit).Some? then
        Err(if rollback.Some? then rollback.value else srv.control(Commit).value)
      else
        Ok(ResultsOf(srv, queries))
  }

  /** Commit is sent only when the transaction began and every statement succeeded. */
  lemma CommitOnlyIfAllSucceed(srv: Server, queries: seq<string>)
    ensures ControlCall(Commit) in TxnCalls(srv, queries) <==>
      srv.control(Begin).None? &&
      forall i :: 0 <= i < |queries| ==> !Failed(ResultOf(srv.execute(queries[i], [])))
  {
    var calls := TxnCalls(srv, queries);
    if srv.control(Begin).None? {
      var n := TxnSent(srv, queries);
      assert forall c :: c in StatementCalls(queries[..n]) ==> c.Statement?;
      var k := FirstIndex(queries, StatementFails(srv));
      if k != -1 {
        assert StatementFails(srv)(queries[k]);
      }
    }
  }

  /** A failing statement aborts the transaction: nothing after it is sent, it is rolled back,
      no commit is sent, and the statement's error text is what the caller sees (unless the
      rollback itself throws). */
  lemma FailingStatementRollsBack(srv: Server, queries: seq<string>, k: nat)
    requires srv.control(Begin).None?
    requires k < |queries| && Failed(ResultOf(srv.execute(queries[k], [])))
    requires forall j :: 0 <= j < k ==> !Failed(ResultOf(srv.execute(queries[j], [])))
    ensures TxnCalls(srv, queries) ==
      [ControlCall(Begin)] + StatementCalls(queries[..k + 1]) + [ControlCall(Rollback)]
    ensures TxnOutcome(srv, queries).Err?
    ensures srv.control(Rollback).None? ==>
      TxnOutcome(srv, queries) == Err(ThrownError(ResultOf(srv.execute(queries[k], [])).error.value))
  {
    assert StatementFails(srv)(queries[k]);
    forall j | 0 <= j < k ensures !StatementFails(srv)(queries[j]) {
    }
    assert FirstIndex(queries, StatementFails(srv)) == k;
  }

  /** A transaction returns results only when all statements succeeded, and then returns one
      result per statement, in statement order. */
  lemma TxnOkMeansAllSucceeded(srv: Server, queries: seq<string>)
    requires TxnOutcome(srv, queries).Ok?
    ensures var rs := TxnOutcome(srv, queries).value;
      && |rs| == |queries|
      && (forall i :: 0 <= i < |queries| ==> rs[i] == ResultOf(srv.execute(queries[i], [])) && !Failed(rs[i]))
      && TxnCalls(srv, queries) == [ControlCall(Begin)] + StatementCalls(queries) + [ControlCall(Commit)]
  {
    assert FirstIndex(queries, StatementFails(srv)) == -1;
    forall i | 0 <= i < |queries| ensures !Failed(ResultOf(srv.execute(queries[i], []))) {
      assert !StatementFails(srv)(queries[i]);
    }
    assert queries[..|queries|] == queries;
  }

  // ---------------------------------------------------------------------
  // Catalog specification

  /** `database || this.currentConnection?.database` */
  function ResolveDatabase(database: Option<string>, current: Option<DatabaseConnection>): Option<string> {
    OrElse(database, if current.Some? then Some(current.value.database) else None)
  }

  /** `getTables(database)`; SHOW TABLES lists the session's current database whatever
      `database` names. */
  function TablesOf(srv: Server, current: Option<DatabaseConnection>, database: Option<string>): Result<seq<string>, Thrown> {
    if !Truthy(ResolveDatabase(database, current)) then Err(ThrownError(NoDatabaseSpecified))
    else srv.showTables
  }

  /** `getTableInfo(table, database)` */
  function TableInfoOf(srv: Server, current: Option<DatabaseConnection>, table: string, database: Option<string>): Result<TableInfo, Thrown> {
    var db := ResolveDatabase(database, current);
    if !Truthy(db) then Err(ThrownError(NoDatabaseSpecified))
    else
      match srv.columns(db.value, table)
      case Err(e) => Err(e)
      case Ok(cols) =>
        match srv.statistics(db.value, table)
        case Err(e) => Err(e)
        case Ok(idx) =>
          match srv.keyColumnUsage(db.value, table)
          case Err(e) => Err(e)
          case Ok(fks) => Ok(TableInfo(table, ColumnInfos(cols), GroupedIndexes(idx), ForeignKeyInfos(fks)))
  }

  function TableStep(srv: Server, current: Option<DatabaseConnection>, db: string): string -> Result<TableInfo, Thrown> {
    t => TableInfoOf(srv, current, t, Some(db))
  }

  /** One DatabaseInfo of `getSchema`: its tables, with views and procedures left empty. */
  function DatabaseInfoOf(srv: Server, current: Option<DatabaseConnection>, db: string): Result<DatabaseInfo, Thrown> {
    match TablesOf(srv, current, Some(db))
    case Err(e) => Err(e)
    case Ok(tables) =>
      match Traverse(tables, TableStep(srv, current, db))
      case Err(e) => Err(e)
      case Ok(infos) => Ok(DatabaseInfo(db, infos, [], []))
  }

  function DatabaseStep(srv: Server, current: Option<DatabaseConnection>): string -> Result<DatabaseInfo, Thrown> {
    db => DatabaseInfoOf(srv, current, db)
  }

  /** `this.currentConnection?.database || ''` */
  function CurrentDatabaseName(current: Option<DatabaseConnection>): string {
    if current.Some? then current.value.database else ""
  }

  /** `getSchema()` on a connected driver. */
  function SchemaOf(srv: Server, current: Option<DatabaseConnection>): Result<DatabaseSchema, Thrown> {
    match srv.showDatabases
    case Err(e) => Err(e)
    case Ok(dbs) =>
      match Traverse(dbs, DatabaseStep(srv, current))
      case Err(e) => Err(e)
      case Ok(infos) => Ok(DatabaseSchema(infos, CurrentDatabaseName(current)))
  }

  /** A snapshot holds one DatabaseInfo per listed database, in listing order; each holds one
      TableInfo per listed table, in order, as `getTableInfo` builds it for that database, and
      no views or procedures; `currentDatabase` is the profile's database or ''. */
  lemma SchemaShape(srv: Server, current: Option<DatabaseConnection>)
    requires SchemaOf(srv, current).Ok?
    ensures srv.showDatabases.Ok?
    ensures var schema := SchemaOf(srv, current).value;
      var dbs := srv.showDatabases.value;
      && schema.currentDatabase == CurrentDatabaseName(current)
      && |schema.databases| == |dbs|
      && forall i :: 0 <= i < |dbs| ==>
           && srv.showTables.Ok?
           && schema.databases[i].name == dbs[i]
           && schema.databases[i].views == []
           && schema.databases[i].procedures == []
           && |schema.databases[i].tables| == |srv.showTables.value|
           && forall j :: 0 <= j < |srv.showTables.value| ==>
                TableInfoOf(srv, current, srv.showTables.value[j], Some(dbs[i])) == Ok(schema.databases[i].tables[j])
  {
    var dbs := srv.showDatabases.value;
    TraverseOk(dbs, DatabaseStep(srv, current));
    var infos := Traverse(dbs, DatabaseStep(srv, current)).value;
    forall i | 0 <= i < |dbs|
      ensures srv.showTables.Ok?
      ensures infos[i].name == dbs[i] && infos[i].views == [] && infos[i].procedures == []
      ensures |infos[i].tables| == |srv.showTables.value|
      ensures forall j :: 0 <= j < |srv.showTables.value| ==>
        TableInfoOf(srv, current, srv.showTables.value[j], Some(dbs[i])) == Ok(infos[i].tables[j])
    {
      assert DatabaseStep(srv, current)(dbs[i]) == Ok(infos[i]);
      var tables := TablesOf(srv, current, Some(dbs[i])).value;
      TraverseOk(tables, TableStep(srv, current, dbs[i]));
      forall j | 0 <= j < |tables|
        ensures TableInfoOf(srv, current, tables[j], Some(dbs[i])) == Ok(infos[i].tables[j])
      {
        assert TableStep(srv, current, dbs[i])(tables[j]) == Ok(infos[i].tables[j]);
      }
    }
  }

  // ---------------------------------------------------------------------
  // formatQuery

  /** The characters `String.prototype.trim` removes: ECMAScript white space (tab, vertical
      tab, form feed, space, no-break space, byte order mark and the other space separators)
      and line terminators. */
  predicate IsTrimmable(c: char) {
    c == '\t' || c == '\U{000B}' || c == '\U{000C}' || c == ' ' || c == '\U{00A0}' || c == '\U{FEFF}' ||
    c == '\U{1680}' || ('\U{2000}' <= c <= '\U{200A}') || c == '\U{202F}' || c == '\U{205F}' || c == '\U{3000}' ||
    c == '\n' || c == '\r' || c == '\U{2028}' || c == '\U{2029}'
  }

  function TrimStart(s: string): (r: string)
    ensures |r| <= |s| && r == s[|s| - |r|..]
    ensures r == [] || !IsTrimmable(r[0])
    ensures forall i :: 0 <= i < |s| - |r| ==> IsTrimmable(s[i])
  {
    if s != [] && IsTrimmable(s[0]) then TrimStart(s[1..]) else s
  }

  function TrimEnd(s: string): (r: string)
    ensures |r| <= |s| && r == s[..|r|]
    ensures r == [] || !IsTrimmable(r[|r| - 1])
    ensures forall i :: |r| <= i < |s| ==> IsTrimmable(s[i])
  {
    if s != [] && IsTrimmable(s[|s| - 1]) then TrimEnd(s[..|s| - 1]) else s
  }

  /** `formatQuery(query)` is `query.trim()`: the input with the whitespace around it removed. */
  function FormatQuery(query: string): (r: string)
    ensures r == [] || (!IsTrimmable(r[0]) && !IsTrimmable(r[|r| - 1]))
    ensures exists i, j :: (0 <= i <= j <= |query| && r == query[i..j] &&
      (forall k :: 0 <= k < i ==> IsTrimmable(query[k])) &&
      (forall k :: j <= k < |query| ==> IsTrimmable(query[k])))
  {
    var t := TrimStart(query);
    var r := TrimEnd(t);
    var i := |query| - |t|;
    assert r == query[i..i + |r|];
    r
  }

  /** Formatting twice is formatting once. */
  lemma FormatQueryIdempotent(query: string)
    ensures FormatQuery(FormatQuery(query)) == FormatQuery(query)
  {
    var r := FormatQuery(query);
    if r != [] {
      assert TrimStart(r) == r;
      assert TrimEnd(r) == r;
    }
  }

  // ---------------------------------------------------------------------
  // The driver

  datatype ServerInfo = ServerInfo(version: Option<string>, maxConnections: Option<string>, config: DriverConfig)

  /** An instance built by a registered driver constructor; `driverClass` records which. */
  class Driver {
    const driverClass: DriverClass
    var connection: Handle?
    var currentConnection: Option<DatabaseConnection>

    /** The handle and the profile are set and cleared together. */
    ghost predicate Valid()
      reads this
    {
      (connection == null) == currentConnection.None?
    }

    constructor (driverClass: DriverClass)
      ensures Valid() && this.driverClass == driverClass
      ensures connection == null && currentConnection == None
    {
      this.driverClass := driverClass;
      connection := null;
      currentConnection := None;
    }

    /** `isConnected()`: a driver holds a handle exactly when it holds the profile it was
        connected with. */
    predicate IsConnected()
      reads this
      ensures Valid() ==> (IsConnected() <==> currentConnection.Some?)
    {
      connection != null
    }

    /** `connect(profile)`, given what `mysql.createConnection` produced. On failure the driver
        keeps its previous state; on success a handle it already held is dropped without `end()`. */
    method Connect(profile: DatabaseConnection, attempt: Result<Handle, Thrown>) returns (r: Result<(), Thrown>)
      requires Valid()
      modifies this
      ensures Valid()
      ensures attempt.Ok? ==>
        r.Ok? && connection == attempt.value && currentConnection == Some(profile) && IsConnected()
      ensures attempt.Err? ==>
        r == Err(ConnectFailure(attempt.error)) &&
        connection == old(connection) && currentConnection == old(currentConnection)
    {
      match attempt
      case Err(e) =>
        r := Err(ConnectFailure(e));
      case Ok(h) =>
        connection := h;
        currentConnection := Some(profile);
        r := Ok(());
    }

    /** `disconnect()`: a no-op when unconnected; otherwise `end()` and, if that returns,
        both fields are cleared. */
    method Disconnect() returns (r: Result<(), Thrown>)
      requires Valid()
      modifies this, connection
      ensures Valid()
      ensures old(connection) == null ==> r.Ok? && connection == null && currentConnection == old(currentConnection)
      ensures old(connection) != null ==>
        old(connection).log == old(connection.log) + [ControlCall(End)] &&
        if old(connection).server.control(End).None? then
          r.Ok? && connection == null && currentConnection == None && !IsConnected()
        else
          r == Err(old(connection).server.control(End).value) &&
          connection == old(connection) && currentConnection == old(currentConnection)
    {
      r := Ok(());
      if connection != null {
        var failure := connection.Send(End);
        if failure.Some? {
          r := Err(failure.value);
          return;
        }
        connection := null;
        currentConnection := None;
      }
    }

    /** `testConnection(profile)`: open a throwaway handle, ping it and end it. The driver's own
        state is not touched. When `ping` throws, the throwaway handle is not ended. */
    method TestConnection(profile: DatabaseConnection, attempt: Result<Handle, Thrown>) returns (r: Result<bool, Thrown>)
      modifies if attempt.Ok? then {attempt.value} else {}
      ensures attempt.Err? ==> r == Err(ConnectFailure(attempt.error))
      ensures attempt.Ok? ==>
        r == PingOutcome(attempt.value.server) &&
        attempt.value.log == old(attempt.value.log) +
          if attempt.value.server.control(Ping).Some? then [ControlCall(Ping)]
          else [ControlCall(Ping), ControlCall(End)]
    {
      match attempt
      case Err(e) =>
        r := Err(ConnectFailure(e));
      case Ok(h) =>
        var failure := h.Send(Ping);
        if failure.Some? {
          r := Err(ConnectFailure(failure.value));
          return;
        }
        failure := h.Send(End);
        if failure.Some? {
          r := Err(ConnectFailure(failure.value));
          return;
        }
        r := Ok(true);
    }

    /** `executeQuery(query, params)`: a hard failure only without a handle; a statement that
        throws yields a result carrying its error text. */
    method ExecuteQuery(query: string, params: seq<Value>) returns (r: Result<QueryResult, Thrown>)
      requires Valid()
      modifies connection
      ensures connection == null ==> r == Err(ThrownError(NoActiveConnection))
      ensures connection != null ==>
        r == Ok(ResultOf(connection.server.execute(query, params))) &&
        connection.log == old(connection.log) + [Statement(query, params)]
    {
      if connection == null {
        r := Err(ThrownError(NoActiveConnection));
        return;
      }
      var out := connection.Execute(query, params);
      r := Ok(ResultOf(out));
    }

    /** The statement loop of `executeTransaction`: run each statement through `executeQuery`
        and stop after the first whose result carries an error, whose index is returned. */
    method RunStatements(queries: seq<string>) returns (results: seq<QueryResult>, failedAt: int)
      requires Valid() && connection != null
      modifies connection
      ensures failedAt == FirstIndex(queries, StatementFails(connection.server))
      ensures results == ResultsOf(connection.server, queries[..TxnSent(connection.server, queries)])
      ensures connection.log ==
        old(connection.log) + StatementCalls(queries[..TxnSent(connection.server, queries)])
    {
      ghost var srv := connection.server;
      results := [];
      failedAt := -1;
      var k := 0;
      while k < |queries| && failedAt == -1
        invariant 0 <= k <= |queries|
        invariant results == ResultsOf(srv, queries[..k])
        invariant failedAt == -1 ==> forall i :: 0 <= i < k ==> !StatementFails(srv)(queries[i])
        invariant failedAt != -1 ==> failedAt == k - 1 && failedAt == FirstIndex(queries, StatementFails(srv))
        invariant connection.log == old(connection.log) + StatementCalls(queries[..k])
      {
        var res := ExecuteQuery(queries[k], []);
        results := results + [res.value];
        if Failed(res.value) {
          failedAt := k;
        }
        assert queries[..k + 1] == queries[..k] + [queries[k]];
        k := k + 1;
      }
      if failedAt == -1 {
        assert queries[..k] == queries;
      }
    }

    /** `executeTransaction(queries)`: begin, run the statements in order until one carries an
        error, commit only if none did; on any failure roll back and rethrow. */
    method ExecuteTransaction(queries: seq<string>) returns (r: Result<seq<QueryResult>, Thrown>)
      requires Valid()
      modifies connection
      ensures connection == null ==> r == Err(ThrownError(NoActiveConnection))
      ensures connection != null ==>
        r == TxnOutcome(connection.server, queries) &&
        connection.log == old(connection.log) + TxnCalls(connection.server, queries)
    {
      if connection == null {
        r := Err(ThrownError(NoActiveConnection));
        return;
      }
      var failure := connection.Send(Begin);
      if failure.None? {
        var results, failedAt := RunStatements(queries);
        if failedAt != -1 {
          assert results[failedAt] == ResultOf(connection.server.execute(queries[failedAt], []));
          assert StatementFails(connection.server)(queries[failedAt]);
          failure := Some(ThrownError(results[failedAt].error.value));
        } else {
          assert queries[..|queries|] == queries;
          failure := connection.Send(Commit);
          if failure.None? {
            r := Ok(results);
            return;
          }
        }
      }
      var rollback := connection.Send(Rollback);
      r := Err(if rollback.Some? then rollback.value else failure.value);
    }

    /** `cancelQuery()`: sends KILL QUERY when connected, nothing otherwise. */
    method CancelQuery() returns (r: Result<(), Thrown>)
      requires Valid()
      modifies connection
      ensures connection == null ==> r.Ok?
      ensures connection != null ==>
        connection.log == old(connection.log) + [ControlCall(KillQuery)] &&
        r == if connection.server.control(KillQuery).Some? then Err(connection.server.control(KillQuery).value) else Ok(())
    {
      r := Ok(());
      if connection != null {
        var failure := connection.Send(KillQuery);
        if failure.Some? {
          r := Err(failure.value);
        }
      }
    }

    /** `getDatabases()` */
    method GetDatabases() returns (r: Result<seq<string>, Thrown>)
      requires Valid()
      ensures connection == null ==> r == Err(ThrownError(NoActiveConnection))
      ensures connection != null ==> r == connection.server.showDatabases
    {
      if connection == null {
        return Err(ThrownError(NoActiveConnection));
      }
      r := connection.server.showDatabases;
    }

    /** `getTables(database)` */
    method GetTables(database: Option<string>) returns (r: Result<seq<string>, Thrown>)
      requires Valid()
      ensures connection == null ==> r == Err(ThrownError(NoActiveConnection))
      ensures connection != null ==> r == TablesOf(connection.server, currentConnection, database)
      ensures connection != null && !Truthy(database) && !Truthy(ResolveDatabase(None, currentConnection)) ==>
        r == Err(ThrownError(NoDatabaseSpecified))
    {
      if connection == null {
        return Err(ThrownError(NoActiveConnection));
      }
      var dbName := ResolveDatabase(database, currentConnection);
      if !Truthy(dbName) {
        return Err(ThrownError(NoDatabaseSpecified));
      }
      r := connection.server.showTables;
    }

    /** `getTableInfo(table, database)`: columns, grouped indexes and foreign keys of one table. */
    method GetTableInfo(table: string, database: Option<string>) returns (r: Result<TableInfo, Thrown>)
      requires Valid()
      ensures connection == null ==> r == Err(ThrownError(NoActiveConnection))
      ensures connection != null ==> r == TableInfoOf(connection.server, currentConnection, table, database)
      ensures connection != null && !Truthy(database) && !Truthy(ResolveDatabase(None, currentConnection)) ==>
        r == Err(ThrownError(NoDatabaseSpecified))
    {
      if connection == null {
        return Err(ThrownError(NoActiveConnection));
      }
      var dbName := ResolveDatabase(database, currentConnection);
      if !Truthy(dbName) {
        return Err(ThrownError(NoDatabaseSpecified));
      }
      var srv := connection.server;
      var columns := srv.columns(dbName.value, table);
      if columns.Err? {
        return Err(columns.error);
      }
      var columnInfos := ColumnInfos(columns.value);
      var indexes := srv.statistics(dbName.value, table);
      if indexes.Err? {
        return Err(indexes.error);
      }
      var indexInfos := GroupIndexes(indexes.value);
      var foreignKeys := srv.keyColumnUsage(dbName.value, table);
      if foreignKeys.Err? {
        return Err(foreignKeys.error);
      }
      r := Ok(TableInfo(table, columnInfos, indexInfos, ForeignKeyInfos(foreignKeys.value)));
    }

    /** `getColumns(table, database)` */
    method GetColumns(table: string, database: Option<string>) returns (r: Result<seq<ColumnInfo>, Thrown>)
      requires Valid()
      ensures connection == null ==> r == Err(ThrownError(NoActiveConnection))
      ensures connection != null ==>
        var info := TableInfoOf(connection.server, currentConnection, table, database);
        r == if info.Ok? then Ok(info.value.columns) else Err(info.error)
    {
      var info := GetTableInfo(table, database);
      if info.Err? {
        return Err(info.error);
      }
      r := Ok(info.value.columns);
    }

    /** `getSchema()`: for each listed database, list its tables and describe each of them. */
    method GetSchema() returns (r: Result<DatabaseSchema, Thrown>)
      requires Valid()
      ensures connection == null ==> r == Err(ThrownError(NoActiveConnection))
      ensures connection != null ==> r == SchemaOf(connection.server, currentConnection)
    {
      if connection == null {
        return Err(ThrownError(NoActiveConnection));
      }
      ghost var srv := connection.server;
      ghost var step := DatabaseStep(srv, currentConnection);
      var databases := GetDatabases();
      if databases.Err? {
        return Err(databases.error);
      }
      var dbs := databases.value;
      var currentDatabase := CurrentDatabaseName(currentConnection);
      var databaseInfos: seq<DatabaseInfo> := [];
      for i := 0 to |dbs|
        invariant Traverse(dbs[..i], step) == Ok(databaseInfos)
      {
        var dbName := dbs[i];
        TraverseStep(dbs, i, step);
        var tables := GetTables(Some(dbName));
        if tables.Err? {
          assert step(dbName) == Err(tables.error);
          TraverseErrStays(dbs, i + 1, step);
          return Err(tables.error);
        }
        ghost var tableStep := TableStep(srv, currentConnection, dbName);
        var tableInfos: seq<TableInfo> := [];
        for j := 0 to |tables.value|
          invariant Traverse(tables.value[..j], tableStep) == Ok(tableInfos)
        {
          TraverseStep(tables.value, j, tableStep);
          var tableInfo := GetTableInfo(tables.value[j], Some(dbName));
          if tableInfo.Err? {
            assert tableStep(tables.value[j]) == Err(tableInfo.error);
            TraverseErrStays(tables.value, j + 1, tableStep);
            assert step(dbName) == Err(tableInfo.error);
            TraverseErrStays(dbs, i + 1, step);
            return Err(tableInfo.error);
          }
          tableInfos := tableInfos + [tableInfo.value];
        }
        assert tables.value[..|tables.value|] == tables.value;
        databaseInfos := databaseInfos + [DatabaseInfo(dbName, tableInfos, [], [])];
      }
      assert dbs[..|dbs|] == dbs;
      r := Ok(DatabaseSchema(databaseInfos, currentDatabase));
    }

    /** `getQueryPlan(query)`: the EXPLAIN rows, passed through. */
    method GetQueryPlan(query: string) returns (r: Result<seq<Row>, Thrown>)
      requires Valid()
      ensures connection == null ==> r == Err(ThrownError(NoActiveConnection))
      ensures connection != null ==> r == connection.server.explain(query)
    {
      if connection == null {
        return Err(ThrownError(NoActiveConnection));
      }
      r := connection.server.explain(query);
    }

    /** `getServerInfo()`: version, max_connections and the static driver descriptor. */
    method GetServerInfo() returns (r: Result<ServerInfo, Thrown>)
      requires Valid()
      ensures connection == null ==> r == Err(ThrownError(NoActiveConnection))
      ensures connection != null ==>
        var srv := connection.server;
        r == if srv.version.Err? then Err(srv.version.error)
             else if srv.maxConnections.Err? then Err(srv.maxConnections.error)
             else Ok(ServerInfo(srv.version.value, srv.maxConnections.value, MySQLConfig))
    {
      if connection == null {
        return Err(ThrownError(NoActiveConnection));
      }
      var version := connection.server.version;
      if version.Err? {
        return Err(version.error);
      }
      var variables := connection.server.maxConnections;
      if variables.Err? {
        return Err(variables.error);
      }
      r := Ok(ServerInfo(version.value, variables.value, MySQLConfig));
    }
  }
}
