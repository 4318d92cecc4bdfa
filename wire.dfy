/**
  The mysql2 connection handle, seen from the driver as an oracle.

  The server behind a handle is a fixed function from request to answer:
  a statement either yields fields and rows or throws, a control call
  (begin, commit, rollback, end, ping, kill) either succeeds or throws,
  and every catalog listing or INFORMATION_SCHEMA query yields its rows or
  throws. The handle keeps a log of the statements and control calls sent
  through it, so that properties such as "commit is never sent after a
  failed statement" can be stated.
 */
module Wire {
  import opened Types

  /** The answer of `connection.execute(query, params)`: `[rows, fields]` or a throw.
      `fields` is `None` when the library gives no field list. `elapsed` is the
      time the call took, which the driver measures with `Date.now()`. */
  datatype ExecOutcome =
    | Executed(fields: Option<seq<string>>, rows: RowData, elapsed: nat)
    | ExecFailed(thrown: Thrown, elapsed: nat)

  datatype Control = Begin | Commit | Rollback | End | Ping | KillQuery

  datatype WireCall = Statement(query: string, params: seq<Value>) | ControlCall(control: Control)

  /** One row of INFORMATION_SCHEMA.COLUMNS, ordered by ORDINAL_POSITION. */
  datatype ColumnRow = ColumnRow(
    columnName: string,
    dataType: string,
    isNullable: string,
    columnDefault: Option<string>,
    columnKey: string,
    extra: string)

  /** One row of INFORMATION_SCHEMA.STATISTICS, ordered by INDEX_NAME, SEQ_IN_INDEX. */
  datatype IndexRow = IndexRow(indexName: string, columnName: string, nonUnique: int)

  /** One row of INFORMATION_SCHEMA.KEY_COLUMN_USAGE with a referenced table. */
  datatype ForeignKeyRow = ForeignKeyRow(
    constraintName: string,
    columnName: string,
    referencedTableName: string,
    referencedColumnName: string)

  /** The behaviour of the server reached through a handle.
      Catalog queries take (schema name, table name). */
  datatype Server = Server(
    execute: (string, seq<Value>) -> ExecOutcome,
    control: Control -> Option<Thrown>,
    showDatabases: Result<seq<string>, Thrown>,
    showTables: Result<seq<string>, Thrown>,
    columns: (string, string) -> Result<seq<ColumnRow>, Thrown>,
    statistics: (string, string) -> Result<seq<IndexRow>, Thrown>,
    keyColumnUsage: (string, string) -> Result<seq<ForeignKeyRow>, Thrown>,
    explain: string -> Result<seq<Row>, Thrown>,
    version: Result<Option<string>, Thrown>,
    maxConnections: Result<Option<string>, Thrown>)

  /** An open mysql2 connection. */
  class Handle {
    const server: Server
    var log: seq<WireCall>

    constructor (server: Server)
      ensures this.server == server && log == []
    {
      this.server := server;
      log := [];
    }

    /** `connection.execute(query, params)` */
    method Execute(query: string, params: seq<Value>) returns (out: ExecOutcome)
      modifies this
      ensures out == server.execute(query, params)
      ensures log == old(log) + [Statement(query, params)]
    {
      out := server.execute(query, params);
      log := log + [Statement(query, params)];
    }

    /** `beginTransaction()`, `commit()`, `rollback()`, `end()`, `ping()`, `query('KILL QUERY …')`;
        the result is what the call threw, if anything. */
    method Send(c: Control) returns (failure: Option<Thrown>)
      modifies this
      ensures failure == server.control(c)
      ensures log == old(log) + [ControlCall(c)]
    {
      failure := server.control(c);
      log := log + [ControlCall(c)];
    }
  }
}
