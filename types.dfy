/**
  Shared data model of the SQL client: connection profiles, query results,
  the normalized schema snapshot, UI configuration and the values a
  JavaScript `throw` can carry.
 */
module Types {

  datatype Option<+T> = None | Some(value: T)

  datatype Result<+T, +E> = Ok(value: T) | Err(error: E)

  /** What a `throw` carries: an `Error` object with its message, or any other value. */
  datatype Thrown = ThrownError(message: string) | ThrownValue

  const UnknownError := "Erro desconhecido"

  /** `error instanceof Error ? error.message : 'Erro desconhecido'` */
  function ErrorText(t: Thrown): (text: string)
    ensures t.ThrownError? ==> text == t.message
    ensures t.ThrownValue? ==> text == UnknownError
  {
    match t
    case ThrownError(m) => m
    case ThrownValue => UnknownError
  }

  /** A JavaScript string used as a condition: only the empty string (and absence) is falsy. */
  predicate Truthy(s: Option<string>) {
    s.Some? && s.value != ""
  }

  /** `a || b` on optional strings. */
  function OrElse(a: Option<string>, b: Option<string>): (r: Option<string>)
    ensures Truthy(a) ==> r == a
    ensures !Truthy(a) ==> r == b
  {
    if Truthy(a) then a else b
  }

  // ---------------------------------------------------------------------
  // Connection profiles

  datatype DatabaseType = MySql | PostgreSql | Sqlite | SqlServer

  /** The enum's string values. */
  function TypeName(t: DatabaseType): string {
    match t
    case MySql => "mysql"
    case PostgreSql => "postgresql"
    case Sqlite => "sqlite"
    case SqlServer => "sqlserver"
  }

  datatype DatabaseConnection = DatabaseConnection(
    id: string,
    name: string,
    dbType: DatabaseType,
    host: string,
    port: int,
    database: string,
    username: string,
    password: string,
    ssl: bool,
    createdAt: string,
    updatedAt: string)

  // ---------------------------------------------------------------------
  // Query results

  datatype Value = SqlNull | SqlInt(i: int) | SqlText(s: string)

  /** A row object: column name to value. */
  type Row = map<string, Value>

  /** What the library hands back as `rows`: an array of row objects, or a
      result header for statements that return no rows. */
  datatype RowData = RowList(items: seq<Row>) | ResultHeader(affectedRows: nat, insertId: nat)

  datatype QueryResult = QueryResult(
    columns: seq<string>,
    rows: RowData,
    rowCount: nat,
    executionTime: nat,
    error: Option<string>)

  datatype QueryHistory = QueryHistory(
    id: string,
    query: string,
    connectionId: string,
    executionTime: nat,
    timestamp: string,
    success: bool,
    error: Option<string>)

  // ---------------------------------------------------------------------
  // Schema snapshot

  datatype ColumnInfo = ColumnInfo(
    name: string,
    columnType: string,
    nullable: bool,
    defaultValue: Option<string>,
    isPrimaryKey: bool,
    isAutoIncrement: bool)

  datatype IndexInfo = IndexInfo(name: string, columns: seq<string>, isUnique: bool)

  datatype ForeignKeyInfo = ForeignKeyInfo(
    name: string,
    column: string,
    referencedTable: string,
    referencedColumn: string)

  datatype TableInfo = TableInfo(
    name: string,
    columns: seq<ColumnInfo>,
    indexes: seq<IndexInfo>,
    foreignKeys: seq<ForeignKeyInfo>)

  datatype ViewInfo = ViewInfo(name: string, definition: string)

  datatype ParameterDirection = In | Out | InOut

  datatype ProcedureParameter = ProcedureParameter(name: string, paramType: string, direction: ParameterDirection)

  datatype ProcedureInfo = ProcedureInfo(name: string, parameters: seq<ProcedureParameter>, definition: string)

  datatype DatabaseInfo = DatabaseInfo(
    name: string,
    tables: seq<TableInfo>,
    views: seq<ViewInfo>,
    procedures: seq<ProcedureInfo>)

  datatype DatabaseSchema = DatabaseSchema(databases: seq<DatabaseInfo>, currentDatabase: string)

  // ---------------------------------------------------------------------
  // Driver descriptors

  datatype DriverFeature =
    Transactions | StoredProcedures | Views | Triggers | ForeignKeys | Indexes | Ssl | Pooling

  datatype DriverConfig = DriverConfig(
    name: string,
    version: string,
    supportedVersions: seq<string>,
    features: seq<DriverFeature>)

  /** The identity of a driver constructor (`new () => IDatabaseDriver`). */
  datatype DriverClass = DriverClass(className: string)

  // ---------------------------------------------------------------------
  // UI configuration and notifications

  datatype Theme = Dark | Light

  datatype Density = Compact | Normal | Spacious

  datatype AppConfig = AppConfig(
    theme: Theme,
    density: Density,
    maxResults: int,
    queryTimeout: int,
    autoSave: bool)

  datatype NotificationKind = Success | Failure | Warning | Info

  datatype Notification = Notification(
    id: string,
    kind: NotificationKind,
    title: string,
    message: string,
    duration: Option<int>)
}
