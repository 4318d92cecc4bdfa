# client_sql core, modelled in Dafny

This project models the state-keeping core of the client_sql desktop SQL client, an Electron
application with a React/Redux renderer:

- **Driver registry** (`DriverFactory`). This is the process-wide table from database type to
  driver class. Only the MySQL driver exists, so a registered class is a name that every
  created driver carries, and every class builds a `MySQL.Driver`. It supports register,
  create, membership and enumeration. Enumeration follows the order in which types were first
  registered, as a JavaScript `Map` does.
- **MySQL driver** (`MySQL`, `Catalog`, `Wire`).
  - The connected state lives in the `connection` and `currentConnection` fields.
  - A statement failure becomes data: a `QueryResult` with an error text.
  - The transaction loop commits only when every statement succeeds and otherwise rolls back.
  - The schema snapshot is built from SHOW DATABASES, SHOW TABLES and INFORMATION_SCHEMA rows.
    This includes the fold that groups STATISTICS rows into indexes.
  - `formatQuery` is `String.prototype.trim`.
  - The mysql2 connection is an oracle (`Wire.Handle`). Its server answers every request with a
    fixed function of the request. It records the statements `executeQuery` sends and the control
    calls (begin, commit, rollback, end, ping, kill), so the transaction and connection contracts
    can speak about what was sent. The catalog reads (SHOW DATABASES, SHOW TABLES, the
    INFORMATION_SCHEMA selects, EXPLAIN, the server-info queries) are answered from separate
    fields of the oracle and are not recorded.
- **Main-process connection manager** (`ConnectionManager`). The `activeConnections` map is keyed
  by profile id. It is filled by `connection:create` and emptied by `connection:close`. The
  `database:test-connection` and `database:connect` handlers use a throwaway driver. Every
  handler answers with a `{success, error?}` envelope.
- **Redux slices** (`ConnectionsSlice`, `QueriesSlice`, `SchemaSlice`, `UiSlice`). Each reducer
  is a function from the previous state and the action's payload to the next state. The
  searches and filters the reducers call (`find`, `findIndex`, `filter`, `includes`) are the
  recursive functions `Seqs.FirstIndex` and `Seqs.Filter`. The `forEach` loop that removes
  duplicate loaded connections is a method whose loop is proved against the reference function
  `Seqs.KeepFirstBy`.

Clock readings (`Date.now()`, `new Date().toISOString()`) and the outcome of
`mysql.createConnection` are parameters of the operations that use them.

The model follows the code where it differs from an idealised design of the same system:

- A second `connection:create` for an id replaces the stored driver. It does not reuse it or
  refuse, and the replaced driver is not disconnected (`ConnectionManager.CreateTwiceForOneId`).
- `testConnection` does not end its throwaway handle when `ping` throws
  (`MySQL.Driver.TestConnection`).
- `database:connect` connects a throwaway driver that is never stored, so its handle stays open.
- `getTables(database)` checks that some database is named but then runs `SHOW TABLES`. That
  statement lists the session's current database, whatever `database` says (`MySQL.TablesOf`).
- The transaction loop stops on a *truthy* error text. A statement whose error message is the
  empty string does not abort the transaction (`MySQL.Failed`).

## Model

| member | source | states |
|---|---|---|
| `Types.ErrorText` | src/main/main.ts:147-150 | the text of a caught value: the `Error`'s message, or 'Erro desconhecido' for anything else |
| `Types.OrElse` | src/drivers/mysql/MySQLDriver.ts:200 | `a \|\| b` on strings: `a` when it is present and non-empty, otherwise `b` |
| `Seqs.KeepFirstBy` | src/ui/store/slices/connectionsSlice.ts:175-181 | the "first of each key wins" fold keeps distinct keys, loses no key of the input, and keeps only input elements |
| `Seqs.KeepFirstByIsFirstOccurrences` | src/ui/store/slices/connectionsSlice.ts:175-181 | the fold equals the reference definition: the elements that are the first of their key, in input order |
| `Seqs.KeepFirstByDistinct` | src/ui/store/slices/connectionsSlice.ts:175-181 | an input whose keys are already distinct comes back unchanged |
| `Seqs.FilterHead` | src/ui/store/slices/queriesSlice.ts:60-62 | the first element a filter keeps is the first element of the input that satisfies the predicate, and the filter is empty iff no element does |
| `Seqs.TraverseOk` | src/drivers/mysql/MySQLDriver.ts:163-170 | the sequential loop succeeds iff every step does, and then yields each step's value in order |
| `Seqs.TraverseFirstError` | src/drivers/mysql/MySQLDriver.ts:163-170 | a failed loop reports the error of its first failing step, and every step before it succeeded |
| `Catalog.ColumnInfos` | src/drivers/mysql/MySQLDriver.ts:225-232 | one ColumnInfo per COLUMNS row, in row order. `nullable` iff IS_NULLABLE is 'YES'. `isPrimaryKey` iff COLUMN_KEY is 'PRI'. `isAutoIncrement` iff EXTRA contains 'auto_increment'. Name, type and default are copied |
| `Catalog.AutoIncrementAmongOtherExtras` | src/drivers/mysql/MySQLDriver.ts:231 | the auto-increment test is a substring test, so it holds when EXTRA carries other text around the keyword |
| `Catalog.ForeignKeyInfos` | src/drivers/mysql/MySQLDriver.ts:261-266 | one ForeignKeyInfo per KEY_COLUMN_USAGE row, in row order, with the four fields mapped across |
| `Catalog.ForeignKeyInfosRoundTrip` | src/drivers/mysql/MySQLDriver.ts:261-266 | the foreign-key mapping loses nothing: the rows can be read back from the infos |
| `Catalog.GroupIndexes` | src/drivers/mysql/MySQLDriver.ts:240-253 | the `indexMap` fold followed by `Array.from(entries)` equals the reference grouping `GroupedIndexes` |
| `Catalog.GroupedIndexesDistinct` | src/drivers/mysql/MySQLDriver.ts:240-253 | the grouping yields one IndexInfo per index name, with no name twice |
| `Catalog.GroupedIndexesCover` | src/drivers/mysql/MySQLDriver.ts:241-247 | every STATISTICS row's column appears in the IndexInfo of its INDEX_NAME |
| `Catalog.GroupedIndexesFromFirstRow` | src/drivers/mysql/MySQLDriver.ts:242-245 | each IndexInfo is made at the first row of its index, and takes `isUnique` from that row's NON_UNIQUE == 0 |
| `Catalog.ColumnOfIndexListed` | src/drivers/mysql/MySQLDriver.ts:246 | a row's column is listed among the columns of its own index |
| `Catalog.CompositeUniqueIndex` | src/drivers/mysql/MySQLDriver.ts:240-253 | two rows of one unique index give one IndexInfo with both columns in key order |
| `MySQL.ConnectFailure` | src/drivers/mysql/MySQLDriver.ts:40-42 | a connect or test failure is rethrown as an Error 'Erro ao conectar ao MySQL: ' followed by the cause's text |
| `MySQL.PingOutcome` | src/drivers/mysql/MySQLDriver.ts:76-83 | the test yields `true` iff both `ping` and `end` return. A throwing `ping` gives that ping's wrapped error; a throwing `end` after a successful ping gives that end's wrapped error |
| `MySQL.ResultOf` | src/drivers/mysql/MySQLDriver.ts:96-117 | a statement failure gives the error text with empty columns and rows and rowCount 0. Success, with no error, happens exactly when the library returned a field list. Then columns are the field names, rowCount is the length of an array of rows and 0 otherwise, and the elapsed time is kept |
| `MySQL.CommitOnlyIfAllSucceed` | src/drivers/mysql/MySQLDriver.ts:127-139 | commit is sent iff the transaction began and no statement's result carries an error |
| `MySQL.FailingStatementRollsBack` | src/drivers/mysql/MySQLDriver.ts:130-144 | at the first failing statement nothing more is sent, rollback follows and commit does not. The caller gets an error, which is that statement's error text unless the rollback throws |
| `MySQL.TxnOkMeansAllSucceeded` | src/drivers/mysql/MySQLDriver.ts:125-140 | a transaction returns results only when every statement succeeded. It then returns one result per statement, in order, and sent begin, the statements and commit |
| `MySQL.SchemaShape` | src/drivers/mysql/MySQLDriver.ts:153-183 | a snapshot holds one DatabaseInfo per listed database, in order. Each holds one TableInfo per listed table, in order, equal to `getTableInfo` for that database, with no views or procedures. `currentDatabase` is the profile's database or '' |
| `MySQL.FormatQuery` | src/drivers/mysql/MySQLDriver.ts:281-285 | the result is a slice of the query with only whitespace cut on either side, and neither starts nor ends with whitespace |
| `MySQL.FormatQueryIdempotent` | src/drivers/mysql/MySQLDriver.ts:281-285 | formatting twice is formatting once |
| `MySQL.Driver.IsConnected` | src/drivers/mysql/MySQLDriver.ts:87-89 | a driver is connected exactly when it holds a handle, which for a valid driver is exactly when it holds the profile it connected with |
| `MySQL.Driver.constructor` | src/drivers/mysql/MySQLDriver.ts:5-7 | a new driver holds no handle and no profile |
| `MySQL.Driver.Connect` | src/drivers/mysql/MySQLDriver.ts:25-43 | success sets both the handle and the profile, dropping a previous handle without `end`. Failure rethrows the wrapped error and leaves both fields as they were |
| `MySQL.Driver.Disconnect` | src/drivers/mysql/MySQLDriver.ts:45-51 | on an unconnected driver nothing happens. Otherwise `end` is sent, and only if it returns are both fields cleared |
| `MySQL.Driver.TestConnection` | src/drivers/mysql/MySQLDriver.ts:53-85 | the throwaway handle gets ping and then end; the result is `PingOutcome`. When ping throws, end is never sent. The driver's own fields are untouched |
| `MySQL.Driver.ExecuteQuery` | src/drivers/mysql/MySQLDriver.ts:91-118 | with no handle it throws 'Não há conexão ativa'. Otherwise the statement is sent once and its answer is shaped by `ResultOf`, never thrown |
| `MySQL.Driver.RunStatements` | src/drivers/mysql/MySQLDriver.ts:130-137 | statements run in order up to and including the first whose result carries an error. That index is returned, with the results so far and the statements sent |
| `MySQL.Driver.ExecuteTransaction` | src/drivers/mysql/MySQLDriver.ts:120-145 | with no handle it throws 'Não há conexão ativa'. Otherwise the outcome is `TxnOutcome` and the calls sent are `TxnCalls`, so the transaction lemmas apply |
| `MySQL.Driver.CancelQuery` | src/drivers/mysql/MySQLDriver.ts:147-151 | KILL QUERY is sent only when connected, and its failure is passed on |
| `MySQL.Driver.GetDatabases` | src/drivers/mysql/MySQLDriver.ts:186-193 | 'Não há conexão ativa' without a handle, otherwise the SHOW DATABASES listing |
| `MySQL.Driver.GetTables` | src/drivers/mysql/MySQLDriver.ts:195-207 | 'Não há conexão ativa' without a handle. 'Nenhum banco de dados especificado' when neither the argument nor the profile names a database. Otherwise the SHOW TABLES listing |
| `MySQL.Driver.GetTableInfo` | src/drivers/mysql/MySQLDriver.ts:209-274 | the same two errors as `getTables`. Otherwise the table's mapped columns, grouped indexes and mapped foreign keys, or the first catalog query's failure |
| `MySQL.Driver.GetColumns` | src/drivers/mysql/MySQLDriver.ts:276-279 | the columns of `getTableInfo`, or its error |
| `MySQL.Driver.GetSchema` | src/drivers/mysql/MySQLDriver.ts:153-184 | 'Não há conexão ativa' without a handle. Otherwise the two nested loops equal `SchemaOf`, which fails with the first failing listing or table description |
| `MySQL.Driver.GetQueryPlan` | src/drivers/mysql/MySQLDriver.ts:287-294 | 'Não há conexão ativa' without a handle, otherwise the EXPLAIN rows |
| `MySQL.Driver.GetServerInfo` | src/drivers/mysql/MySQLDriver.ts:296-309 | 'Não há conexão ativa' without a handle. Otherwise the version, max_connections and the static MySQL descriptor (8.0; 5.7 and 8.0; all eight features), or the first failing query's error |
| `DriverFactory.DriverRegistry.constructor` | src/core/factories/DatabaseDriverFactory.ts:5 | the registry starts empty |
| `DriverFactory.DriverRegistry.IsSupported` | src/core/factories/DatabaseDriverFactory.ts:37-39 | a type is supported exactly when it has an entry, which for a valid registry is exactly when `getSupportedTypes()` lists it |
| `DriverFactory.DriverRegistry.RegisterDriver` | src/core/factories/DatabaseDriverFactory.ts:10-12 | the type becomes supported with the new class (last registration wins). Every other entry is unchanged, and a new type is appended to the enumeration order |
| `DriverFactory.DriverRegistry.CreateDriver` | src/core/factories/DatabaseDriverFactory.ts:17-25 | an unregistered type gives 'Driver não encontrado para o tipo: ' followed by the type name. Otherwise a new, unconnected instance of the registered class. The registry is not modified |
| `DriverFactory.DriverRegistry.GetSupportedTypes` | src/core/factories/DatabaseDriverFactory.ts:30-39 | every registered type exactly once, in first-registration order, agreeing with `isSupported` |
| `DriverFactory.DriverRegistry.GetDriverInfo` | src/core/factories/DatabaseDriverFactory.ts:44-49 | one entry per registered type, in order, each with its own new, unconnected instance of that type's class |
| `DriverFactory.RegisterThenCreate` | src/core/factories/DatabaseDriverFactory.ts:10-25 | after `registerDriver(t, C)`, `t` is supported and `createDriver(t)` yields an instance of C |
| `DriverFactory.CreateTwice` | src/core/factories/DatabaseDriverFactory.ts:24 | two `createDriver` calls give two distinct instances of the same class: nothing is cached |
| `ConnectionManager.ErrorEnvelope` | src/main/main.ts:145-151 | a catch block answers `success: false` with the Error's message or 'Erro desconhecido' |
| `ConnectionManager.TestEnvelope` | src/main/main.ts:139-151 | the test answer is well formed (success iff no error text) and succeeds iff the type is registered and the test yields `true`. An unregistered type carries the registry's message; a registered type whose test throws carries the text of that wrapped error |
| `ConnectionManager.ConnectEnvelope` | src/main/main.ts:155-164 | the connect answer is well formed and succeeds iff the type is registered and the connection opened. Otherwise it carries the registry's or the wrapped connect message |
| `ConnectionManager.Manager.constructor` | src/main/main.ts:9-10 | start-up registers the MySQL driver class and nothing else, with an empty `activeConnections` |
| `ConnectionManager.Manager.TestConnection` | src/main/main.ts:130-152 | the answer is `TestEnvelope`, and `activeConnections` is not touched |
| `ConnectionManager.Manager.Connect` | src/main/main.ts:154-165 | the answer is `ConnectEnvelope`, and `activeConnections` is not touched |
| `ConnectionManager.Manager.Create` | src/main/main.ts:257-269 | the new driver is stored under the profile's id only after `connect` succeeded, replacing any entry for that id. On any failure the map is unchanged. The stored drivers stay connected and distinct |
| `ConnectionManager.Manager.Close` | src/main/main.ts:271-285 | an absent id answers success and changes nothing. Otherwise `end` is sent. On success the entry is deleted; if `end` throws, the entry stays and the error is answered |
| `ConnectionManager.CreateTwiceForOneId` | src/main/main.ts:259-261 | a second create for the same id replaces the stored driver, and the first one stays connected to its handle |
| `ConnectionsSlice.IndexOfId` | src/ui/store/slices/connectionsSlice.ts:108-110 | `findIndex` by id: the first matching index, or -1 iff no entry has the id |
| `ConnectionsSlice.ReplaceFirst` | src/ui/store/slices/connectionsSlice.ts:111-113 | only the first entry with the id is replaced; the length and the set of ids stay the same |
| `ConnectionsSlice.ClearActiveIf` | src/ui/store/slices/connectionsSlice.ts:100-102 | the active profile is cleared iff it carries the id |
| `ConnectionsSlice.AddConnection` | src/ui/store/slices/connectionsSlice.ts:93-95 | the payload is appended and the existing entries are untouched |
| `ConnectionsSlice.RemoveConnection` | src/ui/store/slices/connectionsSlice.ts:96-103 | no entry with the id remains and every other entry stays. The active profile is cleared only if it has the id |
| `ConnectionsSlice.SetActiveConnection` | src/ui/store/slices/connectionsSlice.ts:104-106 | the active profile becomes the payload; nothing else changes |
| `ConnectionsSlice.UpdateConnection` | src/ui/store/slices/connectionsSlice.ts:107-114 | the first entry with the payload's id is replaced and all others are kept; with no match nothing changes; the length never changes |
| `ConnectionsSlice.ClearError` | src/ui/store/slices/connectionsSlice.ts:115-117 | only `error` is cleared |
| `ConnectionsSlice.Pending` | src/ui/store/slices/connectionsSlice.ts:121-124 | every pending case sets `loading` and clears `error`, keeping the list and the active profile |
| `ConnectionsSlice.Rejected` | src/ui/store/slices/connectionsSlice.ts:128-131 | every rejected case clears `loading` and sets `error` to the message if truthy, else to that thunk's own default text |
| `ConnectionsSlice.TestConnectionFulfilled` | src/ui/store/slices/connectionsSlice.ts:125-127 | only `loading` is cleared |
| `ConnectionsSlice.CreateConnectionFulfilled` | src/ui/store/slices/connectionsSlice.ts:136-149 | an upsert by id: appended when the id is new, otherwise the first match is replaced. The payload becomes active and `loading` is cleared |
| `ConnectionsSlice.CloseConnectionFulfilled` | src/ui/store/slices/connectionsSlice.ts:158-163 | the list is kept and the active profile is cleared iff it is the closed one |
| `ConnectionsSlice.LoadSavedConnectionsFulfilled` | src/ui/store/slices/connectionsSlice.ts:172-182 | the `Map`-based loop yields exactly `KeepFirstBy(payload, id)`: repeated ids removed, the first kept, in payload order |
| `ConnectionsSlice.SaveConnectionToDBFulfilled` | src/ui/store/slices/connectionsSlice.ts:191-200 | the list is the one `updateConnection` would give, so an entry is replaced and never added |
| `ConnectionsSlice.DeleteConnectionFromDBFulfilled` | src/ui/store/slices/connectionsSlice.ts:209-217 | the same removal as `removeConnection`, with `loading` cleared |
| `ConnectionsSlice.RemoveConnectionKeepsOrder` | src/ui/store/slices/connectionsSlice.ts:97-99 | removal distributes over any split of the list, so the survivors keep their order |
| `ConnectionsSlice.RemoveAbsentId` | src/ui/store/slices/connectionsSlice.ts:97-99 | removing an id that is not stored leaves the list unchanged |
| `ConnectionsSlice.AddThenRemove` | src/ui/store/slices/connectionsSlice.ts:93-99 | adding a profile with a new id and removing that id gives back the list |
| `ConnectionsSlice.AddConnectionUniqueIds` | src/ui/store/slices/connectionsSlice.ts:93-95 | `addConnection` keeps ids unique iff the new id is not already stored |
| `ConnectionsSlice.CreateConnectionUniqueIds` | src/ui/store/slices/connectionsSlice.ts:139-147 | the upsert of `createConnection.fulfilled` keeps ids unique |
| `ConnectionsSlice.UpdateConnectionIdempotent` | src/ui/store/slices/connectionsSlice.ts:107-114 | updating twice with one profile is updating once, and updating keeps ids unique |
| `ConnectionsSlice.LoadedConnections` | src/ui/store/slices/connectionsSlice.ts:174-181 | the loaded list has unique ids and covers every id of the payload. It is the first occurrence of each id in payload order, and a payload without repeats is kept as is |
| `QueriesSlice.TabIndex` | src/ui/store/slices/queriesSlice.ts:69 | `find` by id: the first matching tab, or none iff no tab has the id |
| `QueriesSlice.ActiveIndex` | src/ui/store/slices/queriesSlice.ts:121 | the active tab is found iff an id is active and an open tab carries it |
| `QueriesSlice.UpdateTab` | src/ui/store/slices/queriesSlice.ts:69-72 | the edit applies to the tab `find` returns and no other tab |
| `QueriesSlice.AddTab` | src/ui/store/slices/queriesSlice.ts:48-58 | exactly one tab is appended and becomes active. Its truthy draft fields are used, else 'tab-' plus the clock, 'Nova Query', '' and no connection, with no result and `loading` false |
| `QueriesSlice.RemoveTab` | src/ui/store/slices/queriesSlice.ts:59-64 | no tab with the id remains and the others stay. If the active tab was removed, the first tab of the old list without that id (or none) becomes active; otherwise the active tab is unchanged |
| `QueriesSlice.RemoveTabKeepsOrder` | src/ui/store/slices/queriesSlice.ts:60 | closing tabs distributes over any split of the tab list, so the open tabs keep their order |
| `QueriesSlice.SetActiveTab` | src/ui/store/slices/queriesSlice.ts:65-67 | only the active id changes |
| `QueriesSlice.UpdateTabQuery` | src/ui/store/slices/queriesSlice.ts:68-73 | only the query of the first tab with the id changes; with no match nothing changes |
| `QueriesSlice.UpdateTabTitle` | src/ui/store/slices/queriesSlice.ts:74-79 | only the title of the first tab with the id changes; with no match nothing changes |
| `QueriesSlice.UpdateTabConnection` | src/ui/store/slices/queriesSlice.ts:80-85 | only the connection of the first tab with the id changes; with no match nothing changes |
| `QueriesSlice.ClearTabResult` | src/ui/store/slices/queriesSlice.ts:86-92 | only the result and error of the first tab with the id are cleared |
| `QueriesSlice.Capped` | src/ui/store/slices/queriesSlice.ts:96-98 | at most 100 entries: the first 100 of a longer history, anything shorter unchanged |
| `QueriesSlice.AddToHistory` | src/ui/store/slices/queriesSlice.ts:93-99 | the entry goes first and the old history follows. The length is one more, but never above 100, so the oldest entries are dropped |
| `QueriesSlice.ClearHistory` | src/ui/store/slices/queriesSlice.ts:108-110 | only the history is emptied |
| `QueriesSlice.AddToFavorites` | src/ui/store/slices/queriesSlice.ts:100-104 | the query is a favourite afterwards and the old list is a prefix. The members are the old ones plus the query, and a duplicate-free list stays duplicate-free |
| `QueriesSlice.RemoveFromFavorites` | src/ui/store/slices/queriesSlice.ts:105-107 | every occurrence of the query is removed and every other favourite stays |
| `QueriesSlice.ClearError` | src/ui/store/slices/queriesSlice.ts:111-113 | only `error` is cleared |
| `QueriesSlice.ExecuteQueryPending` | src/ui/store/slices/queriesSlice.ts:117-126 | `loading` is set and `error` cleared globally. The active tab, if found, is marked loading with its error cleared, and no other tab changes |
| `QueriesSlice.ExecuteQueryFulfilled` | src/ui/store/slices/queriesSlice.ts:127-143 | as written: with an active tab and a payload, the result is stored on that tab, its `loading` is cleared and a success entry is put first in the history, uncapped. Otherwise only `loading` is cleared |
| `QueriesSlice.ExecuteQueryFulfilledCapped` | src/ui/store/slices/queriesSlice.ts:127-143 | the fulfilled case with `addToHistory`'s cap. It is identical apart from the history, which keeps the bound of 100 |
| `QueriesSlice.ExecuteQueryRejected` | src/ui/store/slices/queriesSlice.ts:144-152 | `loading` is cleared, globally and on the active tab. Both take the message if truthy, else 'Erro ao executar query' |
| `QueriesSlice.HistoryStaysBounded` | src/ui/store/slices/queriesSlice.ts:93-99 | with the capped fulfilled case, no sequence of slice actions grows the history past 100 entries |
| `QueriesSlice.FulfilledOverflowsHistory` | src/ui/store/slices/queriesSlice.ts:134-141 | as written, a success on a full history with an active tab leaves 101 entries |
| `QueriesSlice.OverflowWitness` | src/ui/store/slices/queriesSlice.ts:134-141 | a concrete state (one active tab, 100 history entries) that reaches that overflow |
| `QueriesSlice.AddToHistoryBelowCap` | src/ui/store/slices/queriesSlice.ts:94-98 | below the cap `addToHistory` drops nothing |
| `QueriesSlice.AddTabActivates` | src/ui/store/slices/queriesSlice.ts:56-57 | after `addTab` the active tab is an open tab |
| `QueriesSlice.RemoveTabKeepsActiveOpen` | src/ui/store/slices/queriesSlice.ts:59-64 | `removeTab`'s repair keeps the invariant "the active id names an open tab, and some tab is active when any is open" |
| `QueriesSlice.SetActiveTabKeepsActiveOpen` | src/ui/store/slices/queriesSlice.ts:65-67 | `setActiveTab` keeps that invariant iff it names an open tab |
| `QueriesSlice.UpdateTabKeepsActiveOpen` | src/ui/store/slices/queriesSlice.ts:68-79 | editing a tab's query or title, and the pending case, keep that invariant |
| `QueriesSlice.AddToFavoritesIdempotent` | src/ui/store/slices/queriesSlice.ts:100-104 | adding a favourite twice is adding it once |
| `QueriesSlice.AddThenRemoveFavorite` | src/ui/store/slices/queriesSlice.ts:100-107 | adding a new favourite and removing it gives back the list |
| `QueriesSlice.FulfilledRecordsActiveQuery` | src/ui/store/slices/queriesSlice.ts:129-141 | a success records the active tab's query as a successful history entry with the result's execution time, and stores the result on that tab |
| `SchemaSlice.ClearSchema` | src/ui/store/slices/schemaSlice.ts:31-33 | only the snapshot is dropped |
| `SchemaSlice.ClearError` | src/ui/store/slices/schemaSlice.ts:34-36 | only `error` is cleared |
| `SchemaSlice.FetchPending` | src/ui/store/slices/schemaSlice.ts:40-43 | `loading` is set and `error` cleared, with the snapshot kept |
| `SchemaSlice.FetchFulfilled` | src/ui/store/slices/schemaSlice.ts:44-47 | `loading` is cleared and the snapshot becomes the payload, or none when it is absent |
| `SchemaSlice.FetchRejected` | src/ui/store/slices/schemaSlice.ts:48-51 | `loading` is cleared and `error` is the message if truthy, else 'Erro ao carregar schema'. The previous snapshot is kept |
| `SchemaSlice.FailedRefreshKeepsSchema` | src/ui/store/slices/schemaSlice.ts:40-51 | a failed refresh keeps the snapshot shown before it and ends with a non-empty error |
| `SchemaSlice.SuccessfulRefresh` | src/ui/store/slices/schemaSlice.ts:40-47 | a successful refresh ends with the payload, no error and `loading` false |
| `UiSlice.SetTheme` | src/ui/store/slices/uiSlice.ts:30-33 | both copies of the theme take the value, so a synchronised state stays synchronised |
| `UiSlice.SetDensity` | src/ui/store/slices/uiSlice.ts:34-37 | both copies of the density take the value, so a synchronised state stays synchronised |
| `UiSlice.ToggleSidebar` | src/ui/store/slices/uiSlice.ts:38-40 | the sidebar flag flips; nothing else changes |
| `UiSlice.SetSidebarCollapsed` | src/ui/store/slices/uiSlice.ts:41-43 | the sidebar flag takes the value; nothing else changes |
| `UiSlice.AddNotification` | src/ui/store/slices/uiSlice.ts:44-46 | the notification is appended at the end |
| `UiSlice.RemoveNotification` | src/ui/store/slices/uiSlice.ts:47-51 | every notification with the id goes and every other stays |
| `UiSlice.ClearNotifications` | src/ui/store/slices/uiSlice.ts:52-54 | the list is emptied |
| `UiSlice.UpdateConfig` | src/ui/store/slices/uiSlice.ts:55-57 | each config key present in the payload takes its value and each absent key keeps its own. The top-level theme and density are untouched |
| `UiSlice.ToggleTwice` | src/ui/store/slices/uiSlice.ts:38-40 | toggling twice restores the state |
| `UiSlice.EmptyPatch` | src/ui/store/slices/uiSlice.ts:55-57 | an empty payload changes nothing |
| `UiSlice.UpdateConfigSync` | src/ui/store/slices/uiSlice.ts:55-57 | from a synchronised state, `updateConfig` stays synchronised iff its theme and density (if given) equal the top-level ones |
| `UiSlice.AddThenRemoveNotification` | src/ui/store/slices/uiSlice.ts:44-51 | adding a notification with a new id and removing that id gives back the list |
| `UiSlice.RemoveNotificationKeepsOrder` | src/ui/store/slices/uiSlice.ts:47-51 | removal distributes over any split of the list, so the survivors keep their order |

## Left out

- The mysql2 library is an oracle. Its answers are a fixed function of each request and do not
  depend on earlier statements. The data effect of commit and rollback (which rows persist) is
  therefore not modelled, only which calls are sent.
- MySQL.Driver.Connect: the connection options (host, port, credentials, TLS, the 10-second
  timeout, utf8mb4) are passed to `mysql.createConnection`, whose outcome is a parameter here.
- MySQL.ResultOf: when the library gives no field list, the result is the TypeError text that
  `fields.map` on `undefined` produces. Whether mysql2 gives no field list for statements without
  a result set is a property of the library that is not modelled.
- MySQL.Driver.ExecuteQuery: an omitted `params` and an empty one are not told apart. The
  elapsed time is the oracle's reading of the two `Date.now()` calls.
- MySQL.Driver.GetQueryPlan and MySQL.Driver.GetServerInfo pass library output through. The
  EXPLAIN rows and the `[0]?.version` / `[0]?.Value` reads are oracle values.
- MySQL.Driver.CancelQuery: KILL QUERY is a control call of the oracle. Its interaction with a
  statement running concurrently is not modelled.
- The `console.log` / `console.error` calls are not modelled.
- MySQL.Driver.GetDatabases: SHOW DATABASES is an oracle field, so the statement is not
  recorded as sent on the connection.
- MySQL.Driver.GetTables: SHOW TABLES is an oracle field, so the statement is not recorded as
  sent on the connection.
- MySQL.Driver.GetTableInfo: the three INFORMATION_SCHEMA selects are oracle fields keyed by
  database and table, so neither the statements, their order nor their parameters are recorded.
- MySQL.Driver.GetColumns: through `getTableInfo`, its statements are not recorded either.
- MySQL.Driver.GetSchema: the listings and table descriptions it reads are not recorded as
  statements sent on the connection; only the result is tied to `SchemaOf`.
- MySQL.Driver.GetQueryPlan: the EXPLAIN statement is an oracle field and is not recorded.
- MySQL.Driver.GetServerInfo: SELECT VERSION() and SHOW VARIABLES are oracle fields and are not
  recorded.
- DriverFactory.DriverRegistry.CreateDriver: `new DriverClass()` always builds a
  `MySQL.Driver` tagged with the registered class. Constructing a different driver
  implementation is not modelled, since MySQLDriver is the only one in the code.
- QueriesSlice reducers (`updateTabQuery`, `updateTabTitle`, `updateTabConnection`,
  `clearTabResult`, `addToHistory`, `addToFavorites`, and the `executeQuery` cases), and the
  schema and ui reducers: the writes into the Immer draft (such as `tab.query = …` on the
  object `find` returned) are modelled as building a new state value. Aliasing between the
  found tab and the array is therefore not modelled, and neither is the order of the writes
  within one reducer.
- Async interleaving: every operation runs to completion before the next starts. The code has
  no locks, and concurrent handlers on one driver are not modelled.
- The `database:disconnect`, `database:execute-query` and `database:get-schema` handlers are
  not modelled: they are placeholders that ignore the manager or build a never-connected driver.
  The `file:open` / `file:save` handlers (dialogs, file system), `findVitePort`, `createWindow`
  and the app events (HTTP probing, timers, windows) are left out too.
- src/main/database.ts, src/main/clearDatabase.ts and src/main/preload.ts are not part of this
  model. They are SQLite persistence and the IPC bridge.
- The async thunk bodies (calls into `window.electronAPI`) are not modelled. Only the state
  transitions of their pending, fulfilled and rejected cases are.
- The React components, the store configuration and the build configuration are not part of
  this model.
- UiSlice.UpdateConfig: a payload key that is present with the value `undefined` would
  overwrite the setting with `undefined`. The model treats such a key as absent.
- QueriesSlice.AddTab: the generated id is 'tab-' followed by a caller-given clock reading; the
  formatting of `Date.now()` as text is not modelled. The same holds for the history entry's
  id and timestamp.
- Integers are unbounded. Execution times, row counts and ports never approach JavaScript's
  safe-integer range in this code, so no wrap-around is modelled.

## Findings

| source | as written | input that shows it | evidently intended | confidence | as-written member | corrected member |
|---|---|---|---|---|---|---|
| src/ui/store/slices/queriesSlice.ts:134-141 | `executeQuery.fulfilled` puts a new entry at the front of the history with `unshift` and never trims it | a state with 100 history entries and an open active tab, then a fulfilled query with a result: the history holds 101 entries | the cap of 100 that `addToHistory` (lines 93-99) applies to the same list | medium; not executed | `QueriesSlice.FulfilledOverflowsHistory` | `QueriesSlice.ExecuteQueryFulfilledCapped` |
