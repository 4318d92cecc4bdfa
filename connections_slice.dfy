/**
  The `connections` slice of the renderer's store
  (src/ui/store/slices/connectionsSlice.ts): the saved connection
  profiles, the active profile, and the `loading` / `error` flags the
  async thunks drive. Each reducer maps the previous state and the
  action's payload to the next state.
 */
module ConnectionsSlice {
  import opened Types
  import opened Seqs

  datatype State = State(
    connections: seq<DatabaseConnection>,
    activeConnection: Option<DatabaseConnection>,
    loading: bool,
    error: Option<string>)

  const Initial := State([], None, false, None)

  /** The async thunks whose pending/fulfilled/rejected cases the slice handles. */
  datatype Thunk =
    | TestConnection
    | CreateConnection
    | CloseConnection
    | LoadSavedConnections
    | SaveConnectionToDB
    | DeleteConnectionFromDB

  /** The text a rejected case falls back to when the error has no message. */
  function DefaultMessage(thunk: Thunk): string {
    match thunk
    case TestConnection => "Erro ao testar conexão"
    case CreateConnection => "Erro ao criar conexão"
    case CloseConnection => "Erro ao fechar conexão"
    case LoadSavedConnections => "Erro ao carregar conexões salvas"
    case SaveConnectionToDB => "Erro ao salvar conexão no banco de dados"
    case DeleteConnectionFromDB => "Erro ao deletar conexão do banco de dados"
  }

  function IdOf(c: DatabaseConnection): string {
    c.id
  }

  predicate HasId(s: seq<DatabaseConnection>, id: string) {
    HasKey(s, IdOf, id)
  }

  /** No two stored profiles share an id. */
  predicate UniqueIds(s: seq<DatabaseConnection>) {
    DistinctKeys(s, IdOf)
  }

  function Keeps(id: string): DatabaseConnection -> bool {
    (c: DatabaseConnection) => c.id != id
  }

  /** `findIndex(conn => conn.id === id)` */
  function IndexOfId(s: seq<DatabaseConnection>, id: string): (k: int)
    ensures -1 <= k < |s|
    ensures k >= 0 ==> s[k].id == id && forall j :: 0 <= j < k ==> s[j].id != id
    ensures k == -1 <==> !HasId(s, id)
  {
    FirstIndex(s, (c: DatabaseConnection) => c.id == id)
  }

  /** `state.connections[index] = c` at the first entry carrying `c.id`, when there is one. */
  function ReplaceFirst(s: seq<DatabaseConnection>, c: DatabaseConnection): (r: seq<DatabaseConnection>)
    ensures |r| == |s|
    ensures forall id :: HasId(r, id) <==> HasId(s, id)
    ensures IndexOfId(s, c.id) == -1 ==> r == s
    ensures IndexOfId(s, c.id) != -1 ==>
      r[IndexOfId(s, c.id)] == c &&
      forall i :: 0 <= i < |s| && i != IndexOfId(s, c.id) ==> r[i] == s[i]
  {
    var k := IndexOfId(s, c.id);
    if k == -1 then s
    else
      var r := s[k := c];
      assert forall id :: HasId(r, id) <==> HasId(s, id) by {
        forall id | HasId(s, id) ensures HasId(r, id) {
          var i :| 0 <= i < |s| && s[i].id == id;
          assert r[i].id == id;
        }
        forall id | HasId(r, id) ensures HasId(s, id) {
          var i :| 0 <= i < |r| && r[i].id == id;
          assert s[i].id == id;
        }
      }
      r
  }

  /** `state.activeConnection?.id === id ? null : state.activeConnection` */
  function ClearActiveIf(active: Option<DatabaseConnection>, id: string): (r: Option<DatabaseConnection>)
    ensures r == None <==> active == None || active.value.id == id
    ensures r != None ==> r == active
  {
    if active.Some? && active.value.id == id then None else active
  }

  // ---------------------------------------------------------------------
  // Reducers

  /** `addConnection`: the payload goes at the end; existing entries stay as they were. */
  function AddConnection(s: State, c: DatabaseConnection): (r: State)
    ensures |r.connections| == |s.connections| + 1
    ensures r.connections[..|s.connections|] == s.connections && r.connections[|s.connections|] == c
    ensures r.activeConnection == s.activeConnection && r.loading == s.loading && r.error == s.error
  {
    s.(connections := s.connections + [c])
  }

  /** `removeConnection`: every entry with the id is dropped, the rest keep their order; the
      active profile is cleared only when it carries that id. */
  function RemoveConnection(s: State, id: string): (r: State)
    ensures !HasId(r.connections, id)
    ensures forall c :: c in r.connections <==> c in s.connections && c.id != id
    ensures r.activeConnection == ClearActiveIf(s.activeConnection, id)
    ensures r.loading == s.loading && r.error == s.error
  {
    var kept := Filter(s.connections, Keeps(id));
    assert !HasId(kept, id) by {
      forall i | 0 <= i < |kept| ensures kept[i].id != id {
        assert kept[i] in kept;
      }
    }
    s.(connections := kept, activeConnection := ClearActiveIf(s.activeConnection, id))
  }

  /** `setActiveConnection` */
  function SetActiveConnection(s: State, c: Option<DatabaseConnection>): (r: State)
    ensures r.activeConnection == c
    ensures r.connections == s.connections && r.loading == s.loading && r.error == s.error
  {
    s.(activeConnection := c)
  }

  /** `updateConnection`: the first entry with the payload's id is replaced; no entry is added
      or removed. */
  function UpdateConnection(s: State, c: DatabaseConnection): (r: State)
    ensures |r.connections| == |s.connections|
    ensures forall id :: HasId(r.connections, id) <==> HasId(s.connections, id)
    ensures HasId(s.connections, c.id) ==>
      var k := IndexOfId(s.connections, c.id);
      r.connections[k] == c && forall i :: 0 <= i < |s.connections| && i != k ==> r.connections[i] == s.connections[i]
    ensures !HasId(s.connections, c.id) ==> r == s
    ensures r.activeConnection == s.activeConnection && r.loading == s.loading && r.error == s.error
  {
    s.(connections := ReplaceFirst(s.connections, c))
  }

  /** `clearError` */
  function ClearError(s: State): (r: State)
    ensures r.error == None
    ensures r.connections == s.connections && r.activeConnection == s.activeConnection && r.loading == s.loading
  {
    s.(error := None)
  }

  /** Every pending case: loading, with the error cleared. */
  function Pending(s: State, thunk: Thunk): (r: State)
    ensures r.loading && r.error == None
    ensures r.connections == s.connections && r.activeConnection == s.activeConnection
  {
    s.(loading := true, error := None)
  }

  /** Every rejected case: `action.error.message || <the thunk's default text>`. */
  function Rejected(s: State, thunk: Thunk, message: Option<string>): (r: State)
    ensures !r.loading && r.error.Some? && r.error.value != ""
    ensures r.error == if Truthy(message) then message else Some(DefaultMessage(thunk))
    ensures r.connections == s.connections && r.activeConnection == s.activeConnection
  {
    s.(loading := false, error := OrElse(message, Some(DefaultMessage(thunk))))
  }

  /** `testConnection.fulfilled` */
  function TestConnectionFulfilled(s: State): (r: State)
    ensures !r.loading
    ensures r.connections == s.connections && r.activeConnection == s.activeConnection && r.error == s.error
  {
    s.(loading := false)
  }

  /** `createConnection.fulfilled`: upsert by id, then make the payload the active profile. */
  function CreateConnectionFulfilled(s: State, c: DatabaseConnection): (r: State)
    ensures !r.loading && r.activeConnection == Some(c) && r.error == s.error
    ensures c in r.connections
    ensures !HasId(s.connections, c.id) ==> r.connections == s.connections + [c]
    ensures HasId(s.connections, c.id) ==> r.connections == UpdateConnection(s, c).connections
    ensures forall id :: HasId(r.connections, id) <==> HasId(s.connections, id) || id == c.id
  {
    var connections :=
      if IndexOfId(s.connections, c.id) == -1 then s.connections + [c]
      else ReplaceFirst(s.connections, c);
    var r := s.(loading := false, connections := connections, activeConnection := Some(c));
    if IndexOfId(s.connections, c.id) == -1 then
      assert r.connections[|s.connections|] == c;
      assert forall id :: HasId(r.connections, id) <==> HasId(s.connections, id) || id == c.id by {
        forall id | HasId(r.connections, id) && id != c.id ensures HasId(s.connections, id) {
          var i :| 0 <= i < |r.connections| && r.connections[i].id == id;
          assert s.connections[i].id == id;
        }
        forall id | HasId(s.connections, id) ensures HasId(r.connections, id) {
          var i :| 0 <= i < |s.connections| && s.connections[i].id == id;
          assert r.connections[i].id == id;
        }
      }
      r
    else
      assert r.connections[IndexOfId(s.connections, c.id)] == c;
      r
  }

  /** `closeConnection.fulfilled`: the list is untouched; the active profile is cleared when it
      is the one closed. */
  function CloseConnectionFulfilled(s: State, id: string): (r: State)
    ensures !r.loading && r.connections == s.connections && r.error == s.error
    ensures r.activeConnection == ClearActiveIf(s.activeConnection, id)
  {
    s.(loading := false, activeConnection := ClearActiveIf(s.activeConnection, id))
  }

  /** `loadSavedConnections.fulfilled`: the payload with repeated ids removed, the first
      profile of each id kept, in payload order. The `Map` is represented by the set of ids it
      holds and its values in insertion order. */
  method LoadSavedConnectionsFulfilled(s: State, payload: seq<DatabaseConnection>) returns (r: State)
    ensures r == s.(loading := false, connections := KeepFirstBy(payload, IdOf))
  {
    var seen: set<string> := {};
    var unique: seq<DatabaseConnection> := [];
    for k := 0 to |payload|
      invariant unique == KeepFirstBy(payload[..k], IdOf)
      invariant forall id :: id in seen <==> HasId(unique, id)
    {
      var c := payload[k];
      assert payload[..k + 1][..k] == payload[..k];
      assert payload[..k + 1][k] == c;
      if c.id !in seen {
        seen := seen + {c.id};
        unique := unique + [c];
        assert forall id :: id in seen <==> HasId(unique, id) by {
          forall id | HasId(unique, id) && id != c.id ensures id in seen {
            var i :| 0 <= i < |unique| && unique[i].id == id;
            assert i < |unique| - 1;
            assert unique[i] == unique[..|unique| - 1][i];
          }
          assert unique[|unique| - 1].id == c.id;
          forall id | id in seen ensures HasId(unique, id) {
            if id != c.id {
              var i :| 0 <= i < |unique| - 1 && unique[..|unique| - 1][i].id == id;
              assert unique[i].id == id;
            }
          }
        }
      }
    }
    assert payload[..|payload|] == payload;
    r := s.(loading := false, connections := unique);
  }

  /** `saveConnectionToDB.fulfilled`: replaces an existing entry and never adds one. */
  function SaveConnectionToDBFulfilled(s: State, c: DatabaseConnection): (r: State)
    ensures !r.loading && r.activeConnection == s.activeConnection && r.error == s.error
    ensures r.connections == UpdateConnection(s, c).connections
  {
    UpdateConnection(s, c).(loading := false)
  }

  /** `deleteConnectionFromDB.fulfilled`: the same removal as `removeConnection`. */
  function DeleteConnectionFromDBFulfilled(s: State, id: string): (r: State)
    ensures !r.loading && r.error == s.error
    ensures r.connections == RemoveConnection(s, id).connections
    ensures r.activeConnection == RemoveConnection(s, id).activeConnection
  {
    RemoveConnection(s, id).(loading := false)
  }

  // ---------------------------------------------------------------------
  // Properties

  /** Removal keeps the order of the entries that stay. */
  lemma RemoveConnectionKeepsOrder(s: State, id: string, prefix: seq<DatabaseConnection>, rest: seq<DatabaseConnection>)
    requires s.connections == prefix + rest
    ensures RemoveConnection(s, id).connections ==
      RemoveConnection(s.(connections := prefix), id).connections + RemoveConnection(s.(connections := rest), id).connections
  {
    FilterConcat(prefix, rest, Keeps(id));
  }

  /** Removing an id that is not stored changes nothing in the list. */
  lemma RemoveAbsentId(s: State, id: string)
    requires !HasId(s.connections, id)
    ensures RemoveConnection(s, id).connections == s.connections
  {
    forall i | 0 <= i < |s.connections| ensures Keeps(id)(s.connections[i]) {
    }
    FilterKeepsAll(s.connections, Keeps(id));
  }

  /** Adding a profile with a new id and removing that id again gives back the list. */
  lemma AddThenRemove(s: State, c: DatabaseConnection)
    requires !HasId(s.connections, c.id)
    ensures RemoveConnection(AddConnection(s, c), c.id).connections == s.connections
  {
    FilterConcat(s.connections, [c], Keeps(c.id));
    RemoveAbsentId(s, c.id);
  }

  /** `addConnection` keeps ids unique exactly when the new id is not already stored. */
  lemma AddConnectionUniqueIds(s: State, c: DatabaseConnection)
    requires UniqueIds(s.connections)
    ensures UniqueIds(AddConnection(s, c).connections) <==> !HasId(s.connections, c.id)
  {
    var r := AddConnection(s, c).connections;
    if HasId(s.connections, c.id) {
      var i :| 0 <= i < |s.connections| && s.connections[i].id == c.id;
      assert r[i].id == r[|s.connections|].id;
    }
  }

  /** Upserting keeps ids unique: `createConnection.fulfilled` never duplicates an id. */
  lemma CreateConnectionUniqueIds(s: State, c: DatabaseConnection)
    requires UniqueIds(s.connections)
    ensures UniqueIds(CreateConnectionFulfilled(s, c).connections)
  {
    var r := CreateConnectionFulfilled(s, c).connections;
    var k := IndexOfId(s.connections, c.id);
    if k == -1 {
      AddConnectionUniqueIds(s, c);
      assert r == AddConnection(s, c).connections;
    } else {
      forall i, j | 0 <= i < j < |r| ensures r[i].id != r[j].id {
        assert r[i].id == s.connections[i].id && r[j].id == s.connections[j].id by {
          assert r[k].id == s.connections[k].id;
        }
      }
    }
  }

  /** Updating keeps ids unique, and updating twice with the same profile is updating once. */
  lemma UpdateConnectionIdempotent(s: State, c: DatabaseConnection)
    ensures UpdateConnection(UpdateConnection(s, c), c) == UpdateConnection(s, c)
    ensures UniqueIds(s.connections) ==> UniqueIds(UpdateConnection(s, c).connections)
  {
    var r := UpdateConnection(s, c);
    var k := IndexOfId(s.connections, c.id);
    if k != -1 {
      assert IndexOfId(r.connections, c.id) == k by {
        forall j | 0 <= j < k ensures r.connections[j].id != c.id {
          assert r.connections[j] == s.connections[j];
        }
      }
      assert r.connections[k := c] == r.connections;
      forall i, j | 0 <= i < j < |r.connections| && UniqueIds(s.connections)
        ensures r.connections[i].id != r.connections[j].id
      {
        assert r.connections[i].id == s.connections[i].id;
        assert r.connections[j].id == s.connections[j].id;
      }
    }
  }

  /** The loaded list has unique ids, holds a profile for every id of the payload, and holds the
      first profile of the payload carrying each id; a payload without repeats is kept as is. */
  lemma LoadedConnections(s: State, payload: seq<DatabaseConnection>)
    ensures var loaded := KeepFirstBy(payload, IdOf);
      && UniqueIds(loaded)
      && (forall id :: HasId(loaded, id) <==> HasId(payload, id))
      && loaded == FirstOccurrences(payload, IdOf, |payload|)
      && (UniqueIds(payload) ==> loaded == payload)
  {
    KeepFirstByIsFirstOccurrences(payload, IdOf);
    if UniqueIds(payload) {
      KeepFirstByDistinct(payload, IdOf);
    }
  }
}
