/**
  The `queries` slice of the renderer's store
  (src/ui/store/slices/queriesSlice.ts): the editor tabs and the active
  tab, the query history (newest first, at most 100 entries), the
  favourite queries, and the `executeQuery` thunk's effect on the
  active tab.
 */
module QueriesSlice {
  import opened Types
  import opened Seqs

  const HistoryLimit := 100
  const DefaultTitle := "Nova Query"
  const ExecuteError := "Erro ao executar query"

  datatype QueryTab = QueryTab(
    id: string,
    title: string,
    query: string,
    connectionId: Option<string>,
    result: Option<QueryResult>,
    loading: bool,
    error: Option<string>)

  /** The fields of the `Partial<QueryTab>` payload of `addTab` that the reducer reads. */
  datatype TabDraft = TabDraft(
    id: Option<string>,
    title: Option<string>,
    query: Option<string>,
    connectionId: Option<string>)

  datatype State = State(
    tabs: seq<QueryTab>,
    activeTabId: Option<string>,
    history: seq<QueryHistory>,
    favorites: seq<string>,
    loading: bool,
    error: Option<string>)

  const Initial := State([], None, [], [], false, None)

  predicate HasTab(tabs: seq<QueryTab>, id: string) {
    exists i :: 0 <= i < |tabs| && tabs[i].id == id
  }

  /** `tabs.find(t => t.id === id)`, as an index (-1 when there is none). */
  function TabIndex(tabs: seq<QueryTab>, id: string): (k: int)
    ensures -1 <= k < |tabs|
    ensures k >= 0 ==> tabs[k].id == id && forall j :: 0 <= j < k ==> tabs[j].id != id
    ensures k == -1 <==> !HasTab(tabs, id)
  {
    FirstIndex(tabs, (t: QueryTab) => t.id == id)
  }

  /** The tab `tabs.find(tab => tab.id === state.activeTabId)` finds; none when no tab is active. */
  function ActiveIndex(s: State): (k: int)
    ensures -1 <= k < |s.tabs|
    ensures k >= 0 <==> s.activeTabId.Some? && HasTab(s.tabs, s.activeTabId.value)
    ensures k >= 0 ==> k == TabIndex(s.tabs, s.activeTabId.value)
  {
    if s.activeTabId.None? then -1 else TabIndex(s.tabs, s.activeTabId.value)
  }

  /** Applies `f` to the tab `find` returns; every other tab is left alone. */
  function UpdateTab(tabs: seq<QueryTab>, id: string, f: QueryTab -> QueryTab): (r: seq<QueryTab>)
    ensures |r| == |tabs|
    ensures forall i :: 0 <= i < |tabs| ==>
      r[i] == if i == TabIndex(tabs, id) then f(tabs[i]) else tabs[i]
  {
    var k := TabIndex(tabs, id);
    if k == -1 then tabs else tabs[k := f(tabs[k])]
  }

  /** The active tab, when it exists, is open, and some tab is active whenever a tab is open. */
  predicate ActiveIsOpenTab(s: State) {
    (s.activeTabId.Some? ==> HasTab(s.tabs, s.activeTabId.value)) &&
    (s.tabs != [] ==> s.activeTabId.Some?)
  }

  /** `state.history` never holds more than 100 entries. */
  predicate HistoryBounded(s: State) {
    |s.history| <= HistoryLimit
  }

  predicate NoDuplicates(s: seq<string>) {
    forall i, j :: 0 <= i < j < |s| ==> s[i] != s[j]
  }

  // ---------------------------------------------------------------------
  // Tabs

  /** `addTab`: one new tab at the end, with the draft's truthy fields and the defaults
      otherwise, which becomes the active tab. `stamp` is the `Date.now()` of the generated id. */
  function AddTab(s: State, draft: TabDraft, stamp: string): (r: State)
    ensures |r.tabs| == |s.tabs| + 1 && r.tabs[..|s.tabs|] == s.tabs
    ensures var tab := r.tabs[|s.tabs|];
      && tab.id == (if Truthy(draft.id) then draft.id.value else "tab-" + stamp)
      && tab.title == (if Truthy(draft.title) then draft.title.value else DefaultTitle)
      && tab.query == (if Truthy(draft.query) then draft.query.value else "")
      && tab.connectionId == (if Truthy(draft.connectionId) then draft.connectionId else None)
      && tab.result == None && !tab.loading && tab.error == None
      && r.activeTabId == Some(tab.id)
    ensures r.history == s.history && r.favorites == s.favorites
    ensures r.loading == s.loading && r.error == s.error
  {
    var tab := QueryTab(
      if Truthy(draft.id) then draft.id.value else "tab-" + stamp,
      if Truthy(draft.title) then draft.title.value else DefaultTitle,
      if Truthy(draft.query) then draft.query.value else "",
      if Truthy(draft.connectionId) then draft.connectionId else None,
      None, false, None);
    s.(tabs := s.tabs + [tab], activeTabId := Some(tab.id))
  }

  function KeepsTab(id: string): QueryTab -> bool {
    (t: QueryTab) => t.id != id
  }

  /** `removeTab`: every tab with the id is closed, the others keep their order; when the active
      tab was closed, the first remaining tab (or none) becomes active. */
  function RemoveTab(s: State, id: string): (r: State)
    ensures !HasTab(r.tabs, id)
    ensures forall t :: t in r.tabs <==> t in s.tabs && t.id != id
    ensures s.activeTabId == Some(id) ==>
      var k := FirstIndex(s.tabs, KeepsTab(id));
      r.activeTabId == if k < 0 then None else Some(s.tabs[k].id)
    ensures s.activeTabId != Some(id) ==> r.activeTabId == s.activeTabId
    ensures r.history == s.history && r.favorites == s.favorites
    ensures r.loading == s.loading && r.error == s.error
  {
    var kept := Filter(s.tabs, KeepsTab(id));
    assert !HasTab(kept, id) by {
      forall i | 0 <= i < |kept| ensures kept[i].id != id {
        assert kept[i] in kept;
      }
    }
    FilterHead(s.tabs, KeepsTab(id));
    var active :=
      if s.activeTabId == Some(id) then (if |kept| > 0 then Some(kept[0].id) else None)
      else s.activeTabId;
    s.(tabs := kept, activeTabId := active)
  }

  /** `setActiveTab` */
  function SetActiveTab(s: State, id: string): (r: State)
    ensures r.activeTabId == Some(id)
    ensures r.tabs == s.tabs && r.history == s.history && r.favorites == s.favorites
    ensures r.loading == s.loading && r.error == s.error
  {
    s.(activeTabId := Some(id))
  }

  /** `updateTabQuery`: only the query of the first tab with the id changes. */
  function UpdateTabQuery(s: State, tabId: string, query: string): (r: State)
    ensures |r.tabs| == |s.tabs|
    ensures forall i :: 0 <= i < |s.tabs| ==>
      r.tabs[i] == if i == TabIndex(s.tabs, tabId) then s.tabs[i].(query := query) else s.tabs[i]
    ensures !HasTab(s.tabs, tabId) ==> r == s
    ensures r.activeTabId == s.activeTabId && r.history == s.history && r.favorites == s.favorites
    ensures r.loading == s.loading && r.error == s.error
  {
    var r := s.(tabs := UpdateTab(s.tabs, tabId, (t: QueryTab) => t.(query := query)));
    assert !HasTab(s.tabs, tabId) ==> r.tabs == s.tabs;
    r
  }

  /** `updateTabTitle`: only the title of the first tab with the id changes. */
  function UpdateTabTitle(s: State, tabId: string, title: string): (r: State)
    ensures |r.tabs| == |s.tabs|
    ensures forall i :: 0 <= i < |s.tabs| ==>
      r.tabs[i] == if i == TabIndex(s.tabs, tabId) then s.tabs[i].(title := title) else s.tabs[i]
    ensures !HasTab(s.tabs, tabId) ==> r == s
    ensures r.activeTabId == s.activeTabId && r.history == s.history && r.favorites == s.favorites
    ensures r.loading == s.loading && r.error == s.error
  {
    var r := s.(tabs := UpdateTab(s.tabs, tabId, (t: QueryTab) => t.(title := title)));
    assert !HasTab(s.tabs, tabId) ==> r.tabs == s.tabs;
    r
  }

  /** `updateTabConnection`: only the connection of the first tab with the id changes. */
  function UpdateTabConnection(s: State, tabId: string, connectionId: Option<string>): (r: State)
    ensures |r.tabs| == |s.tabs|
    ensures forall i :: 0 <= i < |s.tabs| ==>
      r.tabs[i] == if i == TabIndex(s.tabs, tabId) then s.tabs[i].(connectionId := connectionId) else s.tabs[i]
    ensures !HasTab(s.tabs, tabId) ==> r == s
    ensures r.activeTabId == s.activeTabId && r.history == s.history && r.favorites == s.favorites
    ensures r.loading == s.loading && r.error == s.error
  {
    var r := s.(tabs := UpdateTab(s.tabs, tabId, (t: QueryTab) => t.(connectionId := connectionId)));
    assert !HasTab(s.tabs, tabId) ==> r.tabs == s.tabs;
    r
  }

  /** `clearTabResult`: the result and error of the first tab with the id are cleared. */
  function ClearTabResult(s: State, tabId: string): (r: State)
    ensures |r.tabs| == |s.tabs|
    ensures forall i :: 0 <= i < |s.tabs| ==>
      r.tabs[i] == if i == TabIndex(s.tabs, tabId) then s.tabs[i].(result := None, error := None) else s.tabs[i]
    ensures r.activeTabId == s.activeTabId && r.history == s.history && r.favorites == s.favorites
    ensures r.loading == s.loading && r.error == s.error
  {
    s.(tabs := UpdateTab(s.tabs, tabId, (t: QueryTab) => t.(result := None, error := None)))
  }

  // ---------------------------------------------------------------------
  // History and favourites

  /** Keep the newest 100 entries. */
  function Capped(history: seq<QueryHistory>): (r: seq<QueryHistory>)
    ensures |r| <= HistoryLimit
    ensures |history| <= HistoryLimit ==> r == history
    ensures |history| > HistoryLimit ==> r == history[..HistoryLimit]
  {
    if |history| > HistoryLimit then history[..HistoryLimit] else history
  }

  /** `addToHistory`: the entry goes first; past 100 entries the oldest are dropped. */
  function AddToHistory(s: State, entry: QueryHistory): (r: State)
    ensures |r.history| == if |s.history| < HistoryLimit then |s.history| + 1 else HistoryLimit
    ensures r.history[0] == entry
    ensures forall i :: 1 <= i < |r.history| ==> r.history[i] == s.history[i - 1]
    ensures r.tabs == s.tabs && r.activeTabId == s.activeTabId && r.favorites == s.favorites
    ensures r.loading == s.loading && r.error == s.error
  {
    s.(history := Capped([entry] + s.history))
  }

  /** `clearHistory` */
  function ClearHistory(s: State): (r: State)
    ensures r.history == []
    ensures r.tabs == s.tabs && r.activeTabId == s.activeTabId && r.favorites == s.favorites
    ensures r.loading == s.loading && r.error == s.error
  {
    s.(history := [])
  }

  /** `addToFavorites`: appended unless already present. */
  function AddToFavorites(s: State, query: string): (r: State)
    ensures query in r.favorites
    ensures forall q :: q in r.favorites <==> q in s.favorites || q == query
    ensures |s.favorites| <= |r.favorites| && r.favorites[..|s.favorites|] == s.favorites
    ensures NoDuplicates(s.favorites) ==> NoDuplicates(r.favorites)
    ensures r.tabs == s.tabs && r.activeTabId == s.activeTabId && r.history == s.history
    ensures r.loading == s.loading && r.error == s.error
  {
    if query in s.favorites then s
    else
      var r := s.(favorites := s.favorites + [query]);
      assert r.favorites[|s.favorites|] == query;
      r
  }

  function KeepsFavorite(query: string): string -> bool {
    (q: string) => q != query
  }

  /** `removeFromFavorites`: every occurrence goes, the rest keep their order. */
  function RemoveFromFavorites(s: State, query: string): (r: State)
    ensures query !in r.favorites
    ensures forall q :: q in r.favorites <==> q in s.favorites && q != query
    ensures r.tabs == s.tabs && r.activeTabId == s.activeTabId && r.history == s.history
    ensures r.loading == s.loading && r.error == s.error
  {
    s.(favorites := Filter(s.favorites, KeepsFavorite(query)))
  }

  /** `clearError` */
  function ClearError(s: State): (r: State)
    ensures r.error == None
    ensures r.tabs == s.tabs && r.activeTabId == s.activeTabId && r.history == s.history
    ensures r.favorites == s.favorites && r.loading == s.loading
  {
    s.(error := None)
  }

  // ---------------------------------------------------------------------
  // executeQuery

  /** `executeQuery.pending`: loading globally and on the active tab, whose error is cleared. */
  function ExecuteQueryPending(s: State): (r: State)
    ensures r.loading && r.error == None
    ensures |r.tabs| == |s.tabs|
    ensures forall i :: 0 <= i < |s.tabs| ==>
      r.tabs[i] == if i == ActiveIndex(s) then s.tabs[i].(loading := true, error := None) else s.tabs[i]
    ensures r.activeTabId == s.activeTabId && r.history == s.history && r.favorites == s.favorites
  {
    if s.activeTabId.None? then s.(loading := true, error := None)
    else
      s.(loading := true, error := None,
         tabs := UpdateTab(s.tabs, s.activeTabId.value, (t: QueryTab) => t.(loading := true, error := None)))
  }

  /** The history entry `executeQuery.fulfilled` records for the active tab. */
  function SuccessEntry(tab: QueryTab, result: QueryResult, stamp: string, timestamp: string): QueryHistory {
    QueryHistory(
      "history-" + stamp,
      tab.query,
      if Truthy(tab.connectionId) then tab.connectionId.value else "",
      result.executionTime,
      timestamp,
      true,
      None)
  }

  /** `executeQuery.fulfilled` as written: with an active tab and a result, the result is stored
      on the tab and a success entry is put first in the history, with no cap applied.
      `stamp` and `timestamp` are the clock readings of the entry's id and time. */
  function ExecuteQueryFulfilled(s: State, payload: Option<QueryResult>, stamp: string, timestamp: string): (r: State)
    ensures !r.loading && r.error == s.error
    ensures r.activeTabId == s.activeTabId && r.favorites == s.favorites && |r.tabs| == |s.tabs|
    ensures ActiveIndex(s) == -1 || payload.None? ==> r.tabs == s.tabs && r.history == s.history
    ensures ActiveIndex(s) != -1 && payload.Some? ==>
      var k := ActiveIndex(s);
      && r.tabs[k] == s.tabs[k].(loading := false, result := payload)
      && (forall i :: 0 <= i < |s.tabs| && i != k ==> r.tabs[i] == s.tabs[i])
      && r.history == [SuccessEntry(s.tabs[k], payload.value, stamp, timestamp)] + s.history
  {
    var k := ActiveIndex(s);
    if k == -1 || payload.None? then s.(loading := false)
    else
      var tab := s.tabs[k];
      s.(loading := false,
         tabs := s.tabs[k := tab.(loading := false, result := payload)],
         history := [SuccessEntry(tab, payload.value, stamp, timestamp)] + s.history)
  }

  /** The fulfilled case with the history cap `addToHistory` applies: identical except that
      the history is trimmed to the newest 100 entries. */
  function ExecuteQueryFulfilledCapped(s: State, payload: Option<QueryResult>, stamp: string, timestamp: string): (r: State)
    ensures HistoryBounded(s) ==> HistoryBounded(r)
    ensures r.history == Capped(ExecuteQueryFulfilled(s, payload, stamp, timestamp).history)
    ensures r == ExecuteQueryFulfilled(s, payload, stamp, timestamp).(history := r.history)
  {
    var written := ExecuteQueryFulfilled(s, payload, stamp, timestamp);
    written.(history := Capped(written.history))
  }

  /** `executeQuery.rejected`: the error text (or the default) globally and on the active tab,
      and loading cleared on both. */
  function ExecuteQueryRejected(s: State, message: Option<string>): (r: State)
    ensures !r.loading && r.error == Some(if Truthy(message) then message.value else ExecuteError)
    ensures |r.tabs| == |s.tabs|
    ensures forall i :: 0 <= i < |s.tabs| ==>
      r.tabs[i] == if i == ActiveIndex(s) then s.tabs[i].(loading := false, error := r.error) else s.tabs[i]
    ensures r.activeTabId == s.activeTabId && r.history == s.history && r.favorites == s.favorites
  {
    var text := OrElse(message, Some(ExecuteError));
    if s.activeTabId.None? then s.(loading := false, error := text)
    else
      s.(loading := false, error := text,
         tabs := UpdateTab(s.tabs, s.activeTabId.value, (t: QueryTab) => t.(loading := false, error := text)))
  }

  // ---------------------------------------------------------------------
  // The slice's reducer

  datatype Action =
    | AddTabAction(draft: TabDraft, stamp: string)
    | RemoveTabAction(id: string)
    | SetActiveTabAction(id: string)
    | UpdateTabQueryAction(tabId: string, query: string)
    | UpdateTabTitleAction(tabId: string, title: string)
    | UpdateTabConnectionAction(tabId: string, connectionId: Option<string>)
    | ClearTabResultAction(tabId: string)
    | AddToHistoryAction(entry: QueryHistory)
    | AddToFavoritesAction(query: string)
    | RemoveFromFavoritesAction(query: string)
    | ClearHistoryAction
    | ClearErrorAction
    | ExecutePending
    | ExecuteFulfilled(payload: Option<QueryResult>, stamp: string, timestamp: string)
    | ExecuteRejected(message: Option<string>)

  /** One dispatch, with the capped fulfilled case. */
  function Reduce(s: State, a: Action): State {
    match a
    case AddTabAction(draft, stamp) => AddTab(s, draft, stamp)
    case RemoveTabAction(id) => RemoveTab(s, id)
    case SetActiveTabAction(id) => SetActiveTab(s, id)
    case UpdateTabQueryAction(tabId, query) => UpdateTabQuery(s, tabId, query)
    case UpdateTabTitleAction(tabId, title) => UpdateTabTitle(s, tabId, title)
    case UpdateTabConnectionAction(tabId, connectionId) => UpdateTabConnection(s, tabId, connectionId)
    case ClearTabResultAction(tabId) => ClearTabResult(s, tabId)
    case AddToHistoryAction(entry) => AddToHistory(s, entry)
    case AddToFavoritesAction(query) => AddToFavorites(s, query)
    case RemoveFromFavoritesAction(query) => RemoveFromFavorites(s, query)
    case ClearHistoryAction => ClearHistory(s)
    case ClearErrorAction => ClearError(s)
    case ExecutePending => ExecuteQueryPending(s)
    case ExecuteFulfilled(payload, stamp, timestamp) => ExecuteQueryFulfilledCapped(s, payload, stamp, timestamp)
    case ExecuteRejected(message) => ExecuteQueryRejected(s, message)
  }

  function ReduceAll(s: State, actions: seq<Action>): State
    decreases |actions|
  {
    if actions == [] then s else ReduceAll(Reduce(s, actions[0]), actions[1..])
  }

  // ---------------------------------------------------------------------
  // Properties

  /** With the cap on the fulfilled case, no sequence of actions grows the history past 100. */
  lemma {:induction false} HistoryStaysBounded(s: State, actions: seq<Action>)
    requires HistoryBounded(s)
    ensures HistoryBounded(ReduceAll(s, actions))
    decreases |actions|
  {
    if actions != [] {
      var next := Reduce(s, actions[0]);
      assert HistoryBounded(next);
      HistoryStaysBounded(next, actions[1..]);
    }
  }

  /** As written, one successful execution on a full history leaves 101 entries. */
  lemma FulfilledOverflowsHistory(s: State, result: QueryResult, stamp: string, timestamp: string)
    requires |s.history| == HistoryLimit && ActiveIndex(s) != -1
    ensures |ExecuteQueryFulfilled(s, Some(result), stamp, timestamp).history| == HistoryLimit + 1
    ensures !HistoryBounded(ExecuteQueryFulfilled(s, Some(result), stamp, timestamp))
  {
  }

  /** A concrete state that reaches the overflow: one open, active tab and a full history. */
  lemma OverflowWitness(entry: QueryHistory, result: QueryResult)
    ensures var tab := QueryTab("tab-1", DefaultTitle, "SELECT 1", None, None, true, None);
      var s := State([tab], Some("tab-1"), seq(HistoryLimit, i => entry), [], true, None);
      HistoryBounded(s) && !HistoryBounded(ExecuteQueryFulfilled(s, Some(result), "2", "t"))
  {
    var tab := QueryTab("tab-1", DefaultTitle, "SELECT 1", None, None, true, None);
    var s := State([tab], Some("tab-1"), seq(HistoryLimit, i => entry), [], true, None);
    assert TabIndex(s.tabs, "tab-1") == 0;
    FulfilledOverflowsHistory(s, result, "2", "t");
  }

  /** Below the cap, `addToHistory` drops nothing. */
  lemma AddToHistoryBelowCap(s: State, entry: QueryHistory)
    requires |s.history| < HistoryLimit
    ensures AddToHistory(s, entry).history == [entry] + s.history
  {
  }

  /** `addTab` always leaves an open, active tab. */
  lemma AddTabActivates(s: State, draft: TabDraft, stamp: string)
    ensures ActiveIsOpenTab(AddTab(s, draft, stamp))
  {
    var r := AddTab(s, draft, stamp);
    assert r.tabs[|s.tabs|].id == r.activeTabId.value;
  }

  /** `removeTab` repairs the active tab: an open, active tab stays so. */
  lemma RemoveTabKeepsActiveOpen(s: State, id: string)
    requires ActiveIsOpenTab(s)
    ensures ActiveIsOpenTab(RemoveTab(s, id))
  {
    var r := RemoveTab(s, id);
    if s.activeTabId == Some(id) {
      if r.tabs != [] {
        assert r.tabs[0].id == r.activeTabId.value;
      }
    } else if s.activeTabId.Some? {
      var i :| 0 <= i < |s.tabs| && s.tabs[i].id == s.activeTabId.value;
      assert s.tabs[i] in r.tabs;
      var j :| 0 <= j < |r.tabs| && r.tabs[j] == s.tabs[i];
    } else {
      assert s.tabs == [];
    }
  }

  /** Closing tabs distributes over any split of the tab list, so the open tabs keep their order. */
  lemma RemoveTabKeepsOrder(s: State, id: string, left: seq<QueryTab>, right: seq<QueryTab>)
    requires s.tabs == left + right
    ensures RemoveTab(s, id).tabs ==
      RemoveTab(s.(tabs := left), id).tabs + RemoveTab(s.(tabs := right), id).tabs
  {
    FilterConcat(left, right, KeepsTab(id));
  }

  /** `setActiveTab` keeps the active tab open exactly when it names an open tab. */
  lemma SetActiveTabKeepsActiveOpen(s: State, id: string)
    ensures ActiveIsOpenTab(SetActiveTab(s, id)) <==> HasTab(s.tabs, id)
  {
  }

  /** Editing a tab changes no tab id, so an open, active tab stays so. */
  lemma UpdateTabKeepsActiveOpen(s: State, tabId: string, query: string, title: string)
    requires ActiveIsOpenTab(s)
    ensures ActiveIsOpenTab(UpdateTabQuery(s, tabId, query))
    ensures ActiveIsOpenTab(UpdateTabTitle(s, tabId, title))
    ensures ActiveIsOpenTab(ExecuteQueryPending(s))
  {
    if s.activeTabId.Some? {
      var i :| 0 <= i < |s.tabs| && s.tabs[i].id == s.activeTabId.value;
      assert UpdateTabQuery(s, tabId, query).tabs[i].id == s.activeTabId.value;
      assert UpdateTabTitle(s, tabId, title).tabs[i].id == s.activeTabId.value;
      assert ExecuteQueryPending(s).tabs[i].id == s.activeTabId.value;
    }
  }

  /** Adding a favourite twice is adding it once. */
  lemma AddToFavoritesIdempotent(s: State, query: string)
    ensures AddToFavorites(AddToFavorites(s, query), query) == AddToFavorites(s, query)
  {
  }

  /** Adding a new favourite and removing it again gives back the list. */
  lemma {:induction false} AddThenRemoveFavorite(s: State, query: string)
    requires query !in s.favorites
    ensures RemoveFromFavorites(AddToFavorites(s, query), query).favorites == s.favorites
  {
    FilterConcat(s.favorites, [query], KeepsFavorite(query));
    forall i | 0 <= i < |s.favorites| ensures KeepsFavorite(query)(s.favorites[i]) {
    }
    FilterKeepsAll(s.favorites, KeepsFavorite(query));
  }

  /** A successful execution that finds an active tab records that tab's query in the history. */
  lemma FulfilledRecordsActiveQuery(s: State, result: QueryResult, stamp: string, timestamp: string)
    requires ActiveIndex(s) != -1
    ensures var r := ExecuteQueryFulfilledCapped(s, Some(result), stamp, timestamp);
      && r.history[0].query == s.tabs[ActiveIndex(s)].query
      && r.history[0].success
      && r.history[0].executionTime == result.executionTime
      && r.tabs[ActiveIndex(s)].result == Some(result)
      && !r.tabs[ActiveIndex(s)].loading
  {
  }
}
