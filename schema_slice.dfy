/**
  The `schema` slice of the renderer's store
  (src/ui/store/slices/schemaSlice.ts): the last schema snapshot fetched
  and the `fetchSchema` thunk's `loading` / `error` flags.
 */
module SchemaSlice {
  import opened Types

  const FetchError := "Erro ao carregar schema"

  datatype State = State(schema: Option<DatabaseSchema>, loading: bool, error: Option<string>)

  const Initial := State(None, false, None)

  /** `clearSchema`: only the snapshot is dropped. */
  function ClearSchema(s: State): (r: State)
    ensures r.schema == None && r.loading == s.loading && r.error == s.error
  {
    s.(schema := None)
  }

  /** `clearError`: only the error is dropped. */
  function ClearError(s: State): (r: State)
    ensures r.error == None && r.schema == s.schema && r.loading == s.loading
  {
    s.(error := None)
  }

  /** `fetchSchema.pending`: loading, error cleared, the previous snapshot kept on screen. */
  function FetchPending(s: State): (r: State)
    ensures r.loading && r.error == None && r.schema == s.schema
  {
    s.(loading := true, error := None)
  }

  /** `fetchSchema.fulfilled`: the payload, or no snapshot when the payload is absent. */
  function FetchFulfilled(s: State, payload: Option<DatabaseSchema>): (r: State)
    ensures !r.loading && r.schema == payload && r.error == s.error
  {
    s.(loading := false, schema := payload)
  }

  /** `fetchSchema.rejected`: the error text or the default, with the previous snapshot kept. */
  function FetchRejected(s: State, message: Option<string>): (r: State)
    ensures !r.loading && r.schema == s.schema
    ensures r.error == Some(if Truthy(message) then message.value else FetchError)
  {
    s.(loading := false, error := OrElse(message, Some(FetchError)))
  }

  /** A failed refresh leaves the snapshot that was on screen before it started, and always
      ends with an error text that is not empty. */
  lemma FailedRefreshKeepsSchema(s: State, message: Option<string>)
    ensures FetchRejected(FetchPending(s), message).schema == s.schema
    ensures var e := FetchRejected(FetchPending(s), message).error; e.Some? && e.value != ""
  {
  }

  /** A successful refresh clears the error the pending case cleared and shows the payload. */
  lemma SuccessfulRefresh(s: State, payload: Option<DatabaseSchema>)
    ensures FetchFulfilled(FetchPending(s), payload) == State(payload, false, None)
  {
  }
}
