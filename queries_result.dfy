/** The error type of the generated query code (`hartex-database-queries`, `src/result.rs`)
    and the conversion of database-driver results into it. */
module QueriesResult {
  import opened Wrappers

  /** `wtx::Error`, an opaque driver error. */
  datatype WtxError = WtxError(description: string)

  /** `Error`: a static message from the generated code, or a driver error. */
  datatype QueryError = Generic(message: string) | Wtx(wtx: WtxError)

  /** `impl From<WtxError> for Error`. */
  function FromWtx(err: WtxError): (r: QueryError)
    ensures r.Wtx? && r.wtx == err
  {
    Wtx(err)
  }

  /** `IntoCrateResult::into_crate_result`: a success keeps its value, a driver error is
      wrapped; a `Generic` error never comes out of it. */
  function IntoCrateResult<T>(res: Result<T, WtxError>): (r: Result<T, QueryError>)
    ensures r.Ok? <==> res.Ok?
    ensures res.Ok? ==> r.value == res.value
    ensures res.Err? ==> r.error == FromWtx(res.error)
    ensures r.Err? ==> !r.error.Generic?
  {
    match res
    case Ok(t) => Ok(t)
    case Err(e) => Err(Wtx(e))
  }

  /** The conversion loses nothing: distinct driver results stay distinct. */
  lemma IntoCrateResultInjective<T>(a: Result<T, WtxError>, b: Result<T, WtxError>)
    requires IntoCrateResult(a) == IntoCrateResult(b)
    ensures a == b
  {
    match a
    case Ok(_) =>
    case Err(e) => assert IntoCrateResult(b).error == Wtx(e);
  }
}
