/** The error type of the typed-SQL query compiler (`hartex-database-typedsql`,
    `src/error.rs`). The three wrapped foreign errors are opaque values here. */
module TypedSqlError {
  import opened Wrappers

  /** `std::io::Error`, identified only by what the model needs to tell errors apart. */
  datatype IoError = IoError(kind: string)

  /** `sqlparser::parser::ParserError`. */
  datatype ParserError = TokenizerError(text: string) | ParserError(text: string) | RecursionLimitExceeded

  /** `syn::Error`. */
  datatype SynError = SynError(message: string)

  /** `Error`: an I/O failure, a query-file diagnostic carrying a static message, an SQL
      parse failure or a failure of the generated tokens to parse as Rust. */
  datatype Error = Io(io: IoError) | QueryFile(message: string) | Sql(sql: ParserError) | Syn(syn: SynError)

  /** What a call of the compiler ends in: a returned `Result`, or a panic (`todo!()`,
      `unwrap()` on `None`, `unreachable!()`) with its message. */
  datatype Outcome<T> = Returns(result: Result<T, Error>) | Panics(message: string)

  /** `impl From<io::Error> for Error`. */
  function FromIo(err: IoError): (r: Error)
    ensures r.Io? && r.io == err
  {
    Io(err)
  }

  /** `impl From<ParserError> for Error`. */
  function FromParser(err: ParserError): (r: Error)
    ensures r.Sql? && r.sql == err
  {
    Sql(err)
  }

  /** `impl From<SynError> for Error`. */
  function FromSyn(err: SynError): (r: Error)
    ensures r.Syn? && r.syn == err
  {
    Syn(err)
  }

  /** No conversion produces a `QueryFile` diagnostic, the three conversions never collide
      with one another, and each keeps the error it wraps. */
  lemma ConversionsAreDisjointAndInjective(e1: IoError, e2: IoError, p1: ParserError, p2: ParserError, s1: SynError, s2: SynError)
    ensures !FromIo(e1).QueryFile? && !FromParser(p1).QueryFile? && !FromSyn(s1).QueryFile?
    ensures FromIo(e1) != FromParser(p1) && FromIo(e1) != FromSyn(s1) && FromParser(p1) != FromSyn(s1)
    ensures FromIo(e1) == FromIo(e2) ==> e1 == e2
    ensures FromParser(p1) == FromParser(p2) ==> p1 == p2
    ensures FromSyn(s1) == FromSyn(s2) ==> s1 == s2
  {
  }
}
