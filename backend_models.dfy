/** The API response object of the backend (`api-backend/hartex-backend-models/src/lib.rs`):
    a status code, a message derived from the code's reason phrase, and the data. Reason
    phrases are those of section 15 of RFC 9110. */
module BackendModels {
  import opened Wrappers
  import opened Strings

  /** An HTTP status code: a three-digit number. */
  type StatusCode = c: nat | 100 <= c < 1000 witness 200

  const OK: StatusCode := 200
  const NOT_FOUND: StatusCode := 404
  const INTERNAL_SERVER_ERROR: StatusCode := 500

  /** The reason phrase of a status code, as registered in section 15 of RFC 9110: only
      codes of the five classes 1xx to 5xx have one. */
  function CanonicalReason(code: StatusCode): (r: Option<string>)
    ensures r.Some? ==> code < 600 && r.value != [] && r.value[0] != '<'
  {
    match code
    case 100 => Some("Continue")
    case 101 => Some("Switching Protocols")
    case 200 => Some("OK")
    case 201 => Some("Created")
    case 202 => Some("Accepted")
    case 203 => Some("Non-Authoritative Information")
    case 204 => Some("No Content")
    case 205 => Some("Reset Content")
    case 206 => Some("Partial Content")
    case 300 => Some("Multiple Choices")
    case 301 => Some("Moved Permanently")
    case 302 => Some("Found")
    case 303 => Some("See Other")
    case 304 => Some("Not Modified")
    case 305 => Some("Use Proxy")
    case 307 => Some("Temporary Redirect")
    case 308 => Some("Permanent Redirect")
    case 400 => Some("Bad Request")
    case 401 => Some("Unauthorized")
    case 402 => Some("Payment Required")
    case 403 => Some("Forbidden")
    case 404 => Some("Not Found")
    case 405 => Some("Method Not Allowed")
    case 406 => Some("Not Acceptable")
    case 407 => Some("Proxy Authentication Required")
    case 408 => Some("Request Timeout")
    case 409 => Some("Conflict")
    case 410 => Some("Gone")
    case 411 => Some("Length Required")
    case 412 => Some("Precondition Failed")
    case 413 => Some("Content Too Large")
    case 414 => Some("URI Too Long")
    case 415 => Some("Unsupported Media Type")
    case 416 => Some("Range Not Satisfiable")
    case 417 => Some("Expectation Failed")
    case 421 => Some("Misdirected Request")
    case 422 => Some("Unprocessable Content")
    case 426 => Some("Upgrade Required")
    case 500 => Some("Internal Server Error")
    case 501 => Some("Not Implemented")
    case 502 => Some("Bad Gateway")
    case 503 => Some("Service Unavailable")
    case 504 => Some("Gateway Timeout")
    case 505 => Some("HTTP Version Not Supported")
    case _ => None
  }

  /** The reason shown for a code: its registered phrase, or a placeholder, which no
      registered phrase equals, for a code without one. */
  function Reason(code: StatusCode): (r: string)
    ensures r == "<unknown status code>" <==> CanonicalReason(code).None?
  {
    match CanonicalReason(code)
    case Some(r) => r
    case None => "<unknown status code>"
  }

  /** `StatusCode`'s `Display`: the number, a space, and the reason. The number holds no
      space, so splitting at the first space gives back the number and the reason. */
  function StatusDisplay(code: StatusCode): (r: string)
    ensures SplitOnce(r, ' ') == Some((NatToString(code), Reason(code)))
  {
    assert ' ' !in NatToString(code) by {
      assert forall i :: 0 <= i < |NatToString(code)| ==> IsDigit(NatToString(code)[i]);
    }
    SplitOnceAfterHead(NatToString(code), ' ', Reason(code));
    NatToString(code) + [' '] + Reason(code)
  }

  /** `Response<T, R>`. */
  datatype Response<T, R> = Response(code: nat, message: string, data: Either<Option<T>, R>)

  /** `from_code_with_data`: the status is returned with a response holding its number,
      the text after the first space of its display in lower case (the `unwrap()` of the
      split cannot fail: the number holds no space), and the data. */
  function FromCodeWithData<T, R>(code: StatusCode, data: Either<Option<T>, R>): (r: (StatusCode, Response<T, R>))
    ensures r.0 == code
    ensures r.1.code == code && r.1.data == data
    ensures r.1.message == ToLower(Reason(code))
  {
    var part := SplitOnce(StatusDisplay(code), ' ').value.1;
    (code, Response(code, ToLower(part), data))
  }

  /** The message never holds an upper-case ASCII letter. */
  lemma MessageIsLowerCase<T, R>(code: StatusCode, data: Either<Option<T>, R>)
    ensures forall i :: 0 <= i < |FromCodeWithData(code, data).1.message| ==>
      !IsAsciiUpper(FromCodeWithData(code, data).1.message[i])
  {
  }

  /** `ok(value)`. */
  function Ok200<T, R>(value: T): (r: (StatusCode, Response<T, R>))
    ensures r.0 == OK && r.1.code == 200 && r.1.message == "ok" && r.1.data == Left(Some(value))
  {
    assert Reason(OK) == "OK";
    LowerEq("OK", "ok");
    FromCodeWithData(OK, Left(Some(value)))
  }

  /** `internal_server_error()`. */
  function InternalServerError<T, R>(): (r: (StatusCode, Response<T, R>))
    ensures r.0 == INTERNAL_SERVER_ERROR && r.1.code == 500
    ensures r.1.message == "internal server error" && r.1.data == Left(None)
  {
    assert Reason(INTERNAL_SERVER_ERROR) == "Internal Server Error";
    LowerEq("Internal Server Error", "internal server error");
    FromCodeWithData(INTERNAL_SERVER_ERROR, Left(None))
  }

  /** `not_found(component)`: the data names the missing component. */
  function NotFound<T>(component: string): (r: (StatusCode, Response<T, string>))
    ensures r.0 == NOT_FOUND && r.1.code == 404 && r.1.message == "not found"
    ensures r.1.data == Right(component + " not found")
  {
    assert Reason(NOT_FOUND) == "Not Found";
    LowerEq("Not Found", "not found");
    FromCodeWithData(NOT_FOUND, Right(component + " not found"))
  }

  /** `Response::code`. */
  function Code<T, R>(r: Response<T, R>): nat {
    r.code
  }

  /** `Response::message`. */
  function Message<T, R>(r: Response<T, R>): string {
    r.message
  }

  /** The getters of a constructed response give back the status number and the
      lower-cased reason it was built from. */
  lemma GettersOfConstructed<T, R>(code: StatusCode, data: Either<Option<T>, R>)
    ensures Code(FromCodeWithData(code, data).1) == code
    ensures Message(FromCodeWithData(code, data).1) == ToLower(Reason(code))
  {
  }

  /** Lowering that is known character by character. */
  lemma LowerEq(s: string, t: string)
    requires |s| == |t| && forall i :: 0 <= i < |s| ==> LowerChar(s[i]) == t[i]
    ensures ToLower(s) == t
  {
  }

  /** A code without a registered phrase still gets a message. */
  lemma UnknownCodeMessage<T, R>(code: StatusCode, data: Either<Option<T>, R>)
    requires CanonicalReason(code).None?
    ensures FromCodeWithData(code, data).1.message == "<unknown status code>"
  {
    var r := "<unknown status code>";
    assert Reason(code) == r;
    assert forall i :: 0 <= i < |r| ==> !IsAsciiUpper(r[i]);
    LowerEq(r, r);
  }
}
