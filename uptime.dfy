/** The uptime models of the backend (`api-backend/hartex-backend-models/src/uptime.rs`): the
    query, the response, the update payload, and the rejection of a malformed query. */
module BackendUptime {
  import opened Wrappers
  import opened Strings
  import opened BackendModels

  const TWO_128: int := 0x1_0000_0000_0000_0000_0000_0000_0000_0000

  /** A `u128` timestamp. */
  type U128 = n: nat | n < TWO_128

  /** `UptimeQuery`. */
  datatype UptimeQuery = UptimeQuery(component: string)

  /** `UptimeQuery::new`. */
  function NewUptimeQuery(component: string): (q: UptimeQuery)
    ensures ComponentName(q) == component
  {
    UptimeQuery(component)
  }

  /** `UptimeQuery::component_name`. */
  function ComponentName(q: UptimeQuery): string {
    q.component
  }

  /** `UptimeResponse`. */
  datatype UptimeResponse = UptimeResponse(startTimestamp: U128)

  /** `UptimeResponse::with_start_timestamp`. */
  function WithStartTimestamp(t: U128): (r: UptimeResponse)
    ensures ResponseStartTimestamp(r) == t
  {
    UptimeResponse(t)
  }

  /** `UptimeResponse::start_timestamp`. */
  function ResponseStartTimestamp(r: UptimeResponse): U128 {
    r.startTimestamp
  }

  /** `UptimeUpdate`. */
  datatype UptimeUpdate = UptimeUpdate(componentName: string, startTimestamp: U128)

  /** `UptimeUpdate::new`. */
  function NewUptimeUpdate(name: string, t: U128): (u: UptimeUpdate)
    ensures UpdateComponentName(u) == name && UpdateStartTimestamp(u) == t
  {
    UptimeUpdate(name, t)
  }

  function UpdateComponentName(u: UptimeUpdate): string {
    u.componentName
  }

  function UpdateStartTimestamp(u: UptimeUpdate): U128 {
    u.startTimestamp
  }

  /** The framework's rejection of a query string: its status and its body text. */
  datatype QueryRejection = QueryRejection(status: StatusCode, bodyText: string)

  /** `UptimeQueryRejection`. */
  datatype UptimeQueryRejection = UptimeQueryRejection(statusCode: StatusCode, dataMessage: string)

  /** `From<QueryRejection>`: the status is kept and the body text lower-cased. */
  function FromRejection(value: QueryRejection): (r: UptimeQueryRejection)
    ensures r.statusCode == value.status
    ensures |r.dataMessage| == |value.bodyText|
    ensures forall i :: 0 <= i < |r.dataMessage| ==>
      r.dataMessage[i] == LowerChar(value.bodyText[i]) && !IsAsciiUpper(r.dataMessage[i])
  {
    UptimeQueryRejection(value.status, ToLower(value.bodyText))
  }

  /** `into_response`: a response with the rejection's status and its message as data. */
  function RejectionResponse(rej: UptimeQueryRejection): (r: (StatusCode, Response<string, Unit>))
    ensures r.0 == rej.statusCode && r.1.code == rej.statusCode
    ensures r.1.message == ToLower(Reason(rej.statusCode))
    ensures r.1.data == Left(Some(rej.dataMessage))
  {
    FromCodeWithData(rej.statusCode, Left(Some(rej.dataMessage)))
  }

  /** A rejected query answers with the original status, the lower-cased reason as message
      and the lower-cased body text as data. */
  lemma RejectedQueryResponse(value: QueryRejection)
    ensures var r := RejectionResponse(FromRejection(value));
      r.0 == value.status && r.1.message == ToLower(Reason(value.status))
      && r.1.data == Left(Some(ToLower(value.bodyText)))
  {
  }
}
