/** JSON bodies, query parameters and the uniform response envelope shared by the backend. */
module Http {
  import opened Wrappers

  /** A JSON value, as `res.json` serialises it and as the upstream returns it. */
  datatype Json =
    | JNull
    | JBool(b: bool)
    | JNum(n: int)
    | JStr(s: string)
    | JArr(items: seq<Json>)
    | JObj(fields: map<string, Json>)

  /** A query-parameter value; axios serialises both kinds into the URL. */
  datatype ParamValue = PStr(s: string) | PNum(n: int)

  /** The `params` object handed to an HTTP GET. */
  type Params = map<string, ParamValue>

  /** `APIError` (types/index.ts): `details` is present only when it is set. */
  datatype ApiError = ApiError(code: string, message: string, details: Option<string>)

  /** The uniform body `{success, data | error, timestamp}`. */
  datatype Envelope = Envelope(success: bool, data: Option<Json>, error: Option<ApiError>, timestamp: string)

  /** What `res.status(..).json(..)` sends; `res.json(..)` alone sends status 200. */
  datatype HttpResponse = HttpResponse(status: int, body: Envelope)

  predicate IsSuccessEnvelope(e: Envelope) {
    e.success && e.data.Some? && e.error.None?
  }

  predicate IsErrorEnvelope(e: Envelope) {
    !e.success && e.data.None? && e.error.Some?
  }

  /** `res.json({ success: true, data, timestamp })`. */
  function SuccessResponse(data: Json, timestamp: string): HttpResponse {
    HttpResponse(200, Envelope(true, Some(data), None, timestamp))
  }

  /** `res.status(status).json({ success: false, error: { code, message }, timestamp })`. */
  function FailureResponse(status: int, code: string, message: string, timestamp: string): HttpResponse {
    HttpResponse(status, Envelope(false, None, Some(ApiError(code, message, None)), timestamp))
  }

  /** A search query `{ q: query }`, plus one filter (`server` or `type`) when it is truthy. */
  function SearchParams(query: string, filterKey: string, filter: Option<string>): (p: Params)
    requires filterKey != "q"
    ensures p.Keys == {"q"} + (if Truthy(filter) then {filterKey} else {})
    ensures p["q"] == PStr(query)
    ensures filterKey in p ==> p[filterKey] == PStr(filter.value)
  {
    if Truthy(filter) then map["q" := PStr(query), filterKey := PStr(filter.value)]
    else map["q" := PStr(query)]
  }
}
