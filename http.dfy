/** What an awaited `fetch` followed by `response.json()` hands to the code, as far as the model needs it. */
module Http {
  import opened Wrappers

  /** The outcome of one HTTP request to the weather service. */
  datatype Fetched<+T> =
    | NetworkError                           // the fetch promise rejected before any status arrived
    | Response(status: int, body: Option<T>) // body is None when the payload does not decode into T

  /** `Response.ok`: the status lies in the 200-299 range. */
  predicate IsOk(status: int): (ok: bool)
    ensures ok <==> status / 100 == 2   // the 2xx class of statuses
  {
    200 <= status <= 299
  }
}
