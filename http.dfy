/** The abstract transport both providers talk to: a request is a URL, an
    optional method and a body; the transport answers with headers and a JSON
    value, or fails. Fan-out issues one request per element and joins the
    answers in input order, failing as a whole when any one request fails. */
module Http {
  import opened Outcome
  import opened JsValues

  datatype HttpMethod = GET | PUT | POST | DELETE

  /** One entry of a multipart form: a file appended under a field name, or
      the JSON text of a value. */
  datatype Part =
    | FilePart(name: string, file: Value)
    | JsonPart(name: string, json: Value)

  datatype Body =
    | NoBody
    | JsonBody(json: Value)
    | FormBody(parts: seq<Part>)

  /** `httpClient(url, options)`: `verb` is None when `options` names no method
      (the client then sends GET). */
  datatype Request = Request(url: string, verb: Option<HttpMethod>, body: Body)

  datatype Response = Response(headers: seq<(string, string)>, json: Value)

  type Transport = Request -> Result<Response>

  /** The react-admin operation constants. */
  datatype OpType =
    | GetList
    | GetOne
    | GetMany
    | GetManyReference
    | Create
    | Update
    | UpdateMany
    | Delete
    | DeleteMany
    /** Any other type string. It stands only for names outside the nine
        constants above: a string equal to one of them is that constructor. */
    | Other(name: string)

  function TypeName(t: OpType): string {
    match t
    case GetList => "GET_LIST"
    case GetOne => "GET_ONE"
    case GetMany => "GET_MANY"
    case GetManyReference => "GET_MANY_REFERENCE"
    case Create => "CREATE"
    case Update => "UPDATE"
    case UpdateMany => "UPDATE_MANY"
    case Delete => "DELETE"
    case DeleteMany => "DELETE_MANY"
    case Other(name) => name
  }

  /** What a provider call resolves to: `{data}` or `{data, total}`. */
  datatype Envelope = Envelope(data: Value, total: Option<Value>)

  /** The value of the first header with the given (lower-case) name. */
  function HeaderValue(headers: seq<(string, string)>, name: string): Option<string> {
    if headers == [] then None
    else if headers[0].0 == name then Some(headers[0].1)
    else HeaderValue(headers[1..], name)
  }

  /** `Promise.all(reqs.map(httpClient))`, joined in input order; which
      failure is reported when several requests fail is not observable in the
      providers, so the first one in input order stands for it. */
  function FanOut(transport: Transport, reqs: seq<Request>): Result<seq<Response>> {
    MapAll(transport, reqs)
  }
}
