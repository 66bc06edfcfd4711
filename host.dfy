/**
 * What the workflow host hands to the node and receives back: credentials,
 * HTTP requests and their outcomes, errors, and execution records.
 */
module Host {
  import opened Wrappers
  import opened Js

  /** The `server-url` and `apikey` fields of the WaaPy credentials. */
  datatype Credentials = Credentials(serverUrl: string, apiKey: string)

  datatype Verb = GET | POST | DELETE

  /** The options object passed to `helpers.httpRequest` (always with `json: true`). */
  datatype Request = Request(verb: Verb, url: string, headers: map<string, string>, body: Option<Value>)

  /** The `context` object of an n8n error; only `itemIndex` is modelled. */
  datatype Context = Context(itemIndex: Option<nat>)

  /** A thrown value. `context` is `None` when the error has no `context` property. */
  datatype Error = Error(kind: Kind, context: Option<Context>)

  datatype Kind =
    | Raised(detail: Value)              // raised by the transport (network failure, non-2xx status)
    | TypeError(message: string)         // property access on null or undefined
    | HostError(message: string)         // raised by a host helper outside the node's code
    | NodeApiError(cause: Cause, override: Option<string>)  // `override` is the `message` option, when given
    | NodeOperationError(message: string)

  /** What a `NodeApiError` was constructed from. */
  datatype Cause = OfError(error: Error) | OfResponse(body: Value)

  /** The provider, seen through `helpers.httpRequest`: a response value or a thrown error. */
  type Server = Request -> Result<Value, Error>

  /** An input item; only its `json` is read. */
  datatype Item = Item(json: Value)

  /** An output item: `{json}`, or `{json, error, pairedItem}` for a captured failure. */
  datatype ExecutionData = ExecutionData(json: Value, error: Option<Error>, pairedItem: Option<nat>)

  const BearerPrefix := "Bearer "

  /**
   * Every call the node makes has the same shape: the server URL followed by
   * the endpoint path, and one `Authorization: Bearer <apikey>` header.
   */
  function Call(c: Credentials, verb: Verb, path: string, body: Option<Value>): Request
  {
    Request(verb, c.serverUrl + path, map["Authorization" := BearerPrefix + c.apiKey], body)
  }

  /** The endpoint path of `url` relative to the server URL, as the provider routes it. */
  function PathOf(c: Credentials, url: string): Option<string>
  {
    if c.serverUrl <= url then Some(url[|c.serverUrl|..]) else None
  }

  /** The API key the provider reads from a bearer `Authorization` header. */
  function BearerToken(headers: map<string, string>): Option<string>
  {
    if "Authorization" in headers && BearerPrefix <= headers["Authorization"]
    then Some(headers["Authorization"][|BearerPrefix|..])
    else None
  }

  /** The provider recovers the endpoint, the API key and the body from every call. */
  lemma CallRoundTrip(c: Credentials, verb: Verb, path: string, body: Option<Value>)
    ensures Call(c, verb, path, body).verb == verb
    ensures PathOf(c, Call(c, verb, path, body).url) == Some(path)
    ensures BearerToken(Call(c, verb, path, body).headers) == Some(c.apiKey)
    ensures Call(c, verb, path, body).headers.Keys == {"Authorization"}
    ensures Call(c, verb, path, body).body == body
  {
    var q := Call(c, verb, path, body);
    assert q.url[|c.serverUrl|..] == path;
    assert q.headers["Authorization"][|BearerPrefix|..] == c.apiKey;
  }
}
