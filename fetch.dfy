/**
 * The fetch-and-normalize step that every tool of the server repeats: check
 * the status, take the content type from the headers, and decide whether the
 * body is JSON or text. The GET itself is an input (`Exchange`).
 */
module Fetcher {
  import opened Wrappers
  import opened Strings
  import opened JsonData

  /**
   * A response as the HTTP client exposes it. `headers` is the client's view
   * of them (names lower-cased, repeated values already joined); `parsed` is
   * what decoding `text` as JSON gives, `None` when it is not valid JSON.
   */
  datatype Response = Response(
    status: int,
    headers: map<string, string>,
    text: string,
    parsed: Option<Json>)

  /** How the single GET to the target ended. */
  datatype Exchange =
    | Responded(response: Response)
    | TimedOut
    | TransportFailed(detail: string)

  /** Why a fetch produced no data. */
  datatype FetchError =
    | Timeout
    | HttpStatus(code: int)
    | Transport(detail: string)
    | InvalidJson

  /** The record every tool builds from a successful fetch. */
  datatype Data = Data(
    url: string,
    status: int,
    contentType: string,
    body: Body,
    headers: map<string, string>)

  const ContentTypeHeader := "content-type"
  const JsonMediaType := "application/json"

  /** Only a 2xx status gets past `raise_for_status`. */
  predicate IsSuccess(status: int)
  {
    200 <= status < 300
  }

  /**
   * The content-type header up to, and not including, its first `;`: the
   * whole value when it has none, "" when the header is absent, no trimming.
   */
  function ContentTypeOf(headers: map<string, string>): (ct: string)
    ensures ContentTypeHeader !in headers ==> ct == ""
    ensures ContentTypeHeader in headers ==>
      var v := headers[ContentTypeHeader];
      ct <= v && ';' !in ct && (|ct| < |v| ==> v[|ct|] == ';') && (';' !in v ==> ct == v)
  {
    BeforeFirst(if ContentTypeHeader in headers then headers[ContentTypeHeader] else "", ';')
  }

  /** The body is decoded as JSON only under a content type mentioning application/json. */
  predicate IsJsonType(contentType: string)
  {
    Contains(contentType, JsonMediaType)
  }

  /**
   * JSON under a JSON content type, the raw text unchanged otherwise; a body
   * that does not decode under a JSON content type is an error, never text.
   */
  function Normalize(contentType: string, response: Response): (r: Result<Body, FetchError>)
    ensures (r.Ok? && r.value.JsonBody?) <==>
      Occurs(contentType, JsonMediaType) && response.parsed.Some?
    ensures r.Ok? && r.value.JsonBody? ==> r.value.value == response.parsed.value
    ensures !Occurs(contentType, JsonMediaType) ==> r == Ok(Text(response.text))
    ensures r.Err? ==> r.error == InvalidJson && response.parsed.None?
    ensures Occurs(contentType, JsonMediaType) && response.parsed.None? ==> r == Err(InvalidJson)
  {
    ContainsIffOccurs(contentType, JsonMediaType);
    if IsJsonType(contentType) then
      match response.parsed
      case Some(j) => Ok(JsonBody(j))
      case None => Err(InvalidJson)
    else
      Ok(Text(response.text))
  }

  /**
   * One fetch: a non-2xx status never yields data, a successful one yields the
   * status, the content type, the normalized body and the headers.
   */
  function Fetch(target: string, exchange: Exchange): (r: Result<Data, FetchError>)
    ensures r.Ok? ==>
      && exchange.Responded?
      && IsSuccess(exchange.response.status)
      && r.value.url == target
      && r.value.status == exchange.response.status
      && r.value.contentType == ContentTypeOf(exchange.response.headers)
      && r.value.headers == exchange.response.headers
      && Normalize(r.value.contentType, exchange.response) == Ok(r.value.body)
    ensures exchange.Responded? && !IsSuccess(exchange.response.status) ==>
      r == Err(HttpStatus(exchange.response.status))
    ensures exchange.TimedOut? ==> r == Err(Timeout)
    ensures exchange.TransportFailed? ==> r == Err(Transport(exchange.detail))
    ensures exchange.Responded? && IsSuccess(exchange.response.status) ==>
      (r.Ok? <==> Normalize(ContentTypeOf(exchange.response.headers), exchange.response).Ok?)
    ensures
      && exchange.Responded? && IsSuccess(exchange.response.status)
      && Normalize(ContentTypeOf(exchange.response.headers), exchange.response).Err?
      ==> r == Err(InvalidJson)
  {
    match exchange
    case TimedOut => Err(Timeout)
    case TransportFailed(detail) => Err(Transport(detail))
    case Responded(response) =>
      if !IsSuccess(response.status) then Err(HttpStatus(response.status))
      else
        var contentType := ContentTypeOf(response.headers);
        match Normalize(contentType, response)
        case Err(e) => Err(e)
        case Ok(body) => Ok(Data(target, response.status, contentType, body, response.headers))
  }

  /**
   * The error entries `get_my_data` returns: a timeout and an HTTP status
   * error name the target, anything else carries the exception's text.
   */
  datatype DataError =
    | TimeoutWhileFetching(url: string)
    | HttpError(code: int, url: string)
    | ErrorFetching(cause: FetchError)

  /** `get_my_data`: the fetched record, or an error entry that tells the three failure kinds apart. */
  function GetMyData(target: string, exchange: Exchange): (r: Result<Data, DataError>)
    ensures r.Ok? <==> Fetch(target, exchange).Ok?
    ensures r.Ok? ==> r.value == Fetch(target, exchange).value
    ensures exchange.TimedOut? ==> r == Err(TimeoutWhileFetching(target))
    ensures exchange.Responded? && !IsSuccess(exchange.response.status) ==>
      r == Err(HttpError(exchange.response.status, target))
    ensures r.Err? && r.error.ErrorFetching? ==>
      r.error.cause.Transport? || r.error.cause.InvalidJson?
    ensures exchange.TransportFailed? ==> r == Err(ErrorFetching(Transport(exchange.detail)))
    ensures
      && exchange.Responded? && IsSuccess(exchange.response.status)
      && Occurs(ContentTypeOf(exchange.response.headers), JsonMediaType)
      && exchange.response.parsed.None?
      ==> r == Err(ErrorFetching(InvalidJson))
  {
    match Fetch(target, exchange)
    case Ok(data) => Ok(data)
    case Err(Timeout) => Err(TimeoutWhileFetching(target))
    case Err(HttpStatus(code)) => Err(HttpError(code, target))
    case Err(e) => Err(ErrorFetching(e))
  }
}
