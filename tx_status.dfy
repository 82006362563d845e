/** The /tx_status handler of the compliance server: it reports a
    transaction's status, asking the configured callback when there is one. */
module TxStatus {
  import opened Protocols

  /** A URL query: each key with its list of values. */
  type Query = map<string, seq<string>>

  /** A parsed URL: everything but the query kept as text, and the query as
      `Query()` reads it. */
  datatype Url = Url(location: string, query: Query)

  /** What the GET to the callback gave: a transport failure, or a response
      whose body was read (`Some`) or could not be read (`None`). */
  datatype HttpResult = TransportError | HttpResponse(statusCode: int, body: Option<Bytes>)

  /** The compliance TransactionStatusResponse: the status, and its other
      fields kept abstract. */
  datatype StatusResponse = StatusResponse(status: string, details: map<string, string>)

  /** Library and network code this model does not see: URL parsing, the
      HTTP client's GET, JSON decoding of a 200 body, and JSON encoding of the
      reply. */
  datatype Collaborators = Collaborators(
    parseUrl: string -> Option<Url>,
    get: Url -> HttpResult,
    unmarshal: Bytes -> Option<StatusResponse>,
    encodes: StatusResponse -> bool)

  /** What the handler writes back. */
  datatype Reply = StatusReply(response: StatusResponse) | ErrorReply(error: ErrorResponse)

  /** The reply, together with the requests sent to the callback, in order. */
  datatype TxStatusOutcome = TxStatusOutcome(reply: Reply, requests: seq<Url>)

  const StatusOK := 200

  /** compliance.TransactionStatusUnknown. */
  const Unknown := "unknown"

  /** `Query().Get(key)`: the first value of the key, or "" when it has none. */
  function QueryGet(q: Query, key: string): (v: string)
    ensures v != "" ==> key in q && |q[key]| > 0 && q[key][0] == v
    ensures key in q && |q[key]| > 0 ==> v == q[key][0]
  {
    if key in q && |q[key]| > 0 then q[key][0] else ""
  }

  /** The callback URL with its query's `id` set to exactly `[txid]`. */
  function WithId(u: Url, txid: string): (r: Url)
    ensures r.location == u.location
    ensures "id" in r.query && r.query["id"] == [txid]
    ensures r.query.Keys == u.query.Keys + {"id"}
    ensures forall k :: k in u.query && k != "id" ==> r.query[k] == u.query[k]
  {
    u.(query := u.query["id" := [txid]])
  }

  /** The status reported for a callback response, or the error written
      instead. */
  function CallbackStatus(result: HttpResult, c: Collaborators): (r: Result<StatusResponse, ErrorResponse>) {
    match result
    case TransportError => Err(InternalServerError)
    case HttpResponse(code, body) =>
      if body.None? then Err(InternalServerError)
      else if code == StatusOK then
        match c.unmarshal(body.value)
        case None => Err(InternalServerError)
        case Some(decoded) =>
          Ok(if decoded.status == "" then decoded.(status := Unknown) else decoded)
      else Ok(StatusResponse(Unknown, map[]))
  }

  /** The handler. No reply it writes has an empty status, and it sends at
      most one request, carrying the transaction id. */
  function HandlerTxStatus(incoming: Query, txStatusCallback: string, c: Collaborators): (out: TxStatusOutcome)
    ensures out.reply.StatusReply? ==> out.reply.response.status != ""
    ensures |out.requests| <= 1
    ensures forall u :: u in out.requests ==> QueryGet(u.query, "id") == QueryGet(incoming, "id") != ""
  {
    var txid := QueryGet(incoming, "id");
    if txid == "" then TxStatusOutcome(ErrorReply(MissingParameter("id")), [])
    else if txStatusCallback == "" then
      Encode(StatusResponse(Unknown, map[]), [], c)
    else
      match c.parseUrl(txStatusCallback)
      case None => TxStatusOutcome(ErrorReply(InternalServerError), [])
      case Some(u) =>
        var request := WithId(u, txid);
        match CallbackStatus(c.get(request), c)
        case Err(e) => TxStatusOutcome(ErrorReply(e), [request])
        case Ok(response) => Encode(response, [request], c)
  }

  /** The final JSON encoding of the reply; its failure is an internal error. */
  function Encode(response: StatusResponse, requests: seq<Url>, c: Collaborators): (out: TxStatusOutcome)
    ensures out.requests == requests
    ensures out.reply.StatusReply? <==> c.encodes(response)
    ensures out.reply.StatusReply? ==> out.reply.response == response
    ensures out.reply.ErrorReply? ==> out.reply.error == InternalServerError
  {
    if c.encodes(response) then TxStatusOutcome(StatusReply(response), requests)
    else TxStatusOutcome(ErrorReply(InternalServerError), requests)
  }

  /** An empty or absent id is a missing parameter, and nothing is sent. */
  lemma MissingId(incoming: Query, txStatusCallback: string, c: Collaborators)
    ensures QueryGet(incoming, "id") == "" <==>
      HandlerTxStatus(incoming, txStatusCallback, c) == TxStatusOutcome(ErrorReply(MissingParameter("id")), [])
  {
  }

  /** Without a configured callback the status is unknown and nothing is sent. */
  lemma NoCallbackConfigured(incoming: Query, c: Collaborators)
    requires QueryGet(incoming, "id") != ""
    requires c.encodes(StatusResponse(Unknown, map[]))
    ensures HandlerTxStatus(incoming, "", c) == TxStatusOutcome(StatusReply(StatusResponse(Unknown, map[])), [])
  {
  }

  /** With a callback configured and parsed, exactly one request is sent: the
      callback URL whose `id` is exactly the transaction id, every other query
      key kept. */
  lemma OutboundRequest(incoming: Query, txStatusCallback: string, c: Collaborators)
    requires QueryGet(incoming, "id") != "" && txStatusCallback != ""
    requires c.parseUrl(txStatusCallback).Some?
    ensures var u := c.parseUrl(txStatusCallback).value;
      var out := HandlerTxStatus(incoming, txStatusCallback, c);
      |out.requests| == 1
      && out.requests[0].location == u.location
      && out.requests[0].query["id"] == [QueryGet(incoming, "id")]
      && forall k :: k in u.query && k != "id" ==> k in out.requests[0].query && out.requests[0].query[k] == u.query[k]
  {
  }

  /** The outcome of a callback answer, case by case: an unparsable callback
      URL, a transport failure, an unreadable body and an undecodable 200 body
      are internal errors, never "unknown"; any other status code gives
      "unknown" whatever the body; a decoded 200 body gives its status, or
      "unknown" when that is empty. */
  lemma CallbackOutcomes(incoming: Query, txStatusCallback: string, c: Collaborators)
    requires QueryGet(incoming, "id") != "" && txStatusCallback != ""
    ensures c.parseUrl(txStatusCallback).None? ==>
      HandlerTxStatus(incoming, txStatusCallback, c) == TxStatusOutcome(ErrorReply(InternalServerError), [])
    ensures c.parseUrl(txStatusCallback).Some? ==>
      var request := WithId(c.parseUrl(txStatusCallback).value, QueryGet(incoming, "id"));
      var out := HandlerTxStatus(incoming, txStatusCallback, c);
      var result := c.get(request);
      (result.TransportError? ==> out.reply == ErrorReply(InternalServerError))
      && (result.HttpResponse? && result.body.None? ==> out.reply == ErrorReply(InternalServerError))
      && (result.HttpResponse? && result.body.Some? && result.statusCode != StatusOK ==>
            out.reply == (if c.encodes(StatusResponse(Unknown, map[])) then StatusReply(StatusResponse(Unknown, map[]))
                          else ErrorReply(InternalServerError)))
      && (result.HttpResponse? && result.body.Some? && result.statusCode == StatusOK ==>
            var decoded := c.unmarshal(result.body.value);
            (decoded.None? ==> out.reply == ErrorReply(InternalServerError))
            && (decoded.Some? && c.encodes(decoded.value) && decoded.value.status != "" ==>
                  out.reply == StatusReply(decoded.value))
            && (decoded.Some? && decoded.value.status == "" && c.encodes(decoded.value.(status := Unknown)) ==>
                  out.reply == StatusReply(decoded.value.(status := Unknown))))
  {
  }
}
