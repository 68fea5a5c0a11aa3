/**
 * The remote client of the fengli bot: the request body it posts and how it
 * reads the endpoint's answer. The HTTP exchange itself is an `HttpOutcome`
 * supplied from outside.
 */
module Remote {
  import opened Wrappers

  /** The endpoint used when the `fengli_api` configuration key is absent. */
  const DefaultEndpoint: string := "http://127.0.0.1:8800/chat"
  /** The constant `bot_id` of every request. */
  const BotId: int := 1
  /** The constant `user_id` of every request. */
  const UserId: string := "wudongfeng"
  /** The answer the client would fall back to if the response had no `message` field. */
  const MissingMessageFallback: string := "[fengli-answer]请求失败"

  /** The JSON body posted to the endpoint; the chat history has no field in it. */
  datatype RequestBody = RequestBody(botId: int, userId: string, message: Option<string>)

  /** The decoded response body: a JSON object (string or null values), other JSON, or not JSON at all. */
  datatype Json = JsonObject(fields: map<string, Option<string>>) | JsonOther | NotJson

  /** What one POST produced: no response (connection failure) or a status code and body. */
  datatype HttpOutcome = TransportFailure | Response(status: int, body: Json)

  /** `conf().get('fengli_api', default)`: the default applies only when the key is absent. */
  function Endpoint(configured: Option<string>): string {
    match configured
    case Some(url) => url
    case None => DefaultEndpoint
  }

  /** The request body built for a query. */
  function BuildRequestBody(query: Option<string>): RequestBody {
    RequestBody(BotId, UserId, query)
  }

  /** `raise_for_status` raises for client (4xx) and server (5xx) error codes. */
  predicate RaisesForStatus(status: int) {
    400 <= status < 600
  }

  /**
   * `send_post_request` after the POST: every failure (transport, error status, a body
   * that is not a JSON object, a missing `message` key) is caught and yields `None`;
   * otherwise the answer is the response's `message` value.
   */
  function SendPostRequest(outcome: HttpOutcome): (answer: Option<string>)
    ensures answer.Some? <==>
      && outcome.Response?
      && !RaisesForStatus(outcome.status)
      && outcome.body.JsonObject?
      && "message" in outcome.body.fields
      && outcome.body.fields["message"].Some?
    ensures answer.Some? ==> answer == outcome.body.fields["message"]
  {
    match outcome
    case TransportFailure => None
    case Response(status, body) =>
      if RaisesForStatus(status) then None
      else
        match body
        case JsonObject(fields) =>
          // `data['message']` is read before the `data.get` fallback, so a missing key raises.
          if "message" in fields then fields["message"] else None
        case JsonOther => None
        case NotJson => None
  }

  /** The fallback answer is never produced by the client itself: it only comes back if the server sent it. */
  lemma FallbackUnreachable(outcome: HttpOutcome)
    requires SendPostRequest(outcome) == Some(MissingMessageFallback)
    ensures outcome.Response? && outcome.body.JsonObject?
    ensures "message" in outcome.body.fields && outcome.body.fields["message"] == Some(MissingMessageFallback)
  {
  }
}
