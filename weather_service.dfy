/** What the weather service hands the summaries: the provider's decoded
    JSON reply, or, when the request or its decoding failed, a one-member
    dict `{"error": message}` in its place. */
module WeatherService {
  import opened PyValues

  /** The outcome of one request to the provider. */
  datatype Reply = Decoded(body: Json) | Failed(message: string)

  /** The dict returned in place of a reply when the request raised. It is
      non-empty, hence truthy, and holds no key other than "error". */
  function ErrorPayload(message: string): (p: Json)
    ensures Truthy(p)
    ensures HasField(p, "error", JStr(message))
    ensures forall key :: key != "error" ==> MissingField(p, key)
  {
    JObject([("error", JStr(message))])
  }

  /** The value `get_current_weather` or `get_forecast_weather` returns. */
  function Payload(reply: Reply): Json
  {
    match reply
    case Decoded(body) => body
    case Failed(message) => ErrorPayload(message)
  }
}
