/** `TaskPlanningAgent.get_weather`: a three-way choice between the
    missing-key sentinel, the formatted report on HTTP 200, and the
    not-available / error texts.

    The HTTP request is not modelled: the weather service's reply is an
    input, and it is consulted only when a key is configured. The numeric
    fields arrive already rendered as text. */
module Weather {
  import opened Text
  import opened Json

  /** The fields the report line is built from, or the text of the
      exception (a `KeyError`, say) raised while reading them. */
  datatype WeatherData =
    | Report(name: string, country: string, temperature: string,
             description: string, humidity: string, windSpeed: string)
    | Incomplete(error: string)

  /** The reply: a status with its decoded body, or the text of the
      exception raised by the request or by `response.json()`. */
  datatype WeatherReply =
    | Responded(status: int, data: WeatherData)
    | Failed(error: string)

  const KeyMissing := "Weather API key not configured"
  const ReportPrefix := "Weather in "
  const NotAvailablePrefix := "Weather data not available for "
  const WeatherErrorPrefix := "Weather error: "

  /** The four outcomes, decided from the key and the reply alone. */
  datatype Outcome = KeyNotConfigured | Reported | NotAvailable | Errored

  function Classify(apiKey: string, reply: WeatherReply): Outcome
  {
    if apiKey == "" then KeyNotConfigured
    else match reply
      case Failed(_) => Errored
      case Responded(status, data) =>
        if status != 200 then NotAvailable
        else if data.Incomplete? then Errored
        else Reported
  }

  /** A request is made only when a key is configured (an unset or empty
      key is falsy alike). */
  predicate Requests(apiKey: string)
  {
    apiKey != ""
  }

  /** The report line for a complete reply. */
  function ReportLine(r: WeatherData): string
    requires r.Report?
  {
    ReportPrefix + r.name + ", " + r.country + ": " + r.temperature + "°C, " + r.description
    + ", Humidity: " + r.humidity + "%, Wind: " + r.windSpeed + " m/s"
  }

  /** The text every result of an outcome begins with. */
  function Lead(o: Outcome): string
  {
    match o
    case KeyNotConfigured => KeyMissing
    case Reported => ReportPrefix
    case NotAvailable => NotAvailablePrefix
    case Errored => WeatherErrorPrefix
  }

  /** The four leads differ at their ninth character, so a text that begins
      with the lead of one outcome begins with no other lead. */
  lemma {:induction false} LeadTells(r: string, o: Outcome)
    requires StartsWith(r, Lead(o))
    requires o == KeyNotConfigured ==> r == KeyMissing
    ensures r == KeyMissing <==> o == KeyNotConfigured
    ensures StartsWith(r, ReportPrefix) <==> o == Reported
    ensures StartsWith(r, NotAvailablePrefix) <==> o == NotAvailable
    ensures StartsWith(r, WeatherErrorPrefix) <==> o == Errored
  {
    assert r[8] == r[..|Lead(o)|][8] == Lead(o)[8];
    assert KeyMissing[8] == 'A' && ReportPrefix[8] == 'i';
    assert NotAvailablePrefix[8] == 'd' && WeatherErrorPrefix[8] == 'e';
    forall p | p in {ReportPrefix, NotAvailablePrefix, WeatherErrorPrefix} && StartsWith(r, p)
      ensures r[8] == p[8]
    {
      assert r[..|p|][8] == p[8];
    }
  }

  /** `get_weather(location)` for a configured key `apiKey` ("" when unset)
      and the reply the weather service gives. */
  function GetWeather(apiKey: string, location: Value, reply: WeatherReply): string
  {
    if apiKey == "" then KeyMissing
    else match reply
      case Failed(e) => WeatherErrorPrefix + e
      case Responded(status, data) =>
        if status != 200 then NotAvailablePrefix + Json.Render(location)
        else match data
          case Incomplete(e) => WeatherErrorPrefix + e
          case Report(_, _, _, _, _, _) => ReportLine(data)
  }

  /** Each of the four outcomes can be told from the text's beginning, and
      a refused request names the location it was asked about. */
  lemma WeatherOutcomes(apiKey: string, location: Value, reply: WeatherReply)
    ensures var r := GetWeather(apiKey, location, reply);
            && (r == KeyMissing <==> Classify(apiKey, reply) == KeyNotConfigured)
            && (StartsWith(r, ReportPrefix) <==> Classify(apiKey, reply) == Reported)
            && (StartsWith(r, NotAvailablePrefix) <==> Classify(apiKey, reply) == NotAvailable)
            && (StartsWith(r, WeatherErrorPrefix) <==> Classify(apiKey, reply) == Errored)
            && (Classify(apiKey, reply) == NotAvailable ==> r == NotAvailablePrefix + Json.Render(location))
  {
    var r := GetWeather(apiKey, location, reply);
    var o := Classify(apiKey, reply);
    assert r == Lead(o) + r[|Lead(o)|..];
    PrefixOf(Lead(o), r[|Lead(o)|..]);
    LeadTells(r, o);
  }

  lemma PrefixOf(p: string, rest: string)
    ensures StartsWith(p + rest, p)
  {

  }

  /** Without a key the reply plays no part: no request is made. */
  lemma NoKeyIgnoresReply(location: Value, reply: WeatherReply, other: WeatherReply)
    ensures GetWeather("", location, reply) == GetWeather("", location, other) == KeyMissing
  {
  }
}
