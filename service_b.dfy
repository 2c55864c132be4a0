/** The earlier handler variant of service-b: the same stages as the orchestration handler,
    without tracing, with the ViaCEP 404 status checked before decoding, the erro flag not
    read, the locality put into the weather URL unescaped, other error lines, K = C + 273.15
    and no city in the answer. */
module ServiceB {
  import opened Http
  import opened Providers
  import opened Outcomes
  import opened Tracing
  import ZipPattern
  import Units

  /** `TempResponse` of this variant: no city field. */
  datatype TempResponse = TempResponse(tempC: real, tempF: real, tempK: real)

  const ViaCepUrlBase := "https://viacep.com.br"
  const WeatherApiUrlBase := "http://api.weatherapi.com"

  const InvalidZipMessage := "invalid zipcode"
  const ZipFailureMessage := "can not find zipcode"
  const TemperatureFailureMessage := "can not find temperature"

  function ViaCepUrl(cep: string): string
  {
    ViaCepUrlBase + "/ws/" + cep + "/json/"
  }

  function WeatherUrl(apiKey: string, city: string): string
  {
    WeatherApiUrlBase + "/v1/current.json?key=" + apiKey + "&q=" + city
  }

  /** ^\d{8}$: RE2's \d is the ASCII digit class. */
  predicate ValidZip(cep: string)
  {
    ZipPattern.MatchesDigits(cep, 8)
  }

  /** ViaCEP's answer: transport failure, a 404 status (before the body is looked at), an
      undecodable body, an empty locality, or the locality. */
  function GeocodeStage(reply: Reply<ViaCepResponse>): Step<string, TempResponse>
  {
    match reply
    case TransportError => Done(UpstreamFailure(Geocode, TransportFailure))
    case Received(status, payload) =>
      if status == StatusNotFound then Done(NotFound)
      else
        match payload
        case Undecodable => Done(UpstreamFailure(Geocode, DecodeFailure))
        case Decoded(data) => if data.localidade == "" then Done(NotFound) else Next(data.localidade)
  }

  function WeatherStage(reply: Reply<WeatherApiResponse>): Step<real, TempResponse>
  {
    match reply
    case TransportError => Done(UpstreamFailure(Weather, TransportFailure))
    case Received(_, Undecodable) => Done(UpstreamFailure(Weather, DecodeFailure))
    case Received(_, Decoded(data)) => Next(data.tempC)
  }

  /** The outcome of one request for `cep`. `builds` tells whether http.Get can make a
      request of a URL; it reports one it cannot parse as an error without sending anything,
      so that weather URL is a transport failure and a request never aborts here. */
  function Classify(cep: string, apiKey: string, builds: string -> bool,
                    viaCep: string -> Reply<ViaCepResponse>,
                    weatherApi: string -> Reply<WeatherApiResponse>): (o: Outcome<TempResponse>)
    ensures o != Aborted
    ensures o.Resolved? ==>
      o.result.tempF == Units.Fahrenheit(o.result.tempC) && o.result.tempK == Units.KelvinPrecise(o.result.tempC)
  {
    if !ValidZip(cep) then InvalidInput
    else
      match GeocodeStage(viaCep(ViaCepUrl(cep)))
      case Done(o) => o
      case Next(city) =>
        var url := WeatherUrl(apiKey, city);
        if !builds(url) then UpstreamFailure(Weather, TransportFailure)
        else
          match WeatherStage(weatherApi(url))
          case Done(o) => o
          case Next(c) => Resolved(TempResponse(c, Units.Fahrenheit(c), Units.KelvinPrecise(c)))
  }

  function Render(o: Outcome<TempResponse>): Response<TempResponse>
    requires o != Aborted
  {
    match o
    case InvalidInput => Error(InvalidZipMessage, StatusUnprocessableEntity)
    case NotFound => Error(ZipFailureMessage, StatusNotFound)
    case UpstreamFailure(Geocode, _) => Error(ZipFailureMessage, StatusInternalServerError)
    case UpstreamFailure(Weather, _) => Error(TemperatureFailureMessage, StatusInternalServerError)
    case Resolved(r) => Response(StatusOK, Json(r))
  }

  /** The outbound requests of one request; http.Get sends them without a trace context.
      The ViaCEP URL, a constant around eight ASCII digits, always parses. */
  function Trace(cep: string, apiKey: string, builds: string -> bool,
                 viaCep: string -> Reply<ViaCepResponse>): seq<Event>
  {
    if !ValidZip(cep) then []
    else
      [Request(ViaCepUrl(cep), Background)] +
      match GeocodeStage(viaCep(ViaCepUrl(cep)))
      case Done(_) => []
      case Next(city) =>
        if builds(WeatherUrl(apiKey, city)) then [Request(WeatherUrl(apiKey, city), Background)] else []
  }

  /** `app.handler` of this variant; the providers are the answers http.Get gets for a URL. */
  method Handler(path: string, apiKey: string, builds: string -> bool,
                 viaCep: string -> Reply<ViaCepResponse>,
                 weatherApi: string -> Reply<WeatherApiResponse>)
    returns (resp: Response<TempResponse>, ghost trace: seq<Event>)
    requires |path| >= 1 && path[0] == '/'
    ensures resp == Render(Classify(path[1..], apiKey, builds, viaCep, weatherApi))
    ensures trace == Trace(path[1..], apiKey, builds, viaCep)
  {
    trace := [];
    var cep := path[1..];
    if !ZipPattern.MatchesDigits(cep, 8) {
      resp := Error(InvalidZipMessage, StatusUnprocessableEntity);
      return;
    }
    var viaCepUrl := ViaCepUrl(cep);
    var reply := viaCep(viaCepUrl);
    trace := trace + [Request(viaCepUrl, Background)];
    if reply.TransportError? {
      resp := Error(ZipFailureMessage, StatusInternalServerError);
      return;
    }
    if reply.statusCode == StatusNotFound {
      resp := Error(ZipFailureMessage, StatusNotFound);
      return;
    }
    if reply.payload.Undecodable? {
      resp := Error(ZipFailureMessage, StatusInternalServerError);
      return;
    }
    var viaCepData := reply.payload.value;
    if viaCepData.localidade == "" {
      resp := Error(ZipFailureMessage, StatusNotFound);
      return;
    }
    var weatherUrl := WeatherUrl(apiKey, viaCepData.localidade);
    if !builds(weatherUrl) {
      resp := Error(TemperatureFailureMessage, StatusInternalServerError);
      return;
    }
    var weatherReply := weatherApi(weatherUrl);
    trace := trace + [Request(weatherUrl, Background)];
    if weatherReply.TransportError? {
      resp := Error(TemperatureFailureMessage, StatusInternalServerError);
      return;
    }
    if weatherReply.payload.Undecodable? {
      resp := Error(TemperatureFailureMessage, StatusInternalServerError);
      return;
    }
    var tempC := weatherReply.payload.value.tempC;
    var tempF := Units.Fahrenheit(tempC);
    var tempK := Units.KelvinPrecise(tempC);
    resp := Response(StatusOK, Json(TempResponse(tempC, tempF, tempK)));
  }

  lemma ErrorLines()
    ensures InvalidZipMessage + "\n" == "invalid zipcode\n"
    ensures ZipFailureMessage + "\n" == "can not find zipcode\n"
    ensures TemperatureFailureMessage + "\n" == "can not find temperature\n"
  {
  }

  /** The two request URLs written out. */
  lemma UrlsAsWritten(cep: string, apiKey: string, city: string)
    ensures ViaCepUrl(cep) == "https://viacep.com.br/ws/" + cep + "/json/"
    ensures WeatherUrl(apiKey, city) == "http://api.weatherapi.com/v1/current.json?key=" + apiKey + "&q=" + city
  {
    assert ViaCepUrlBase + "/ws/" == "https://viacep.com.br/ws/";
    assert WeatherApiUrlBase + "/v1/current.json?key=" == "http://api.weatherapi.com/v1/current.json?key=";
  }

  /** The requests one request makes: none for a bad code, ViaCEP's for a good one, and the
      weather request, with the key and the locality inserted as they are, exactly when a
      locality is known and http.Get can make a request of that URL. */
  lemma RequestsMade(cep: string, apiKey: string, builds: string -> bool,
                     viaCep: string -> Reply<ViaCepResponse>)
    ensures Requests(Trace(cep, apiKey, builds, viaCep)) ==
      if !ValidZip(cep) then []
      else
        ["https://viacep.com.br/ws/" + cep + "/json/"] +
        match GeocodeStage(viaCep(ViaCepUrl(cep)))
        case Done(_) => []
        case Next(city) =>
          var url := "http://api.weatherapi.com/v1/current.json?key=" + apiKey + "&q=" + city;
          if builds(url) then [url] else []
  {
    if ValidZip(cep) {
      var first: seq<Event> := [Request(ViaCepUrl(cep), Background)];
      var rest: seq<Event> :=
        match GeocodeStage(viaCep(ViaCepUrl(cep)))
        case Done(_) => []
        case Next(city) =>
          if builds(WeatherUrl(apiKey, city)) then [Request(WeatherUrl(apiKey, city), Background)] else [];
      assert Trace(cep, apiKey, builds, viaCep) == first + rest;
      RequestsAppend(first, rest);
      assert first[1..] == [];
      assert rest == [] || rest[1..] == [];
      match GeocodeStage(viaCep(ViaCepUrl(cep)))
      case Done(_) =>
        UrlsAsWritten(cep, apiKey, "");
      case Next(city) =>
        UrlsAsWritten(cep, apiKey, city);
    }
  }

  /** A code failing ^\d{8}$ is answered 422 "invalid zipcode" with no outbound request. */
  lemma InvalidZipMakesNoCall(cep: string, apiKey: string, builds: string -> bool,
                              viaCep: string -> Reply<ViaCepResponse>,
                              weatherApi: string -> Reply<WeatherApiResponse>)
    requires !ValidZip(cep)
    ensures Render(Classify(cep, apiKey, builds, viaCep, weatherApi)) == Response(422, Plain("invalid zipcode\n"))
    ensures Requests(Trace(cep, apiKey, builds, viaCep)) == []
  {
    RequestsMade(cep, apiKey, builds, viaCep);
    ErrorLines();
  }

  /** ViaCEP failures: a transport error is a 500 and a 404 status is a 404, whatever the
      body, both with the line "can not find zipcode"; then an undecodable body is a 500 and
      an empty locality a 404. The erro flag plays no part. No weather request follows. */
  lemma GeocodeFailures(cep: string, apiKey: string, builds: string -> bool,
                        viaCep: string -> Reply<ViaCepResponse>,
                        weatherApi: string -> Reply<WeatherApiResponse>)
    requires ValidZip(cep)
    ensures var reply := viaCep(ViaCepUrl(cep));
      var answer := Render(Classify(cep, apiKey, builds, viaCep, weatherApi));
      && (reply.TransportError? ==> answer == Response(500, Plain("can not find zipcode\n")))
      && (reply.Received? && reply.statusCode == 404 ==> answer == Response(404, Plain("can not find zipcode\n")))
      && (reply.Received? && reply.statusCode != 404 && reply.payload.Undecodable? ==>
            answer == Response(500, Plain("can not find zipcode\n")))
      && (reply.Received? && reply.statusCode != 404 && reply.payload.Decoded? ==>
            (reply.payload.value.localidade == "" <==> answer == Response(404, Plain("can not find zipcode\n"))))
      && (GeocodeStage(reply).Done? ==> Requests(Trace(cep, apiKey, builds, viaCep)) == [ViaCepUrl(cep)])
  {
    RequestsMade(cep, apiKey, builds, viaCep);
    ErrorLines();
  }

  /** The erro flag of a decoded ViaCEP body changes nothing. */
  lemma ErroFlagIgnored(data: ViaCepResponse, status: int)
    ensures GeocodeStage(Received(status, Decoded(data)))
         == GeocodeStage(Received(status, Decoded(data.(erro := !data.erro))))
  {
  }

  /** With a locality known, a weather URL http.Get cannot make a request of, a WeatherAPI
      transport failure and an undecodable body are each a 500 with the line "can not find
      temperature"; the weather request was sent in the last two cases only. */
  lemma WeatherFailureIsServerError(cep: string, apiKey: string, builds: string -> bool, city: string,
                                    viaCep: string -> Reply<ViaCepResponse>,
                                    weatherApi: string -> Reply<WeatherApiResponse>)
    requires ValidZip(cep) && GeocodeStage(viaCep(ViaCepUrl(cep))) == Next(city)
    requires !builds(WeatherUrl(apiKey, city))
          || !(weatherApi(WeatherUrl(apiKey, city)).Received? && weatherApi(WeatherUrl(apiKey, city)).payload.Decoded?)
    ensures Render(Classify(cep, apiKey, builds, viaCep, weatherApi)) == Response(500, Plain("can not find temperature\n"))
    ensures Requests(Trace(cep, apiKey, builds, viaCep))
              == if builds(WeatherUrl(apiKey, city)) then [ViaCepUrl(cep), WeatherUrl(apiKey, city)] else [ViaCepUrl(cep)]
  {
    RequestsMade(cep, apiKey, builds, viaCep);
    ErrorLines();
  }

  /** On success the answer is 200 with temp_C as sent, temp_F = C * 1.8 + 32 and
      temp_K = C + 273.15. */
  lemma SuccessAnswer(cep: string, apiKey: string, builds: string -> bool, city: string, celsius: real,
                      viaCep: string -> Reply<ViaCepResponse>,
                      weatherApi: string -> Reply<WeatherApiResponse>)
    requires ValidZip(cep) && GeocodeStage(viaCep(ViaCepUrl(cep))) == Next(city)
    requires builds(WeatherUrl(apiKey, city))
    requires weatherApi(WeatherUrl(apiKey, city)).Received?
    requires weatherApi(WeatherUrl(apiKey, city)).payload == Decoded(WeatherApiResponse(celsius))
    ensures Render(Classify(cep, apiKey, builds, viaCep, weatherApi))
              == Response(200, Json(TempResponse(celsius, celsius * 1.8 + 32.0, celsius + 273.15)))
  {
  }
}
