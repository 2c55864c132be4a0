/** The orchestration handler of service-b-orchestration: validate the postal code taken
    from the URL path, resolve it to a locality with ViaCEP, ask WeatherAPI for the current
    temperature there, convert it, and answer; every stage has an early exit with its own
    status and message. The handler runs in a span of its own, and each outbound call in a
    child span that is ended as soon as the call returns. */
module Orchestration {
  import opened Results
  import opened Http
  import opened Providers
  import opened Outcomes
  import opened Tracing
  import ZipPattern
  import Units

  /** `TempResponse`: the JSON body of a successful answer. */
  datatype TempResponse = TempResponse(city: string, tempC: real, tempF: real, tempK: real)

  const HandlerSpan := "orchestration-handler"
  const ViaCepSpan := "call-viacep-api"
  const WeatherSpan := "call-weather-api"

  const InvalidZipMessage := "invalid zipcode"
  const NotFoundMessage := "can not find zipcode"
  const ViaCepFetchMessage := "error fetching from ViaCEP"
  const ViaCepDecodeMessage := "error unmarshalling ViaCEP response"
  const WeatherFetchMessage := "error fetching from WeatherAPI"
  const WeatherDecodeMessage := "error unmarshalling WeatherAPI response"

  function ViaCepUrl(cep: string): string
  {
    "https://viacep.com.br/ws/" + cep + "/json/"
  }

  const WeatherUrlPrefix := "http://api.weatherapi.com/v1/current.json?key="

  function WeatherUrl(apiKey: string, escapedCity: string): string
  {
    WeatherUrlPrefix + apiKey + "&q=" + escapedCity
  }

  predicate ValidZip(cep: string)
  {
    ZipPattern.MatchesDigits(cep, 8)
  }

  /** ViaCEP's answer: a transport or decode failure, a miss (the erro flag or an empty
      locality), or the locality to look the weather up for. The HTTP status is not read. */
  function GeocodeStage(reply: Reply<ViaCepResponse>): Step<string, TempResponse>
  {
    match reply
    case TransportError => Done(UpstreamFailure(Geocode, TransportFailure))
    case Received(_, Undecodable) => Done(UpstreamFailure(Geocode, DecodeFailure))
    case Received(_, Decoded(data)) =>
      if data.erro || data.localidade == "" then Done(NotFound) else Next(data.localidade)
  }

  /** WeatherAPI's answer: a transport or decode failure, or current.temp_c as sent. */
  function WeatherStage(reply: Reply<WeatherApiResponse>): Step<real, TempResponse>
  {
    match reply
    case TransportError => Done(UpstreamFailure(Weather, TransportFailure))
    case Received(_, Undecodable) => Done(UpstreamFailure(Weather, DecodeFailure))
    case Received(_, Decoded(data)) => Next(data.tempC)
  }

  /** The outcome of one request for `cep`, as a decision table over the two providers'
      answers to the URLs they are asked. `builds` tells whether http.NewRequestWithContext
      accepts a URL: the weather request it refuses is discarded unchecked, and sending the
      nil request panics. */
  function Orchestrate(cep: string, apiKey: string, queryEscape: string -> string,
                       builds: string -> bool,
                       viaCep: string -> Reply<ViaCepResponse>,
                       weatherApi: string -> Reply<WeatherApiResponse>): (o: Outcome<TempResponse>)
    ensures o.Resolved? ==>
      && o.result.city != ""
      && o.result.tempF == Units.Fahrenheit(o.result.tempC)
      && o.result.tempK == Units.KelvinWhole(o.result.tempC)
  {
    if !ValidZip(cep) then InvalidInput
    else
      match GeocodeStage(viaCep(ViaCepUrl(cep)))
      case Done(o) => o
      case Next(city) =>
        var url := WeatherUrl(apiKey, queryEscape(city));
        if !builds(url) then Aborted
        else
          match WeatherStage(weatherApi(url))
          case Done(o) => o
          case Next(c) => Resolved(TempResponse(city, c, Units.Fahrenheit(c), Units.KelvinWhole(c)))
  }

  /** The status and body each outcome is answered with; none after a panic, when net/http
      drops the connection without an answer. */
  function Render(o: Outcome<TempResponse>): Option<Response<TempResponse>>
  {
    match o
    case InvalidInput => Some(Error(InvalidZipMessage, StatusUnprocessableEntity))
    case NotFound => Some(Error(NotFoundMessage, StatusNotFound))
    case UpstreamFailure(Geocode, TransportFailure) => Some(Error(ViaCepFetchMessage, StatusInternalServerError))
    case UpstreamFailure(Geocode, DecodeFailure) => Some(Error(ViaCepDecodeMessage, StatusInternalServerError))
    case UpstreamFailure(Weather, TransportFailure) => Some(Error(WeatherFetchMessage, StatusInternalServerError))
    case UpstreamFailure(Weather, DecodeFailure) => Some(Error(WeatherDecodeMessage, StatusInternalServerError))
    case Resolved(r) => Some(Response(StatusOK, Json(r)))
    case Aborted => None
  }

  /** The calls made inside the handler span: a ViaCEP call for a valid code and, once a
      locality is known, a WeatherAPI call. Each call's span is started in the context left
      by the previous `tracer.Start`, so the weather span's parent is the ViaCEP span. */
  function Calls(cep: string, apiKey: string, queryEscape: string -> string,
                 builds: string -> bool, viaCep: string -> Reply<ViaCepResponse>): seq<Event>
  {
    if !ValidZip(cep) then []
    else
      Call(ViaCepSpan, ChildOf(HandlerSpan), ViaCepUrl(cep)) +
      match GeocodeStage(viaCep(ViaCepUrl(cep)))
      case Done(_) => []
      case Next(city) =>
        var url := WeatherUrl(apiKey, queryEscape(city));
        Attempt(WeatherSpan, ChildOf(ViaCepSpan), url, builds(url))
  }

  /** The spans and calls of one request: the handler span around its calls. The deferred
      span.End() runs on the way out of a panic too. */
  function Trace(cep: string, apiKey: string, queryEscape: string -> string,
                 builds: string -> bool, viaCep: string -> Reply<ViaCepResponse>): seq<Event>
  {
    Within(HandlerSpan, RequestCtx, Calls(cep, apiKey, queryEscape, builds, viaCep))
  }

  /** One traced outbound call (lines 113-116 and 145-148): a child span is started in
      `ctx`, the request is built and sent in the new span's context, and the span is ended
      as soon as the answer is in. A request that is not `built` is nil, and sending it
      panics before the span is ended: no reply then. `next` is the context tracer.Start
      hands back. */
  method TracedCall<T>(span: string, ghost ctx: SpanCtx, url: string, built: bool,
                       provider: string -> Reply<T>)
    returns (reply: Option<Reply<T>>, ghost events: seq<Event>, ghost next: SpanCtx)
    ensures reply == if built then Some(provider(url)) else None
    ensures events == Attempt(span, ctx, url, built)
    ensures next == ChildOf(span)
  {
    events := [SpanStart(span, ctx)];
    next := ChildOf(span);
    if !built {
      return None, events, next;
    }
    reply := Some(provider(url));
    events := events + [Request(url, next)];
    events := events + [SpanEnd(span)];
  }

  /** `app.handler`: `path` is r.URL.Path, the API key comes from the configuration, and the
      two providers are the answers http.DefaultClient.Do gets for a URL. No answer is
      written when the handler panics. */
  method Handler(path: string, apiKey: string, queryEscape: string -> string,
                 builds: string -> bool,
                 viaCep: string -> Reply<ViaCepResponse>,
                 weatherApi: string -> Reply<WeatherApiResponse>)
    returns (resp: Option<Response<TempResponse>>, ghost trace: seq<Event>)
    requires |path| >= 1 && path[0] == '/'
    ensures resp == Render(Orchestrate(path[1..], apiKey, queryEscape, builds, viaCep, weatherApi))
    ensures trace == Trace(path[1..], apiKey, queryEscape, builds, viaCep)
  {
    ghost var ctx := RequestCtx;
    trace := [SpanStart(HandlerSpan, ctx)];
    ctx := ChildOf(HandlerSpan);
    ghost var calls: seq<Event> := [];
    var cep := path[1..];
    label handled: {
      if !ZipPattern.MatchesDigits(cep, 8) {
        resp := Some(Error(InvalidZipMessage, StatusUnprocessableEntity));
        break handled;
      }
      var viaCepUrl := ViaCepUrl(cep);
      var sent;
      ghost var events;
      // A constant around eight ASCII digits: this URL always parses.
      sent, events, ctx := TracedCall(ViaCepSpan, ctx, viaCepUrl, true, viaCep);
      trace, calls := trace + events, calls + events;
      var reply := sent.value;
      if reply.TransportError? {
        resp := Some(Error(ViaCepFetchMessage, StatusInternalServerError));
        break handled;
      }
      if reply.payload.Undecodable? {
        resp := Some(Error(ViaCepDecodeMessage, StatusInternalServerError));
        break handled;
      }
      var viaCepData := reply.payload.value;
      if viaCepData.erro || viaCepData.localidade == "" {
        resp := Some(Error(NotFoundMessage, StatusNotFound));
        break handled;
      }
      var escapedCity := queryEscape(viaCepData.localidade);
      var weatherUrl := WeatherUrl(apiKey, escapedCity);
      var weatherSent;
      weatherSent, events, ctx := TracedCall(WeatherSpan, ctx, weatherUrl, builds(weatherUrl), weatherApi);
      trace, calls := trace + events, calls + events;
      if weatherSent.None? {
        resp := None;  // Do(nil) panicked
        break handled;
      }
      var weatherReply := weatherSent.value;
      if weatherReply.TransportError? {
        resp := Some(Error(WeatherFetchMessage, StatusInternalServerError));
        break handled;
      }
      if weatherReply.payload.Undecodable? {
        resp := Some(Error(WeatherDecodeMessage, StatusInternalServerError));
        break handled;
      }
      var tempC := weatherReply.payload.value.tempC;
      var tempF := Units.Fahrenheit(tempC);
      var tempK := Units.KelvinWhole(tempC);
      resp := Some(Response(StatusOK, Json(TempResponse(viaCepData.localidade, tempC, tempF, tempK))));
    }
    assert calls == Calls(cep, apiKey, queryEscape, builds, viaCep);
    assert trace == [SpanStart(HandlerSpan, RequestCtx)] + calls;
    trace := trace + [SpanEnd(HandlerSpan)];  // the deferred span.End()
  }

  /** The lines http.Error writes for each message. */
  lemma ErrorLines()
    ensures InvalidZipMessage + "\n" == "invalid zipcode\n"
    ensures NotFoundMessage + "\n" == "can not find zipcode\n"
    ensures ViaCepFetchMessage + "\n" == "error fetching from ViaCEP\n"
    ensures ViaCepDecodeMessage + "\n" == "error unmarshalling ViaCEP response\n"
    ensures WeatherFetchMessage + "\n" == "error fetching from WeatherAPI\n"
    ensures WeatherDecodeMessage + "\n" == "error unmarshalling WeatherAPI response\n"
  {
  }

  /** The locality ViaCEP gives for a valid code, when it gives one. */
  predicate Located(cep: string, viaCep: string -> Reply<ViaCepResponse>)
  {
    ValidZip(cep) && GeocodeStage(viaCep(ViaCepUrl(cep))).Next?
  }

  /** A locality is known and the weather request for it is built. */
  predicate WeatherSent(cep: string, apiKey: string, queryEscape: string -> string,
                        builds: string -> bool, viaCep: string -> Reply<ViaCepResponse>)
  {
    Located(cep, viaCep) && builds(WeatherUrl(apiKey, queryEscape(GeocodeStage(viaCep(ViaCepUrl(cep))).value)))
  }

  /** Replayed, the calls leave the weather span open exactly when a locality is known and
      its request is not built; every request is followed by its span's end. */
  lemma CallsBracketed(cep: string, apiKey: string, queryEscape: string -> string,
                       builds: string -> bool, viaCep: string -> Reply<ViaCepResponse>)
    ensures Replay(Calls(cep, apiKey, queryEscape, builds, viaCep), []) ==
      Some(if Located(cep, viaCep) && !WeatherSent(cep, apiKey, queryEscape, builds, viaCep)
           then [WeatherSpan] else [])
    ensures CallsEndTheirSpans(Calls(cep, apiKey, queryEscape, builds, viaCep))
  {
    var empty: seq<Event> := [];
    assert Replay(empty, []) == Some([]) && CallsEndTheirSpans(empty);
    if ValidZip(cep) {
      var first := Call(ViaCepSpan, ChildOf(HandlerSpan), ViaCepUrl(cep));
      CallBracketed(ViaCepSpan, ChildOf(HandlerSpan), ViaCepUrl(cep));
      CallEndsItsSpan(ViaCepSpan, ChildOf(HandlerSpan), ViaCepUrl(cep));
      match GeocodeStage(viaCep(ViaCepUrl(cep)))
      case Done(_) =>
        assert Calls(cep, apiKey, queryEscape, builds, viaCep) == first + empty;
        ReplayAppend(first, empty, []);
        ConcatEndsSpans(first, empty);
      case Next(city) =>
        var url := WeatherUrl(apiKey, queryEscape(city));
        var second := Attempt(WeatherSpan, ChildOf(ViaCepSpan), url, builds(url));
        AttemptReplay(WeatherSpan, ChildOf(ViaCepSpan), url, builds(url));
        ReplayAppend(first, second, []);
        ConcatEndsSpans(first, second);
    }
  }

  /** The requests made: none, ViaCEP's, or ViaCEP's then WeatherAPI's once it is built. */
  lemma CallsRequests(cep: string, apiKey: string, queryEscape: string -> string,
                      builds: string -> bool, viaCep: string -> Reply<ViaCepResponse>)
    ensures Requests(Calls(cep, apiKey, queryEscape, builds, viaCep)) ==
      if !ValidZip(cep) then []
      else if !WeatherSent(cep, apiKey, queryEscape, builds, viaCep) then [ViaCepUrl(cep)]
      else [ViaCepUrl(cep), WeatherUrl(apiKey, queryEscape(GeocodeStage(viaCep(ViaCepUrl(cep))).value))]
  {
    if ValidZip(cep) {
      var first := Call(ViaCepSpan, ChildOf(HandlerSpan), ViaCepUrl(cep));
      CallCounts(ViaCepSpan, ChildOf(HandlerSpan), ViaCepUrl(cep), "");
      match GeocodeStage(viaCep(ViaCepUrl(cep)))
      case Done(_) =>
        assert Calls(cep, apiKey, queryEscape, builds, viaCep) == first + [];
        RequestsAppend(first, []);
      case Next(city) =>
        var url := WeatherUrl(apiKey, queryEscape(city));
        var second := Attempt(WeatherSpan, ChildOf(ViaCepSpan), url, builds(url));
        AttemptCounts(WeatherSpan, ChildOf(ViaCepSpan), url, builds(url), "");
        RequestsAppend(first, second);
    }
  }

  /** Each call span is started once when its call is attempted, and never otherwise. */
  lemma CallsStarts(cep: string, apiKey: string, queryEscape: string -> string,
                    builds: string -> bool, viaCep: string -> Reply<ViaCepResponse>, name: string)
    ensures Starts(Calls(cep, apiKey, queryEscape, builds, viaCep), name) ==
      (if name == ViaCepSpan && ValidZip(cep) then 1 else 0)
      + (if name == WeatherSpan && Located(cep, viaCep) then 1 else 0)
  {
    if ValidZip(cep) {
      var first := Call(ViaCepSpan, ChildOf(HandlerSpan), ViaCepUrl(cep));
      CallCounts(ViaCepSpan, ChildOf(HandlerSpan), ViaCepUrl(cep), name);
      match GeocodeStage(viaCep(ViaCepUrl(cep)))
      case Done(_) =>
        assert Calls(cep, apiKey, queryEscape, builds, viaCep) == first + [];
        StartsAppend(first, [], name);
      case Next(city) =>
        var url := WeatherUrl(apiKey, queryEscape(city));
        var second := Attempt(WeatherSpan, ChildOf(ViaCepSpan), url, builds(url));
        AttemptCounts(WeatherSpan, ChildOf(ViaCepSpan), url, builds(url), name);
        StartsAppend(first, second, name);
    }
  }

  /** Each call span is ended once when its request was sent, and never otherwise. */
  lemma CallsEnds(cep: string, apiKey: string, queryEscape: string -> string,
                  builds: string -> bool, viaCep: string -> Reply<ViaCepResponse>, name: string)
    ensures Ends(Calls(cep, apiKey, queryEscape, builds, viaCep), name) ==
      (if name == ViaCepSpan && ValidZip(cep) then 1 else 0)
      + (if name == WeatherSpan && WeatherSent(cep, apiKey, queryEscape, builds, viaCep) then 1 else 0)
  {
    if ValidZip(cep) {
      var first := Call(ViaCepSpan, ChildOf(HandlerSpan), ViaCepUrl(cep));
      CallCounts(ViaCepSpan, ChildOf(HandlerSpan), ViaCepUrl(cep), name);
      match GeocodeStage(viaCep(ViaCepUrl(cep)))
      case Done(_) =>
        assert Calls(cep, apiKey, queryEscape, builds, viaCep) == first + [];
        EndsAppend(first, [], name);
      case Next(city) =>
        var url := WeatherUrl(apiKey, queryEscape(city));
        var second := Attempt(WeatherSpan, ChildOf(ViaCepSpan), url, builds(url));
        AttemptCounts(WeatherSpan, ChildOf(ViaCepSpan), url, builds(url), name);
        EndsAppend(first, second, name);
    }
  }

  /** The trace is well bracketed unless the weather request is not built, and every request
      in it is followed by the end of its span. */
  lemma TraceBracketed(cep: string, apiKey: string, queryEscape: string -> string,
                       builds: string -> bool, viaCep: string -> Reply<ViaCepResponse>)
    ensures var t := Trace(cep, apiKey, queryEscape, builds, viaCep);
      && (WellBracketed(t) <==> (Located(cep, viaCep) ==> WeatherSent(cep, apiKey, queryEscape, builds, viaCep)))
      && CallsEndTheirSpans(t)
  {
    var calls := Calls(cep, apiKey, queryEscape, builds, viaCep);
    CallsBracketed(cep, apiKey, queryEscape, builds, viaCep);
    WithinEndsSpans(HandlerSpan, RequestCtx, calls);
    if Located(cep, viaCep) && !WeatherSent(cep, apiKey, queryEscape, builds, viaCep) {
      WithinUnclosed(HandlerSpan, RequestCtx, calls, WeatherSpan);
    } else {
      WithinBracketed(HandlerSpan, RequestCtx, calls);
    }
  }

  /** The requests and span counts of one request, read off its trace. */
  lemma TraceShape(cep: string, apiKey: string, queryEscape: string -> string,
                   builds: string -> bool, viaCep: string -> Reply<ViaCepResponse>, name: string)
    ensures var t := Trace(cep, apiKey, queryEscape, builds, viaCep);
      && (WellBracketed(t) <==> (Located(cep, viaCep) ==> WeatherSent(cep, apiKey, queryEscape, builds, viaCep)))
      && CallsEndTheirSpans(t)
      && Requests(t) == (if !ValidZip(cep) then []
                         else if !WeatherSent(cep, apiKey, queryEscape, builds, viaCep) then [ViaCepUrl(cep)]
                         else [ViaCepUrl(cep),
                               WeatherUrl(apiKey, queryEscape(GeocodeStage(viaCep(ViaCepUrl(cep))).value))])
      && Starts(t, name) ==
           (if name == HandlerSpan then 1 else 0)
           + (if name == ViaCepSpan && ValidZip(cep) then 1 else 0)
           + (if name == WeatherSpan && Located(cep, viaCep) then 1 else 0)
      && Ends(t, name) ==
           (if name == HandlerSpan then 1 else 0)
           + (if name == ViaCepSpan && ValidZip(cep) then 1 else 0)
           + (if name == WeatherSpan && WeatherSent(cep, apiKey, queryEscape, builds, viaCep) then 1 else 0)
  {
    var calls := Calls(cep, apiKey, queryEscape, builds, viaCep);
    TraceBracketed(cep, apiKey, queryEscape, builds, viaCep);
    CallsRequests(cep, apiKey, queryEscape, builds, viaCep);
    CallsStarts(cep, apiKey, queryEscape, builds, viaCep, name);
    CallsEnds(cep, apiKey, queryEscape, builds, viaCep, name);
    WithinCounts(HandlerSpan, RequestCtx, calls, name);
  }

  /** Span lifecycle: on every exit path, a panic included, the handler span is ended
      exactly once; the ViaCEP span is started and ended once when a valid code is looked up;
      the weather span is started once when a locality is known and ended once when its
      request was sent. A weather span left open is the only way the trace is not well
      bracketed. */
  lemma SpansClosedOnce(cep: string, apiKey: string, queryEscape: string -> string,
                        builds: string -> bool, viaCep: string -> Reply<ViaCepResponse>)
    ensures var t := Trace(cep, apiKey, queryEscape, builds, viaCep);
      && CallsEndTheirSpans(t)
      && Starts(t, HandlerSpan) == 1 && Ends(t, HandlerSpan) == 1
      && Starts(t, ViaCepSpan) == Ends(t, ViaCepSpan) == (if ValidZip(cep) then 1 else 0)
      && Starts(t, WeatherSpan) == (if Located(cep, viaCep) then 1 else 0)
      && Ends(t, WeatherSpan) == (if |Requests(t)| == 2 then 1 else 0)
      && (WellBracketed(t) <==> Starts(t, WeatherSpan) == Ends(t, WeatherSpan))
    ensures var t := Trace(cep, apiKey, queryEscape, builds, viaCep);
      WellBracketed(t) ==> forall name :: Starts(t, name) == Ends(t, name)
  {
    var t := Trace(cep, apiKey, queryEscape, builds, viaCep);
    TraceShape(cep, apiKey, queryEscape, builds, viaCep, HandlerSpan);
    TraceShape(cep, apiKey, queryEscape, builds, viaCep, ViaCepSpan);
    TraceShape(cep, apiKey, queryEscape, builds, viaCep, WeatherSpan);
    if WellBracketed(t) {
      forall name
        ensures Starts(t, name) == Ends(t, name)
      {
        StartsMatchEnds(t, name);
      }
    }
  }

  /** A code that is not exactly 8 ASCII digits is answered 422 "invalid zipcode" and no
      outbound call is made. */
  lemma InvalidZipMakesNoCall(cep: string, apiKey: string, queryEscape: string -> string,
                              builds: string -> bool,
                              viaCep: string -> Reply<ViaCepResponse>,
                              weatherApi: string -> Reply<WeatherApiResponse>)
    requires !ValidZip(cep)
    ensures Orchestrate(cep, apiKey, queryEscape, builds, viaCep, weatherApi) == InvalidInput
    ensures Render(Orchestrate(cep, apiKey, queryEscape, builds, viaCep, weatherApi))
              == Some(Response(422, Plain("invalid zipcode\n")))
    ensures Requests(Trace(cep, apiKey, queryEscape, builds, viaCep)) == []
  {
    TraceShape(cep, apiKey, queryEscape, builds, viaCep, HandlerSpan);
    ErrorLines();
  }

  /** ViaCEP failing, by transport or by an undecodable body, is a 500 and WeatherAPI is
      never asked. */
  lemma GeocodeFailureMakesNoWeatherCall(cep: string, apiKey: string, queryEscape: string -> string,
                                         builds: string -> bool,
                                         viaCep: string -> Reply<ViaCepResponse>,
                                         weatherApi: string -> Reply<WeatherApiResponse>)
    requires ValidZip(cep)
    requires viaCep(ViaCepUrl(cep)).TransportError? || viaCep(ViaCepUrl(cep)).payload.Undecodable?
    ensures Render(Orchestrate(cep, apiKey, queryEscape, builds, viaCep, weatherApi))
              == if viaCep(ViaCepUrl(cep)).TransportError?
                 then Some(Response(500, Plain("error fetching from ViaCEP\n")))
                 else Some(Response(500, Plain("error unmarshalling ViaCEP response\n")))
    ensures Requests(Trace(cep, apiKey, queryEscape, builds, viaCep)) == [ViaCepUrl(cep)]
  {
    TraceShape(cep, apiKey, queryEscape, builds, viaCep, HandlerSpan);
    ErrorLines();
  }

  /** A decoded ViaCEP body with the erro flag set or an empty locality is answered 404
      "can not find zipcode", whatever the HTTP status, and WeatherAPI is never asked. */
  lemma GeocodeMissIsNotFound(cep: string, apiKey: string, queryEscape: string -> string,
                              builds: string -> bool,
                              viaCep: string -> Reply<ViaCepResponse>,
                              weatherApi: string -> Reply<WeatherApiResponse>)
    requires ValidZip(cep)
    requires viaCep(ViaCepUrl(cep)).Received? && viaCep(ViaCepUrl(cep)).payload.Decoded?
    ensures var data := viaCep(ViaCepUrl(cep)).payload.value;
      (data.erro || data.localidade == "") <==>
        Orchestrate(cep, apiKey, queryEscape, builds, viaCep, weatherApi) == NotFound
    ensures Orchestrate(cep, apiKey, queryEscape, builds, viaCep, weatherApi) == NotFound ==>
      && Render(NotFound) == Some(Response(404, Plain("can not find zipcode\n")))
      && Requests(Trace(cep, apiKey, queryEscape, builds, viaCep)) == [ViaCepUrl(cep)]
  {
    TraceShape(cep, apiKey, queryEscape, builds, viaCep, HandlerSpan);
    ErrorLines();
  }

  /** The weather request is sent exactly when ViaCEP gave a locality and the URL made of
      the configured key and the QueryEscape'd locality is accepted. */
  lemma WeatherCallOnlyAfterGeocode(cep: string, apiKey: string, queryEscape: string -> string,
                                    builds: string -> bool, viaCep: string -> Reply<ViaCepResponse>)
    ensures var urls := Requests(Trace(cep, apiKey, queryEscape, builds, viaCep));
      && (|urls| == 2 <==>
            && ValidZip(cep)
            && viaCep(ViaCepUrl(cep)).Received?
            && viaCep(ViaCepUrl(cep)).payload.Decoded?
            && !viaCep(ViaCepUrl(cep)).payload.value.erro
            && viaCep(ViaCepUrl(cep)).payload.value.localidade != ""
            && builds("http://api.weatherapi.com/v1/current.json?key=" + apiKey + "&q="
                      + queryEscape(viaCep(ViaCepUrl(cep)).payload.value.localidade)))
      && (|urls| == 2 ==>
            urls == [ViaCepUrl(cep),
                     "http://api.weatherapi.com/v1/current.json?key=" + apiKey + "&q="
                       + queryEscape(viaCep(ViaCepUrl(cep)).payload.value.localidade)])
  {
    TraceShape(cep, apiKey, queryEscape, builds, viaCep, HandlerSpan);
  }

  /** A weather URL that http.NewRequestWithContext refuses (a key with a control character,
      say): sending the nil request panics, no answer is written, the weather span is never
      ended, and only the deferred end of the handler span runs. */
  lemma UnbuiltWeatherRequestPanics(cep: string, apiKey: string, queryEscape: string -> string,
                                    builds: string -> bool,
                                    viaCep: string -> Reply<ViaCepResponse>,
                                    weatherApi: string -> Reply<WeatherApiResponse>, city: string)
    requires ValidZip(cep) && GeocodeStage(viaCep(ViaCepUrl(cep))) == Next(city)
    requires !builds(WeatherUrl(apiKey, queryEscape(city)))
    ensures Orchestrate(cep, apiKey, queryEscape, builds, viaCep, weatherApi) == Aborted
    ensures Render(Orchestrate(cep, apiKey, queryEscape, builds, viaCep, weatherApi)) == None
    ensures var t := Trace(cep, apiKey, queryEscape, builds, viaCep);
      && !WellBracketed(t)
      && Requests(t) == [ViaCepUrl(cep)]
      && Starts(t, WeatherSpan) == 1 && Ends(t, WeatherSpan) == 0
      && Ends(t, HandlerSpan) == 1
  {
    TraceShape(cep, apiKey, queryEscape, builds, viaCep, WeatherSpan);
    TraceShape(cep, apiKey, queryEscape, builds, viaCep, HandlerSpan);
  }

  /** Only a weather request that was sent can end in a WeatherAPI failure; both calls have
      then been made. */
  lemma WeatherFailureAfterGeocode(cep: string, apiKey: string, queryEscape: string -> string,
                                   builds: string -> bool,
                                   viaCep: string -> Reply<ViaCepResponse>,
                                   weatherApi: string -> Reply<WeatherApiResponse>)
    requires Orchestrate(cep, apiKey, queryEscape, builds, viaCep, weatherApi) == UpstreamFailure(Weather, TransportFailure)
          || Orchestrate(cep, apiKey, queryEscape, builds, viaCep, weatherApi) == UpstreamFailure(Weather, DecodeFailure)
    ensures WeatherSent(cep, apiKey, queryEscape, builds, viaCep)
    ensures var answer := Render(Orchestrate(cep, apiKey, queryEscape, builds, viaCep, weatherApi));
      answer.Some? && answer.value.status == 500
    ensures |Requests(Trace(cep, apiKey, queryEscape, builds, viaCep))| == 2
  {
    TraceShape(cep, apiKey, queryEscape, builds, viaCep, HandlerSpan);
  }

  /** With a locality known and the weather request sent, a WeatherAPI transport failure is
      a 500 "error fetching from WeatherAPI" and an undecodable body a 500 "error
      unmarshalling WeatherAPI response". */
  lemma WeatherFailureIsServerError(cep: string, apiKey: string, queryEscape: string -> string,
                                    builds: string -> bool,
                                    viaCep: string -> Reply<ViaCepResponse>,
                                    weatherApi: string -> Reply<WeatherApiResponse>, city: string)
    requires ValidZip(cep) && GeocodeStage(viaCep(ViaCepUrl(cep))) == Next(city)
    requires builds(WeatherUrl(apiKey, queryEscape(city)))
    requires var reply := weatherApi(WeatherUrl(apiKey, queryEscape(city)));
      reply.TransportError? || reply.payload.Undecodable?
    ensures Render(Orchestrate(cep, apiKey, queryEscape, builds, viaCep, weatherApi))
              == if weatherApi(WeatherUrl(apiKey, queryEscape(city))).TransportError?
                 then Some(Response(500, Plain("error fetching from WeatherAPI\n")))
                 else Some(Response(500, Plain("error unmarshalling WeatherAPI response\n")))
    ensures Requests(Trace(cep, apiKey, queryEscape, builds, viaCep))
              == [ViaCepUrl(cep), WeatherUrl(apiKey, queryEscape(city))]
  {
    TraceShape(cep, apiKey, queryEscape, builds, viaCep, HandlerSpan);
    ErrorLines();
  }

  /** On success the answer is 200 with all four fields set together: the locality as
      ViaCEP sent it, the Celsius reading as WeatherAPI sent it, F = C * 1.8 + 32 and
      K = C + 273. */
  lemma SuccessCarriesAllFields(cep: string, apiKey: string, queryEscape: string -> string,
                                builds: string -> bool,
                                viaCep: string -> Reply<ViaCepResponse>,
                                weatherApi: string -> Reply<WeatherApiResponse>,
                                city: string, celsius: real)
    requires ValidZip(cep)
    requires viaCep(ViaCepUrl(cep)).Received?
    requires viaCep(ViaCepUrl(cep)).payload == Decoded(ViaCepResponse(city, false)) && city != ""
    requires builds(WeatherUrl(apiKey, queryEscape(city)))
    requires weatherApi(WeatherUrl(apiKey, queryEscape(city))).Received?
    requires weatherApi(WeatherUrl(apiKey, queryEscape(city))).payload == Decoded(WeatherApiResponse(celsius))
    ensures Render(Orchestrate(cep, apiKey, queryEscape, builds, viaCep, weatherApi))
              == Some(Response(200, Json(TempResponse(city, celsius, celsius * 1.8 + 32.0, celsius + 273.0))))
  {
  }

  /** There is no answer only after a panic; otherwise the status tells the outcomes apart,
      and only a resolved request gets JSON. */
  lemma StatusClassifiesOutcome(o: Outcome<TempResponse>)
    ensures Render(o).None? <==> o == Aborted
    ensures Render(o).Some? ==>
      && (Render(o).value.status == 200 <==> o.Resolved?)
      && (Render(o).value.status == 422 <==> o == InvalidInput)
      && (Render(o).value.status == 404 <==> o == NotFound)
      && (Render(o).value.status == 500 <==> o.UpstreamFailure?)
      && (Render(o).value.body.Json? <==> o.Resolved?)
  {
  }

  /** The expectation of main_test.go: São Paulo at 25 °C is 77 °F and 298 K. */
  lemma SaoPauloAt25(apiKey: string, queryEscape: string -> string, builds: string -> bool,
                     viaCep: string -> Reply<ViaCepResponse>,
                     weatherApi: string -> Reply<WeatherApiResponse>)
    requires viaCep(ViaCepUrl("01001000")) == Received(200, Decoded(ViaCepResponse("São Paulo", false)))
    requires builds(WeatherUrl(apiKey, queryEscape("São Paulo")))
    requires weatherApi(WeatherUrl(apiKey, queryEscape("São Paulo"))) == Received(200, Decoded(WeatherApiResponse(25.0)))
    ensures Orchestrate("01001000", apiKey, queryEscape, builds, viaCep, weatherApi)
              == Resolved(TempResponse("São Paulo", 25.0, 77.0, 298.0))
  {
    assert ValidZip("01001000") by {
      ZipPattern.MatchesDigitsIff("01001000", 8);
    }
  }
}
