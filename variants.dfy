/** The two handler variants side by side: service-b-orchestration and the earlier
    service-b. */
module Variants {
  import opened Results
  import opened Http
  import opened Providers
  import opened Outcomes
  import Units
  import Orchestration
  import ServiceB

  /** Both variants ask ViaCEP the same URL for a code. */
  lemma SameViaCepUrl(cep: string)
    ensures Orchestration.ViaCepUrl(cep) == ServiceB.ViaCepUrl(cep)
  {
    assert ServiceB.ViaCepUrl(cep) == "https://viacep.com.br" + "/ws/" + cep + "/json/";
    assert "https://viacep.com.br" + "/ws/" == "https://viacep.com.br/ws/";
  }

  lemma CancelPrefix(p: string, x: string, y: string)
    ensures p + x == p + y <==> x == y
  {
    if p + x == p + y {
      assert x == (p + x)[|p|..];
      assert y == (p + y)[|p|..];
    }
  }

  /** The weather URLs of the two variants agree exactly when escaping leaves the locality
      unchanged: the earlier handler inserts it as it is. */
  lemma WeatherUrlsAgreeIff(apiKey: string, city: string, queryEscape: string -> string)
    ensures Orchestration.WeatherUrl(apiKey, queryEscape(city)) == ServiceB.WeatherUrl(apiKey, city)
            <==> queryEscape(city) == city
  {
    var prefix := Orchestration.WeatherUrlPrefix + apiKey + "&q=";
    assert Orchestration.WeatherUrlPrefix == ServiceB.WeatherApiUrlBase + "/v1/current.json?key=";
    assert Orchestration.WeatherUrl(apiKey, queryEscape(city)) == prefix + queryEscape(city);
    assert ServiceB.WeatherUrl(apiKey, city) == prefix + city;
    CancelPrefix(prefix, queryEscape(city), city);
  }

  /** For the same answers from a ViaCEP that knows the code and from WeatherAPI (asked for
      the escaped locality by one variant and for the locality as it is by the other), both
      variants succeed with the same Celsius and Fahrenheit readings, and Kelvin readings
      0.15 apart; only the orchestration answer names the city. */
  lemma SameWeatherSameReadings(cep: string, apiKey: string, queryEscape: string -> string,
                                builds: string -> bool, viaCep: string -> Reply<ViaCepResponse>,
                                weatherApi: string -> Reply<WeatherApiResponse>,
                                city: string, status: int, celsius: real, weatherStatus: int)
    requires Orchestration.ValidZip(cep)
    requires viaCep(Orchestration.ViaCepUrl(cep)) == Received(status, Decoded(ViaCepResponse(city, false)))
    requires status != StatusNotFound && city != ""
    requires builds(Orchestration.WeatherUrl(apiKey, queryEscape(city))) && builds(ServiceB.WeatherUrl(apiKey, city))
    requires weatherApi(Orchestration.WeatherUrl(apiKey, queryEscape(city))) ==
             Received(weatherStatus, Decoded(WeatherApiResponse(celsius)))
    requires weatherApi(ServiceB.WeatherUrl(apiKey, city)) ==
             Received(weatherStatus, Decoded(WeatherApiResponse(celsius)))
    ensures Orchestration.Orchestrate(cep, apiKey, queryEscape, builds, viaCep, weatherApi) ==
            Resolved(Orchestration.TempResponse(city, celsius, Units.Fahrenheit(celsius), Units.KelvinWhole(celsius)))
    ensures ServiceB.Classify(cep, apiKey, builds, viaCep, weatherApi) ==
            Resolved(ServiceB.TempResponse(celsius, Units.Fahrenheit(celsius), Units.KelvinPrecise(celsius)))
    ensures ServiceB.Classify(cep, apiKey, builds, viaCep, weatherApi).result.tempK -
            Orchestration.Orchestrate(cep, apiKey, queryEscape, builds, viaCep, weatherApi).result.tempK == 0.15
  {
    SameViaCepUrl(cep);
  }

  /** ViaCEP's erro flag decides only the orchestration variant: a body that carries a
      locality and erro set is a miss there and a hit in the earlier handler. */
  lemma ErroFlagOnlyInOrchestration(city: string, status: int)
    requires city != "" && status != StatusNotFound
    ensures Orchestration.GeocodeStage(Received(status, Decoded(ViaCepResponse(city, true)))) == Done(NotFound)
    ensures ServiceB.GeocodeStage(Received(status, Decoded(ViaCepResponse(city, true)))) == Next(city)
  {
  }

  /** ViaCEP's 404 status decides only the earlier handler: the orchestration variant goes on
      to the body, and even an undecodable one is reported as a decode failure there. */
  lemma NotFoundStatusOnlyInServiceB(payload: Payload<ViaCepResponse>)
    ensures ServiceB.GeocodeStage(Received(StatusNotFound, payload)) == Done(NotFound)
    ensures payload.Decoded? && !payload.value.erro && payload.value.localidade != "" ==>
            Orchestration.GeocodeStage(Received(StatusNotFound, payload)) == Next(payload.value.localidade)
    ensures payload.Undecodable? ==>
            Orchestration.GeocodeStage(Received(StatusNotFound, payload)) == Done(UpstreamFailure(Geocode, DecodeFailure))
  {
  }

  /** A ViaCEP transport failure is a 500 in both variants, but with different bodies. */
  lemma GeocodeTransportBodiesDiffer()
    ensures Orchestration.Render(UpstreamFailure(Geocode, TransportFailure)) ==
            Some(Response(StatusInternalServerError, Plain("error fetching from ViaCEP\n")))
    ensures ServiceB.Render(UpstreamFailure(Geocode, TransportFailure)) ==
            Response(StatusInternalServerError, Plain("can not find zipcode\n"))
  {
    Orchestration.ErrorLines();
    ServiceB.ErrorLines();
  }
}
