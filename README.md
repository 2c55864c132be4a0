# Weather by postal code, with OpenTelemetry tracing — a Dafny model

The system answers "what is the temperature at this Brazilian postal code (CEP)?" with
three small Go HTTP services:

- **service-a-input** accepts `POST {"cep": "..."}`, checks that the code is exactly eight
  ASCII digits, and forwards it as `GET <SERVICE_B_URL>/<cep>`. It passes the downstream
  status and body back unchanged.
- **service-b-orchestration** takes the code from the URL path. It resolves the code to a
  locality with ViaCEP, asks WeatherAPI for the current Celsius reading there (with the
  locality URL-escaped), and answers
  `{city, temp_C, temp_F, temp_K}` with F = C·1.8 + 32 and K = C + 273.
- **service-b** is an earlier variant of the same handler. It has no tracing, checks
  ViaCEP's 404 status, ignores the `erro` flag, inserts the locality into the URL
  unescaped, uses other error lines, uses K = C + 273.15, and returns no city.

Each handler is modelled as a Dafny `method` that takes the same early exits as the Go code.
Go's `defer span.End()` becomes a labelled block followed by the span's end.

Each method returns the HTTP answer and a ghost event log. The orchestration handler can
also panic, and then it returns no answer. The log records spans started
and ended (with their parent context), outbound requests (with their URL and context),
span attributes and recorded errors.

Each method is proved equal to two pure functions:

- a decision table (`Orchestrate`, `Classify`, `Route`) composed with `Render`;
- a trace function.

Lemmas about those functions state what the handlers promise:

- which status and body each failure gets;
- that no call is made after a failed stage;
- which URLs are requested;
- that the conversions are exact over reals;
- that the log is well bracketed, with each span started and ended exactly once.

Outside the handlers, the model covers:

- the two configuration loaders, as methods that build and then overwrite a `Config`;
- the listen-port rule of both `main` functions.

The outbound services are parameters of the model:

- ViaCEP and WeatherAPI are functions from the requested URL to a reply: a transport
  error, or a status with a decoded or undecodable body;
- service B is a function from the requested URL to a downstream answer: unreachable, or a
  status with a body that was read or could not be read;
- `url.QueryEscape` is a function from string to string;
- a predicate `builds` says whether a URL can be made into a request
  (`http.NewRequestWithContext` in service-a and in the orchestration handler, `http.Get` in
  service-b). It is consulted for service B's URL and for the weather URLs. The ViaCEP URL
  is a constant around eight ASCII digits, so it always parses;
- the Secret Manager is either unavailable or a function from secret name to result;
- the environment variables are string parameters.

| file | module | models |
|---|---|---|
| results.dfy | Results | Option / Result |
| http.dfy | Http | status codes, responses, `http.Error` (message plus newline) |
| providers.dfy | Providers | ViaCEP and WeatherAPI bodies, abstract replies |
| outcomes.dfy | Outcomes | the outcome classes shared by the two handler variants |
| tracing.dfy | Tracing | the event log, span bracketing (a stack replay), counting lemmas |
| zip_pattern.dfy | ZipPattern | the regular expression `^[0-9]{n}$` (RE2's `\d` is the same ASCII class) |
| units.dfy | Units | Fahrenheit and the two Kelvin conversions |
| ports.dfy | Ports | the listen-port default and leading-colon rule |
| orchestration.dfy | Orchestration | service-b-orchestration/cmd/main.go handler |
| service_b.dfy | ServiceB | service-b/cmd/main.go handler |
| input_service.dfy | InputService | service-a-input/cmd/main.go handler |
| orchestration_config.dfy | OrchestrationConfig | service-b-orchestration/config/config.go and the port in its `main` |
| service_b_config.dfy | ServiceBConfig | service-b/config/config.go and the port in its `main` |
| variants.dfy | Variants | the two handler variants side by side |

## Model

| member | source | states |
|---|---|---|
| ZipPattern.MatchesDigits | service-a-input/cmd/main.go:71-74 | a string that matches `^[0-9]{n}$` has length n |
| ZipPattern.MatchesDigitsIff | service-a-input/cmd/main.go:71-74 | the pattern matches exactly when the length is n and every character is in '0'..'9' |
| InputService.IsValidZipCodeIff | service-a-input/cmd/main.go:70-74 | `isValidZipCode` holds iff the code is 8 characters, all ASCII digits |
| Units.Fahrenheit | service-b-orchestration/cmd/main.go:166 | F = C·1.8 + 32, stated as its inverse: (F − 32)/1.8 is the Celsius reading |
| Units.KelvinWhole | service-b-orchestration/cmd/main.go:167 | the Kelvin reading K = C + 273 gives back the same Fahrenheit reading through (K − 273)·1.8 + 32 |
| Units.KelvinPrecise | service-b/cmd/main.go:147 | the same relation with the 273.15 offset |
| Units.KelvinOffsetsDiffer | service-b/cmd/main.go:147 | the two variants' Kelvin readings of one Celsius value are always 0.15 apart |
| Ports.EnsureColon | service-b-orchestration/config/config.go:25-26 | the result starts with ':'; a port already starting with ':' is unchanged; otherwise the result is ':' followed by the port |
| Ports.NormalizedPortHasColon | service-b-orchestration/config/config.go:23-27 | with a default that starts with ':', the normalized port always starts with ':' |
| Ports.NormalizedPortIdempotent | service-b-orchestration/config/config.go:25 | normalizing a normalized port changes nothing |
| Ports.NormalizedPortKeepsDigits | service-b-orchestration/config/config.go:25-26 | a non-empty port without a leading ':' becomes ':' followed by the port as set |
| Orchestration.Orchestrate | service-b-orchestration/cmd/main.go:102-175 | a resolved outcome has a non-empty city, F = C·1.8 + 32 and K = C + 273 |
| Orchestration.Handler | service-b-orchestration/cmd/main.go:90-185 | the answer is the rendered decision table (none after the panic of an unbuilt weather request), and the event log is the trace function, on every exit path |
| Orchestration.TracedCall | service-b-orchestration/cmd/main.go:145-148 | one outbound call: a child span is started in the current context; a built request is sent in the new span's context, gets the provider's answer, and is followed by the span's end; a request that is not built gets no reply and no span end (the nil request panics); the context handed back is the new span's |
| Orchestration.CallsBracketed | service-b-orchestration/cmd/main.go:113-148 | replayed, the calls inside the handler span leave the weather span open exactly when a locality is known and its request is not built, and nothing open otherwise; each call's span ends right after its request |
| Orchestration.CallsRequests | service-b-orchestration/cmd/main.go:110-147 | the requests are none for a bad code, ViaCEP's for a good one, and then WeatherAPI's exactly when a locality was found and its request built |
| Orchestration.CallsStarts | service-b-orchestration/cmd/main.go:113-145 | the ViaCEP span is started once for a valid code and the weather span once when a locality was found, else never |
| Orchestration.CallsEnds | service-b-orchestration/cmd/main.go:116-148 | the ViaCEP span is ended once for a valid code, and the weather span once when its request was sent, else never |
| Orchestration.TraceBracketed | service-b-orchestration/cmd/main.go:93-148 | the log is well bracketed iff the weather request is built whenever a locality is known, and every request is followed by its span's end |
| Orchestration.TraceShape | service-b-orchestration/cmd/main.go:93-148 | the log is well bracketed iff no weather request failed to build; every call span ends right after its request; the requests are none / ViaCEP / ViaCEP then WeatherAPI; each span is started once per stage reached and ended once per request sent, the handler span always |
| Orchestration.SpansClosedOnce | service-b-orchestration/cmd/main.go:94-95 | the handler span is started and ended exactly once on every path, a panic included; the ViaCEP span once for a valid code; the weather span is started once when a locality is known and ended once when its request was sent; the log is well bracketed iff the weather span is ended as often as started, and then every span name is |
| Orchestration.InvalidZipMakesNoCall | service-b-orchestration/cmd/main.go:103-107 | a code that is not 8 ASCII digits gets 422 "invalid zipcode" and no request is made |
| Orchestration.GeocodeFailureMakesNoWeatherCall | service-b-orchestration/cmd/main.go:115-131 | a ViaCEP transport error or an undecodable body gets 500 with its own line, and only ViaCEP was asked |
| Orchestration.GeocodeMissIsNotFound | service-b-orchestration/cmd/main.go:132-136 | a decoded body is a miss iff erro is set or the locality is empty; a miss gets 404 "can not find zipcode" whatever ViaCEP's status, and WeatherAPI is not asked |
| Orchestration.WeatherCallOnlyAfterGeocode | service-b-orchestration/cmd/main.go:140-147 | the weather request is sent iff ViaCEP gave a locality and its URL `http://api.weatherapi.com/v1/current.json?key=<key>&q=<QueryEscape(locality)>` is accepted, and it is that URL |
| Orchestration.UnbuiltWeatherRequestPanics | service-b-orchestration/cmd/main.go:145-148 | a weather URL that NewRequestWithContext refuses aborts the request: no answer, only the ViaCEP request sent, the weather span started and never ended, the handler span still ended, and the log not well bracketed |
| Orchestration.WeatherFailureAfterGeocode | service-b-orchestration/cmd/main.go:147-163 | a weather transport or decode failure means a locality was found and the weather request was sent; the answer is a 500, and both requests were made |
| Orchestration.WeatherFailureIsServerError | service-b-orchestration/cmd/main.go:150-163 | after a locality and a sent weather request, a transport failure is 500 "error fetching from WeatherAPI" and an undecodable body 500 "error unmarshalling WeatherAPI response", with both requests made |
| Orchestration.SuccessCarriesAllFields | service-b-orchestration/cmd/main.go:165-185 | on success the answer is 200 carrying the locality unmodified, C as sent, C·1.8 + 32 and C + 273 |
| Orchestration.StatusClassifiesOutcome | service-b-orchestration/cmd/main.go:103-185 | there is no answer exactly after a panic; otherwise the status tells the outcome classes apart (200, 422, 404, 500), and only success gets a JSON body |
| Orchestration.SaoPauloAt25 | service-b-orchestration/cmd/main_test.go:54-59 | São Paulo at 25 °C comes out as 77 °F and 298 K |
| ServiceB.Classify | service-b/cmd/main.go:89-154 | a request never aborts: a weather URL `http.Get` cannot make a request of is a weather transport failure; a resolved outcome has F = C·1.8 + 32 and K = C + 273.15 |
| ServiceB.Handler | service-b/cmd/main.go:83-164 | the answer is the rendered decision table and the requests made are the trace function, on every exit path |
| ServiceB.RequestsMade | service-b/cmd/main.go:96-129 | no request for a bad code; then `https://viacep.com.br/ws/<cep>/json/`; then `http://api.weatherapi.com/v1/current.json?key=<key>&q=<locality>`, with the locality unescaped, exactly when a locality is known and `http.Get` can make a request of that URL |
| ServiceB.InvalidZipMakesNoCall | service-b/cmd/main.go:90-94 | a code failing `^\d{8}$` gets 422 "invalid zipcode" and no request |
| ServiceB.GeocodeFailures | service-b/cmd/main.go:98-124 | a transport error is 500, a 404 status is 404 before the body is decoded, an undecodable body is 500, and an empty locality is (iff) a 404, all with "can not find zipcode"; no weather request follows |
| ServiceB.ErroFlagIgnored | service-b/cmd/main.go:120 | flipping ViaCEP's erro flag never changes the geocode verdict |
| ServiceB.WeatherFailureIsServerError | service-b/cmd/main.go:128-143 | after a locality, a weather URL `http.Get` cannot make a request of, a transport error and an undecodable body are each 500 "can not find temperature"; the weather request was sent iff its URL was built |
| ServiceB.SuccessAnswer | service-b/cmd/main.go:145-163 | on success the answer is 200 `{C, C·1.8 + 32, C + 273.15}` with no city |
| InputService.Handler | service-a-input/cmd/main.go:77-147 | the answer is the rendered verdict table, and the event log is the trace function, on every exit path |
| InputService.CallServiceB | service-a-input/cmd/main.go:111-131 | the call is attempted iff the request can be built, and then gets service B's answer; the events are the call span around the request and the recorded error of a failed build or call |
| InputService.Forward | service-a-input/cmd/main.go:104-146 | for a valid code the answer is the rendered forwarding verdict, and the events are the call span followed by a recorded read error when the body cannot be read |
| InputService.ForwardEventsShape | service-a-input/cmd/main.go:111-139 | after validation the only span is the call span, started and ended once, and the only request is the forwarded one when it could be built |
| InputService.RejectedEventsShape | service-a-input/cmd/main.go:82-100 | a request that is not forwarded opens no span inside the handler span and makes no request |
| InputService.ForwardedEventsShape | service-a-input/cmd/main.go:102-131 | a forwarded request first sets validation.status=success on the handler span, then is well bracketed with the call span started and ended once, and the only request is the forwarded one when it could be built |
| InputService.TraceShape | service-a-input/cmd/main.go:79-131 | the log is well bracketed; the handler span once, the call span once iff the code passed validation; the only request is `<base>/<cep>` when the request could be built |
| InputService.NonPostRejectedFirst | service-a-input/cmd/main.go:82-85 | a method other than POST gets 405 "apenas POST é permitido" and the same answer and trace whatever the body, with no request |
| InputService.UndecodableBodyIsBadRequest | service-a-input/cmd/main.go:88-93 | an undecodable body gets 400, the handler span gets the error and the error.message attribute "falha ao decodificar o body da requisição", and no request is made |
| InputService.InvalidZipNotForwarded | service-a-input/cmd/main.go:96-100 | an invalid code gets 422 "invalid zipcode", the span is marked validation.status=failed, and no request is made |
| InputService.ValidZipForwarded | service-a-input/cmd/main.go:102-113 | a valid code marks validation.status=success and, when the request can be built, requests `<SERVICE_B_URL or http://localhost:8081>/<cep>`, the request carrying the handler span's context |
| InputService.SpansClosedOnce | service-a-input/cmd/main.go:111-131 | the handler span and, when the code is valid, the call span are each started and ended exactly once on every path, and every span name is ended as often as it is started |
| InputService.ForwardingOutcomes | service-a-input/cmd/main.go:113-146 | a request that cannot be built, a failed call and an unreadable answer are each 500, with "falha ao criar a requisição para o Serviço B", "falha ao chamar o Serviço B" and "falha ao ler a resposta do Serviço B"; a read answer is passed on with its status and body unchanged |
| OrchestrationConfig.LoadConfig | service-b-orchestration/config/config.go:13-30 | fails, with its message, iff WEATHER_API_KEY is empty; otherwise the key is kept as read and the port is SERVER_PORT normalized with default ":8081", starting with ':' |
| OrchestrationConfig.ListenAddress | service-b-orchestration/cmd/main.go:216-222 | the listen address starts with ':' and equals the port LoadConfig derives from the same SERVER_PORT |
| ServiceBConfig.WeatherApiKey | service-b/config/config.go:68-92 | a key is fetched iff the client is available, GOOGLE_CLOUD_PROJECT is set and the secret `projects/<id>/secrets/WEATHER_API_KEY/versions/latest` can be read, and it is that secret's payload; an empty project always fails |
| ServiceBConfig.LoadConfig | service-b/config/config.go:48-64 | the secret is fetched iff the configured key is empty; a configured key is kept; a failed fetch is an error wrapping the fetch error; otherwise the key is the fetched one; the port is normalized with default ":8080" and starts with ':' |
| ServiceBConfig.ListenAddress | service-b/cmd/main.go:184-191 | the address is PORT when set, otherwise the configured port, with a ':' added when missing; it starts with ':' and a configured port already normalized is kept as is |
| ServiceBConfig.EmptySecretAccepted | service-b/config/config.go:86-91 | an empty secret payload is accepted as the key |
| Variants.SameViaCepUrl | service-b/cmd/main.go:97 | both variants ask ViaCEP the same URL for a code |
| Variants.WeatherUrlsAgreeIff | service-b/cmd/main.go:128 | the two variants' weather URLs agree iff escaping leaves the locality unchanged |
| Variants.SameWeatherSameReadings | service-b/cmd/main.go:145-154 | when WeatherAPI gives the same answer to either variant's URL (escaped locality or not), both variants succeed with the same C and F, and the Kelvin readings differ by 0.15 |
| Variants.ErroFlagOnlyInOrchestration | service-b-orchestration/cmd/main.go:132 | a body with a locality and erro set is a miss in the orchestration variant and a hit in the earlier one |
| Variants.NotFoundStatusOnlyInServiceB | service-b/cmd/main.go:107-111 | ViaCEP's 404 status decides the earlier variant; the orchestration variant goes on to the body |
| Variants.GeocodeTransportBodiesDiffer | service-b/cmd/main.go:99-102 | a ViaCEP transport failure is 500 in both variants, with "error fetching from ViaCEP" in one and "can not find zipcode" in the other |

## Left out

- HTTP headers (`Content-Type`) are not modelled. The answer is a status and a body only, and `http.Error`'s body is the message plus a newline.
- JSON decoding and encoding are library behaviour. A decode is either a decoded value or undecodable. The encode-error log after the 200 status (service-b-orchestration/cmd/main.go:182-184, service-b/cmd/main.go:161-163) and service-a's failed `w.Write` (service-a-input/cmd/main.go:144-146) only write to the log.
- For fields missing from a JSON body, Go's zero values are not separated out: a decoded body carries whatever locality and temperature it decodes to.
- `io.ReadAll` errors are discarded in both service-b handlers (`body, _ :=`). The decode then sees the bytes read so far, and the model has only its verdict: decoded or undecodable.
- The orchestration handler discards the errors of `http.NewRequestWithContext` (service-b-orchestration/cmd/main.go:114 and 146). The ViaCEP request is modelled as always built, because its URL is a constant around eight ASCII digits. The weather URL carries the configured key, so its request is modelled as possibly not built (a key with a control character, for example). `Do(nil)` then panics: the model has that path, with no answer and the weather span never ended.
- Orchestration.Handler and ServiceB.Handler require the path to start with '/', as net/http's server makes it for every request it routes. The model does not cover `r.URL.Path[1:]` on an empty path.
- After that panic, net/http's recovery (its log line and the dropped connection) is modelled only as the absence of an answer.
- `resp.Body.Close`, `r.Body.Close` and the Secret Manager `client.Close` are resource releases with no effect on the answer.
- `url.QueryEscape` is a parameter. Its internals are not modelled.
- Temperatures are exact reals: IEEE-754 rounding of `tempC*1.8 + 32` is not modelled.
- ServiceBConfig.LoadConfig: viper, `.env` file reading and their errors ("could not read .env file", "failed to parse config") are not modelled. The loader starts from the two settings viper produced.
- ServiceBConfig.WeatherApiKey: the Secret Manager client is a parameter. Its connection, request and context handling are not modelled.
- The favicon route of service-b's `main` (a plain `http.NotFound`) is not modelled.
- Server startup, goroutines, signal handling, graceful shutdown and `initTracerProvider` in each `main` are concurrency, I/O and library setup, so they are not modelled. Span effects appear only as ghost events.
- `log.Printf` output is not modelled.
- The orchestration test file overrides `viaCepURL` and `getWeatherURL`, which the handler does not declare, and it POSTs a body while the handler reads the path. Only the test's expected values are used (`Orchestration.SaoPauloAt25`).
- The Kelvin offsets (273 in service-b-orchestration, 273.15 in service-b) are modelled as each file writes them, not reconciled.
- Span context follows the handler code. In the orchestration handler the weather span is started from the context returned with the ViaCEP span (lines 113 and 145), so its parent is the ViaCEP span. In service-a the call span's context is discarded (line 111), so the forwarded request carries the handler span's context.
