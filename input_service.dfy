/** The entry handler of service-a-input: accept a POST whose JSON body is {"cep": ...},
    validate the code, and forward it to the orchestration service, answering with that
    service's status and body unchanged. The handler runs in a span of its own; the call
    to the orchestration service runs in a child span that is ended on every path. */
module InputService {
  import opened Http
  import opened Providers
  import opened Tracing
  import ZipPattern

  /** `ZipCode`: the decoded request body. */
  datatype ZipCodeBody = ZipCodeBody(cep: string)

  /** What the handler is given: r.Method, and json.Decoder's verdict on the body. */
  datatype Inbound = Inbound(verb: string, body: Payload<ZipCodeBody>)

  datatype BodyRead = ReadFailed | Read(content: string)

  /** What client.Do returns: an error, or a status and the outcome of io.ReadAll. */
  datatype Downstream = Unreachable | Answered(statusCode: int, body: BodyRead)

  /** How one request ends. */
  datatype Verdict =
    | MethodNotAllowed
    | BadBody
    | InvalidZip
    | RequestNotBuilt
    | CallFailed
    | ReadFailure
    | Forwarded(statusCode: int, content: string)

  const HandlerSpan := "service-a-handler"
  const CallSpan := "call-service-b"
  const DefaultServiceBUrl := "http://localhost:8081"

  const MethodMessage := "apenas POST é permitido"
  const DecodeMessage := "falha ao decodificar o body da requisição"
  const InvalidZipMessage := "invalid zipcode"
  const BuildMessage := "falha ao criar a requisição para o Serviço B"
  const CallMessage := "falha ao chamar o Serviço B"
  const ReadMessage := "falha ao ler a resposta do Serviço B"

  /** `isValidZipCode`: the pattern ^[0-9]{8}$. */
  predicate IsValidZipCode(cep: string)
  {
    ZipPattern.MatchesDigits(cep, 8)
  }

  /** A code is valid exactly when it is 8 characters long and each is an ASCII digit. */
  lemma IsValidZipCodeIff(cep: string)
    ensures IsValidZipCode(cep) <==> |cep| == 8 && forall i :: 0 <= i < |cep| ==> '0' <= cep[i] <= '9'
  {
    ZipPattern.MatchesDigitsIff(cep, 8);
  }

  /** SERVICE_B_URL, or the local default when it is unset or empty. */
  function ServiceBUrl(serviceBUrlEnv: string): string
  {
    if serviceBUrlEnv == "" then DefaultServiceBUrl else serviceBUrlEnv
  }

  /** The URL the code is forwarded to: fmt.Sprintf("%s/%s", base, cep). */
  function ForwardUrl(serviceBUrlEnv: string, cep: string): string
  {
    ServiceBUrl(serviceBUrlEnv) + "/" + cep
  }

  /** The verdict on one request. `builds` says whether http.NewRequestWithContext accepts a
      URL; `serviceB` is what the instrumented client gets for it. */
  function Route(req: Inbound, serviceBUrlEnv: string, builds: string -> bool,
                 serviceB: string -> Downstream): Verdict
  {
    if req.verb != "POST" then MethodNotAllowed
    else
      match req.body
      case Undecodable => BadBody
      case Decoded(z) =>
        if !IsValidZipCode(z.cep) then InvalidZip
        else
          Forwarding(ForwardUrl(serviceBUrlEnv, z.cep), builds, serviceB)
  }

  /** The verdict once the code is valid and `url` is the one to call. */
  function Forwarding(url: string, builds: string -> bool, serviceB: string -> Downstream): Verdict
  {
    if !builds(url) then RequestNotBuilt
    else
      match serviceB(url)
      case Unreachable => CallFailed
      case Answered(_, ReadFailed) => ReadFailure
      case Answered(status, Read(content)) => Forwarded(status, content)
  }

  function Render(v: Verdict): Response<()>
  {
    match v
    case MethodNotAllowed => Error(MethodMessage, StatusMethodNotAllowed)
    case BadBody => Error(DecodeMessage, StatusBadRequest)
    case InvalidZip => Error(InvalidZipMessage, StatusUnprocessableEntity)
    case RequestNotBuilt => Error(BuildMessage, StatusInternalServerError)
    case CallFailed => Error(CallMessage, StatusInternalServerError)
    case ReadFailure => Error(ReadMessage, StatusInternalServerError)
    case Forwarded(status, content) => Response(status, Plain(content))
  }

  /** What happens inside the call span: the request, if it can be built, and the error
      of a failed call or of a request that could not be built. */
  function CallEvents(url: string, builds: string -> bool, serviceB: string -> Downstream): seq<Event>
  {
    if !builds(url) then [RecordError(CallSpan)]
    else [Request(url, ChildOf(HandlerSpan))] + if serviceB(url).Unreachable? then [RecordError(CallSpan)] else []
  }

  /** After the call span: the handler span records a failure to read the answer. */
  function AfterCall(url: string, builds: string -> bool, serviceB: string -> Downstream): seq<Event>
  {
    if builds(url) && serviceB(url).Answered? && serviceB(url).body.ReadFailed? then [RecordError(HandlerSpan)] else []
  }

  /** The call span around the call, then what the handler span records after it. */
  function ForwardEvents(url: string, builds: string -> bool, serviceB: string -> Downstream): seq<Event>
  {
    Within(CallSpan, ChildOf(HandlerSpan), CallEvents(url, builds, serviceB)) + AfterCall(url, builds, serviceB)
  }

  /** What happens inside the handler span. The forwarded request carries the handler
      span's context: the context returned with the call span is discarded. */
  function HandlerEvents(req: Inbound, serviceBUrlEnv: string, builds: string -> bool,
                         serviceB: string -> Downstream): seq<Event>
  {
    if req.verb != "POST" then []
    else
      match req.body
      case Undecodable => [RecordError(HandlerSpan), SetAttribute(HandlerSpan, "error.message", DecodeMessage)]
      case Decoded(z) =>
        if !IsValidZipCode(z.cep) then [SetAttribute(HandlerSpan, "validation.status", "failed")]
        else
          [SetAttribute(HandlerSpan, "validation.status", "success")]
          + ForwardEvents(ForwardUrl(serviceBUrlEnv, z.cep), builds, serviceB)
  }

  /** The span events and requests of one request. */
  function Trace(req: Inbound, serviceBUrlEnv: string, builds: string -> bool,
                 serviceB: string -> Downstream): seq<Event>
  {
    Within(HandlerSpan, RequestCtx, HandlerEvents(req, serviceBUrlEnv, builds, serviceB))
  }

  /** How the call to service B went: the request could not be built, or it was sent and
      this came back. */
  datatype Attempt = NotBuilt | Attempted(answer: Downstream)

  /** The call span (lines 111-131): start it, build the request and send it, record an
      error on the span when either fails, and end the span once the call has returned. */
  method CallServiceB(url: string, builds: string -> bool, serviceB: string -> Downstream)
    returns (attempt: Attempt, ghost events: seq<Event>)
    ensures attempt == if builds(url) then Attempted(serviceB(url)) else NotBuilt
    ensures events == Within(CallSpan, ChildOf(HandlerSpan), CallEvents(url, builds, serviceB))
  {
    events := [SpanStart(CallSpan, ChildOf(HandlerSpan))];
    if !builds(url) {
      events := events + [RecordError(CallSpan), SpanEnd(CallSpan)];
      return NotBuilt, events;
    }
    var answer := serviceB(url);
    events := events + [Request(url, ChildOf(HandlerSpan))];
    if answer.Unreachable? {
      events := events + [RecordError(CallSpan), SpanEnd(CallSpan)];
      return Attempted(answer), events;
    }
    events := events + [SpanEnd(CallSpan)];
    return Attempted(answer), events;
  }

  /** Lines 104-146 once the code is valid: the call span, then reading the answer and
      passing it on. */
  method Forward(url: string, builds: string -> bool, serviceB: string -> Downstream)
    returns (resp: Response<()>, ghost events: seq<Event>)
    ensures resp == Render(Forwarding(url, builds, serviceB))
    ensures events == ForwardEvents(url, builds, serviceB)
  {
    var attempt;
    attempt, events := CallServiceB(url, builds, serviceB);
    if attempt.NotBuilt? {
      return Error(BuildMessage, StatusInternalServerError), events;
    }
    if attempt.answer.Unreachable? {
      return Error(CallMessage, StatusInternalServerError), events;
    }
    if attempt.answer.body.ReadFailed? {
      events := events + [RecordError(HandlerSpan)];
      return Error(ReadMessage, StatusInternalServerError), events;
    }
    resp := Response(attempt.answer.statusCode, Plain(attempt.answer.body.content));
  }

  /** `handler`. */
  method Handler(req: Inbound, serviceBUrlEnv: string, builds: string -> bool,
                 serviceB: string -> Downstream)
    returns (resp: Response<()>, ghost trace: seq<Event>)
    ensures resp == Render(Route(req, serviceBUrlEnv, builds, serviceB))
    ensures trace == Trace(req, serviceBUrlEnv, builds, serviceB)
  {
    trace := [SpanStart(HandlerSpan, RequestCtx)];
    label handled: {
      if req.verb != "POST" {
        resp := Error(MethodMessage, StatusMethodNotAllowed);
        break handled;
      }
      if req.body.Undecodable? {
        trace := trace + [RecordError(HandlerSpan), SetAttribute(HandlerSpan, "error.message", DecodeMessage)];
        resp := Error(DecodeMessage, StatusBadRequest);
        break handled;
      }
      var zipCode := req.body.value;
      if !IsValidZipCode(zipCode.cep) {
        trace := trace + [SetAttribute(HandlerSpan, "validation.status", "failed")];
        resp := Error(InvalidZipMessage, StatusUnprocessableEntity);
        break handled;
      }
      trace := trace + [SetAttribute(HandlerSpan, "validation.status", "success")];
      var serviceBUrl := serviceBUrlEnv;
      if serviceBUrl == "" {
        serviceBUrl := DefaultServiceBUrl;
      }
      var url := serviceBUrl + "/" + zipCode.cep;
      assert url == ForwardUrl(serviceBUrlEnv, zipCode.cep);
      ghost var events;
      resp, events := Forward(url, builds, serviceB);
      trace := trace + events;
    }
    assert trace == [SpanStart(HandlerSpan, RequestCtx)] + HandlerEvents(req, serviceBUrlEnv, builds, serviceB);
    trace := trace + [SpanEnd(HandlerSpan)];  // the deferred span.End()
  }

  lemma ErrorLines()
    ensures MethodMessage + "\n" == "apenas POST é permitido\n"
    ensures DecodeMessage + "\n" == "falha ao decodificar o body da requisição\n"
    ensures InvalidZipMessage + "\n" == "invalid zipcode\n"
    ensures BuildMessage + "\n" == "falha ao criar a requisição para o Serviço B\n"
    ensures CallMessage + "\n" == "falha ao chamar o Serviço B\n"
    ensures ReadMessage + "\n" == "falha ao ler a resposta do Serviço B\n"
  {
  }

  /** The code of a request that gets as far as validation and passes it. */
  predicate Forwards(req: Inbound)
  {
    req.verb == "POST" && req.body.Decoded? && IsValidZipCode(req.body.value.cep)
  }

  lemma CallEventsShape(url: string, builds: string -> bool, serviceB: string -> Downstream, name: string)
    ensures var e := CallEvents(url, builds, serviceB);
      && WellBracketed(e)
      && Starts(e, name) == 0 && Ends(e, name) == 0
      && Requests(e) == (if builds(url) then [url] else [])
  {
    var e := CallEvents(url, builds, serviceB);
    SpanFree(e, [], name);
    if builds(url) {
      var first: seq<Event> := [Request(url, ChildOf(HandlerSpan))];
      var rest: seq<Event> := if serviceB(url).Unreachable? then [RecordError(CallSpan)] else [];
      assert first[1..] == [] && (rest == [] || rest[1..] == []);
      CountsAppend(first, rest, name);
    } else {
      assert e[1..] == [];
    }
  }

  /** The call span and what follows it: the call span is the only span, and the only
      request is the forwarded one when it could be built. */
  lemma ForwardEventsShape(url: string, builds: string -> bool, serviceB: string -> Downstream, name: string)
    ensures var e := ForwardEvents(url, builds, serviceB);
      && WellBracketed(e)
      && Starts(e, name) == Ends(e, name) == (if name == CallSpan then 1 else 0)
      && Requests(e) == (if builds(url) then [url] else [])
  {
    var body := CallEvents(url, builds, serviceB);
    var tail := AfterCall(url, builds, serviceB);
    var span := Within(CallSpan, ChildOf(HandlerSpan), body);
    assert tail == [] || tail[1..] == [];
    CallEventsShape(url, builds, serviceB, name);
    SpanFree(tail, [], name);
    WithinBracketed(CallSpan, ChildOf(HandlerSpan), body);
    WithinCounts(CallSpan, ChildOf(HandlerSpan), body, name);
    ConcatBracketed(span, tail);
    CountsAppend(span, tail, name);
  }

  /** A request that is not forwarded leaves no span and no request inside the handler span. */
  lemma RejectedEventsShape(req: Inbound, serviceBUrlEnv: string, builds: string -> bool,
                            serviceB: string -> Downstream, name: string)
    requires !Forwards(req)
    ensures var e := HandlerEvents(req, serviceBUrlEnv, builds, serviceB);
      WellBracketed(e) && Starts(e, name) == 0 && Ends(e, name) == 0 && Requests(e) == []
  {
    var e := HandlerEvents(req, serviceBUrlEnv, builds, serviceB);
    SpanFree(e, [], name);
    if req.verb == "POST" && req.body.Undecodable? {
      var first: seq<Event> := [RecordError(HandlerSpan)];
      var second: seq<Event> := [SetAttribute(HandlerSpan, "error.message", DecodeMessage)];
      assert e == first + second && first[1..] == [] && second[1..] == [];
      RequestsAppend(first, second);
    } else if req.verb == "POST" {
      assert e[1..] == [];
    }
  }

  lemma ForwardedEventsShape(req: Inbound, serviceBUrlEnv: string, builds: string -> bool,
                             serviceB: string -> Downstream, name: string)
    requires Forwards(req)
    ensures var e := HandlerEvents(req, serviceBUrlEnv, builds, serviceB);
      var url := ForwardUrl(serviceBUrlEnv, req.body.value.cep);
      && e[0] == SetAttribute(HandlerSpan, "validation.status", "success")
      && WellBracketed(e)
      && Starts(e, name) == Ends(e, name) == (if name == CallSpan then 1 else 0)
      && Requests(e) == (if builds(url) then [url] else [])
  {
    var url := ForwardUrl(serviceBUrlEnv, req.body.value.cep);
    var head: seq<Event> := [SetAttribute(HandlerSpan, "validation.status", "success")];
    var rest := ForwardEvents(url, builds, serviceB);
    assert HandlerEvents(req, serviceBUrlEnv, builds, serviceB) == head + rest;
    assert head[1..] == [];
    SpanFree(head, [], name);
    ForwardEventsShape(url, builds, serviceB, name);
    ConcatBracketed(head, rest);
    CountsAppend(head, rest, name);
  }

  lemma HandlerEventsShape(req: Inbound, serviceBUrlEnv: string, builds: string -> bool,
                           serviceB: string -> Downstream, name: string)
    ensures var e := HandlerEvents(req, serviceBUrlEnv, builds, serviceB);
      && WellBracketed(e)
      && Starts(e, name) == Ends(e, name) == (if name == CallSpan && Forwards(req) then 1 else 0)
      && Requests(e) == (if Forwards(req) && builds(ForwardUrl(serviceBUrlEnv, req.body.value.cep))
                         then [ForwardUrl(serviceBUrlEnv, req.body.value.cep)] else [])
  {
    if Forwards(req) {
      ForwardedEventsShape(req, serviceBUrlEnv, builds, serviceB, name);
    } else {
      RejectedEventsShape(req, serviceBUrlEnv, builds, serviceB, name);
    }
  }

  /** The span counts and requests of one request, read off its trace. */
  lemma TraceShape(req: Inbound, serviceBUrlEnv: string, builds: string -> bool,
                   serviceB: string -> Downstream, name: string)
    ensures var t := Trace(req, serviceBUrlEnv, builds, serviceB);
      && WellBracketed(t)
      && Starts(t, name) == Ends(t, name)
      && Starts(t, name) == (if name == HandlerSpan then 1 else 0)
                            + (if name == CallSpan && Forwards(req) then 1 else 0)
      && Requests(t) == (if Forwards(req) && builds(ForwardUrl(serviceBUrlEnv, req.body.value.cep))
                         then [ForwardUrl(serviceBUrlEnv, req.body.value.cep)] else [])
  {
    var inner := HandlerEvents(req, serviceBUrlEnv, builds, serviceB);
    HandlerEventsShape(req, serviceBUrlEnv, builds, serviceB, name);
    WithinBracketed(HandlerSpan, RequestCtx, inner);
    WithinCounts(HandlerSpan, RequestCtx, inner, name);
  }

  /** A method other than POST is answered 405 before the body is looked at: the answer and
      the trace are the same whatever the body. */
  lemma NonPostRejectedFirst(verb: string, body: Payload<ZipCodeBody>, other: Payload<ZipCodeBody>,
                             serviceBUrlEnv: string, builds: string -> bool, serviceB: string -> Downstream)
    requires verb != "POST"
    ensures Render(Route(Inbound(verb, body), serviceBUrlEnv, builds, serviceB))
              == Response(405, Plain("apenas POST é permitido\n"))
    ensures Route(Inbound(verb, body), serviceBUrlEnv, builds, serviceB)
              == Route(Inbound(verb, other), serviceBUrlEnv, builds, serviceB)
    ensures Trace(Inbound(verb, body), serviceBUrlEnv, builds, serviceB)
              == Trace(Inbound(verb, other), serviceBUrlEnv, builds, serviceB)
    ensures Requests(Trace(Inbound(verb, body), serviceBUrlEnv, builds, serviceB)) == []
  {
    ErrorLines();
    TraceShape(Inbound(verb, body), serviceBUrlEnv, builds, serviceB, HandlerSpan);
  }

  /** A body that does not decode is answered 400, with the error recorded on the span and
      the decode message set as its error.message attribute, and nothing is forwarded. */
  lemma UndecodableBodyIsBadRequest(serviceBUrlEnv: string, builds: string -> bool, serviceB: string -> Downstream)
    ensures var req := Inbound("POST", Undecodable);
      && Render(Route(req, serviceBUrlEnv, builds, serviceB))
           == Response(400, Plain("falha ao decodificar o body da requisição\n"))
      && RecordError(HandlerSpan) in Trace(req, serviceBUrlEnv, builds, serviceB)
      && SetAttribute(HandlerSpan, "error.message", "falha ao decodificar o body da requisição")
           in Trace(req, serviceBUrlEnv, builds, serviceB)
      && Requests(Trace(req, serviceBUrlEnv, builds, serviceB)) == []
  {
    ErrorLines();
    var req := Inbound("POST", Undecodable);
    TraceShape(req, serviceBUrlEnv, builds, serviceB, HandlerSpan);
    assert Trace(req, serviceBUrlEnv, builds, serviceB)[1] == RecordError(HandlerSpan);
    assert Trace(req, serviceBUrlEnv, builds, serviceB)[2] == SetAttribute(HandlerSpan, "error.message", DecodeMessage);
  }

  /** An invalid code is answered 422 "invalid zipcode", the handler span is marked
      validation.status=failed, and nothing is forwarded. */
  lemma InvalidZipNotForwarded(cep: string, serviceBUrlEnv: string, builds: string -> bool,
                               serviceB: string -> Downstream)
    requires !IsValidZipCode(cep)
    ensures var req := Inbound("POST", Decoded(ZipCodeBody(cep)));
      && Render(Route(req, serviceBUrlEnv, builds, serviceB)) == Response(422, Plain("invalid zipcode\n"))
      && SetAttribute(HandlerSpan, "validation.status", "failed") in Trace(req, serviceBUrlEnv, builds, serviceB)
      && Requests(Trace(req, serviceBUrlEnv, builds, serviceB)) == []
  {
    ErrorLines();
    var req := Inbound("POST", Decoded(ZipCodeBody(cep)));
    TraceShape(req, serviceBUrlEnv, builds, serviceB, HandlerSpan);
    assert Trace(req, serviceBUrlEnv, builds, serviceB)[1] == SetAttribute(HandlerSpan, "validation.status", "failed");
  }

  /** A valid code marks the span validation.status=success and is sent, if the request can
      be built, to SERVICE_B_URL (or http://localhost:8081) followed by "/" and the code; the
      request carries the handler span's context, not the call span's. */
  lemma ValidZipForwarded(cep: string, serviceBUrlEnv: string, builds: string -> bool,
                          serviceB: string -> Downstream)
    requires IsValidZipCode(cep)
    ensures var req := Inbound("POST", Decoded(ZipCodeBody(cep)));
      var url := (if serviceBUrlEnv == "" then "http://localhost:8081" else serviceBUrlEnv) + "/" + cep;
      && SetAttribute(HandlerSpan, "validation.status", "success") in Trace(req, serviceBUrlEnv, builds, serviceB)
      && Requests(Trace(req, serviceBUrlEnv, builds, serviceB)) == (if builds(url) then [url] else [])
      && (builds(url) ==> Request(url, ChildOf(HandlerSpan)) in Trace(req, serviceBUrlEnv, builds, serviceB))
  {
    var req := Inbound("POST", Decoded(ZipCodeBody(cep)));
    var url := ForwardUrl(serviceBUrlEnv, cep);
    TraceShape(req, serviceBUrlEnv, builds, serviceB, HandlerSpan);
    assert Trace(req, serviceBUrlEnv, builds, serviceB)[1] == SetAttribute(HandlerSpan, "validation.status", "success");
    if builds(url) {
      assert Trace(req, serviceBUrlEnv, builds, serviceB)[3] == Request(url, ChildOf(HandlerSpan));
    }
  }

  /** On every path the handler span is ended exactly once, and the call span is started
      and ended exactly once when the code was valid and never otherwise. */
  lemma SpansClosedOnce(req: Inbound, serviceBUrlEnv: string, builds: string -> bool,
                        serviceB: string -> Downstream)
    ensures var t := Trace(req, serviceBUrlEnv, builds, serviceB);
      && WellBracketed(t)
      && Starts(t, HandlerSpan) == 1 && Ends(t, HandlerSpan) == 1
      && Starts(t, CallSpan) == Ends(t, CallSpan) == (if Forwards(req) then 1 else 0)
      && forall name :: Starts(t, name) == Ends(t, name)
  {
    var t := Trace(req, serviceBUrlEnv, builds, serviceB);
    TraceShape(req, serviceBUrlEnv, builds, serviceB, HandlerSpan);
    TraceShape(req, serviceBUrlEnv, builds, serviceB, CallSpan);
    forall name
      ensures Starts(t, name) == Ends(t, name)
    {
      StartsMatchEnds(t, name);
    }
  }

  /** Once the code is valid: a request that cannot be built, a failed call and an
      unreadable answer are each a 500; an answer that is read is passed on unchanged, its
      status and its body. */
  lemma ForwardingOutcomes(cep: string, serviceBUrlEnv: string, builds: string -> bool,
                           serviceB: string -> Downstream)
    requires IsValidZipCode(cep)
    ensures var url := ForwardUrl(serviceBUrlEnv, cep);
      var resp := Render(Route(Inbound("POST", Decoded(ZipCodeBody(cep))), serviceBUrlEnv, builds, serviceB));
      && (!builds(url) ==> resp == Response(500, Plain("falha ao criar a requisição para o Serviço B\n")))
      && (builds(url) && serviceB(url).Unreachable? ==>
            resp == Response(500, Plain("falha ao chamar o Serviço B\n")))
      && (builds(url) && serviceB(url).Answered? && serviceB(url).body.ReadFailed? ==>
            resp == Response(500, Plain("falha ao ler a resposta do Serviço B\n")))
      && (builds(url) && serviceB(url).Answered? && serviceB(url).body.Read? ==>
            resp == Response(serviceB(url).statusCode, Plain(serviceB(url).body.content)))
  {
    ErrorLines();
  }
}
