/** The `/eval` HTTP handler of cmd/serve.go (`handleEval`) and the request and response shapes
    it exchanges (`EvalRequest`, `EvalResponse`).

    The response writer is a class whose header map and log of calls the handler changes step by
    step: header sets, status writes and body writes, in the order they are made. Reading the
    body (`io.ReadAll`) is the request's `body` outcome; decoding it (`yaml.Unmarshal`), the text
    form of a value (`fmt.Sprintf("%+v", ...)`) and `json.Marshal` are the oracles of `Codecs`;
    evaluation is the façade of module Evaluation over an abstract CEL engine. */
module Server {
  import opened Wrappers
  import opened Values
  import opened Evaluation

  /** The parts of an `*http.Request` the handler looks at: its method, its `Content-Type`
      header ("" when absent), and the outcome of reading its whole body. */
  datatype Request = Request(httpMethod: string, contentType: string, body: Result<string>)

  /** The decoded request body. */
  datatype EvalRequest = EvalRequest(expression: string, variables: map<string, Value>)

  /** The success payload, a JSON object with the single field `result`. */
  datatype EvalResponse = EvalResponse(result: string)

  /** Decoding a body, rendering a value as text, and encoding the success payload as JSON. */
  datatype Codecs = Codecs(
    unmarshal: string -> Result<EvalRequest>,
    render: Value -> string,
    marshal: EvalResponse -> Result<string>)

  /** One call on the response writer. */
  datatype Event =
    | HeaderSet(name: string, value: string)
    | StatusWritten(code: int)
    | BodyWritten(data: string)

  /** The header map after applying the header sets of `events` to `h`. */
  function Replay(h: map<string, string>, events: seq<Event>): map<string, string>
    decreases |events|
  {
    if events == [] then h
    else Replay(if events[0].HeaderSet? then h[events[0].name := events[0].value] else h, events[1..])
  }

  /** An `http.ResponseWriter` that records what is done to it. */
  class ResponseWriter {
    var header: map<string, string>
    var log: seq<Event>

    constructor ()
      ensures header == map[] && log == []
    {
      header := map[];
      log := [];
    }

    /** `w.Header().Set(name, value)`. */
    method Set(name: string, value: string)
      modifies this
      ensures header == old(header)[name := value]
      ensures log == old(log) + [HeaderSet(name, value)]
    {
      header := header[name := value];
      log := log + [HeaderSet(name, value)];
    }

    /** `w.WriteHeader(code)`. */
    method WriteHeader(code: int)
      modifies this
      ensures header == old(header)
      ensures log == old(log) + [StatusWritten(code)]
    {
      log := log + [StatusWritten(code)];
    }

    /** `w.Write(data)`. */
    method Write(data: string)
      modifies this
      ensures header == old(header)
      ensures log == old(log) + [BodyWritten(data)]
    {
      log := log + [BodyWritten(data)];
    }
  }

  /** What `http.Error(w, msg, code)` does to the writer: mark the body as plain text, forbid
      content sniffing, write the status, then the message and a newline. */
  function ErrorEvents(msg: string, code: int): seq<Event>
  {
    [HeaderSet("Content-Type", "text/plain; charset=utf-8"),
     HeaderSet("X-Content-Type-Options", "nosniff"),
     StatusWritten(code),
     BodyWritten(msg + "\n")]
  }

  lemma {:induction false} ReplayAppend(h: map<string, string>, a: seq<Event>, b: seq<Event>)
    ensures Replay(h, a + b) == Replay(Replay(h, a), b)
    decreases |a|
  {
    if a == [] {
      assert a + b == b;
    } else {
      assert (a + b)[1..] == a[1..] + b;
      ReplayAppend(if a[0].HeaderSet? then h[a[0].name := a[0].value] else h, a[1..], b);
    }
  }

  /** `http.Error`. */
  method HttpError(w: ResponseWriter, msg: string, code: int)
    modifies w
    ensures w.log == old(w.log) + ErrorEvents(msg, code)
    ensures w.header == Replay(old(w.header), ErrorEvents(msg, code))
  {
    ghost var h0 := w.header;
    w.Set("Content-Type", "text/plain; charset=utf-8");
    w.Set("X-Content-Type-Options", "nosniff");
    w.WriteHeader(code);
    w.Write(msg + "\n");
    ghost var ev := ErrorEvents(msg, code);
    ghost var h2 := h0["Content-Type" := "text/plain; charset=utf-8"]["X-Content-Type-Options" := "nosniff"];
    assert ev[1..][1..][1..][1..] == [];
    assert Replay(h2, ev[1..][1..][1..][1..]) == h2;
    assert Replay(h2, ev[1..][1..][1..]) == h2;
    assert Replay(h2, ev[1..][1..]) == h2;
    assert Replay(h0, ev) == Replay(h2, ev[1..][1..]);
  }

  const CorsEvents: seq<Event> := [
    HeaderSet("Access-Control-Allow-Origin", "*"),
    HeaderSet("Access-Control-Allow-Methods", "POST, OPTIONS"),
    HeaderSet("Access-Control-Allow-Headers", "Accept, Content-Type")]

  const UnsupportedMediaTypeMessage: string := "Supported Content-Type values: application/json, application/yaml"
  const MethodNotAllowedMessage: string := "Supported methods: POST"

  predicate SupportedContentType(contentType: string)
  {
    contentType == "application/json" || contentType == "application/yaml"
  }

  /** What the content-type check writes. */
  function ContentTypeEvents(contentType: string): seq<Event>
  {
    if SupportedContentType(contentType) then [] else ErrorEvents(UnsupportedMediaTypeMessage, 415)
  }

  /** What a POST does from the body read on: read, decode, evaluate, encode, each failure
      ending the request with an error response. */
  function PostEvents<Env, Ast, Prog>(body: Result<string>, codecs: Codecs, cel: Engine<Env, Ast, Prog>): seq<Event>
  {
    match body
    case Err(e) => ErrorEvents(e, 400)
    case Ok(text) =>
      match codecs.unmarshal(text)
      case Err(e) => ErrorEvents(e, 400)
      case Ok(request) =>
        match Pipeline(request.expression, request.variables, cel).result
        case Err(e) => ErrorEvents(e, 400)
        case Ok(v) =>
          match codecs.marshal(EvalResponse(codecs.render(v)))
          case Err(e) => ErrorEvents(e, 500)
          case Ok(json) => [BodyWritten(json)]
  }

  /** The calls `handleEval` makes after the CORS headers, given those the POST path makes from
      the body read on. An unsupported content type writes a 415 error and the request goes on
      to the body read all the same. */
  function Dispatch(req: Request, post: seq<Event>): seq<Event>
  {
    if req.httpMethod == "OPTIONS" then [StatusWritten(204)]
    else if req.httpMethod == "POST" then ContentTypeEvents(req.contentType) + post
    else ErrorEvents(MethodNotAllowedMessage, 405)
  }

  /** The calls `handleEval` makes on the response writer. */
  function Handle<Env, Ast, Prog>(req: Request, codecs: Codecs, cel: Engine<Env, Ast, Prog>): seq<Event>
  {
    CorsEvents + Dispatch(req, PostEvents(req.body, codecs, cel))
  }

  /** The POST branch of `handleEval` from the body read on. */
  method HandlePost<Env, Ast, Prog>(w: ResponseWriter, body: Result<string>, codecs: Codecs, cel: Engine<Env, Ast, Prog>)
    modifies w
    ensures w.log == old(w.log) + PostEvents(body, codecs, cel)
    ensures w.header == Replay(old(w.header), PostEvents(body, codecs, cel))
  {
    if body.Err? {
      HttpError(w, body.error, 400);
      return;
    }
    var request := codecs.unmarshal(body.value);
    if request.Err? {
      HttpError(w, request.error, 400);
      return;
    }
    var result := Eval(request.value.expression, request.value.variables, cel);
    if result.Err? {
      HttpError(w, result.error, 400);
      return;
    }
    var json := codecs.marshal(EvalResponse(codecs.render(result.value)));
    if json.Err? {
      HttpError(w, json.error, 500);
      return;
    }
    w.Write(json.value);
    assert [BodyWritten(json.value)][1..] == [];
  }

  /** The three CORS header sets that open `handleEval`. */
  method SetCorsHeaders(w: ResponseWriter)
    modifies w
    ensures w.log == old(w.log) + CorsEvents
    ensures w.header == Replay(old(w.header), CorsEvents)
  {
    ghost var h0 := w.header;
    w.Set("Access-Control-Allow-Origin", "*");
    w.Set("Access-Control-Allow-Methods", "POST, OPTIONS");
    w.Set("Access-Control-Allow-Headers", "Accept, Content-Type");
    assert CorsEvents[1..][1..][1..] == [];
  }

  /** The content-type check of the POST branch: a 415 error for anything but JSON or YAML,
      without ending the request. */
  method CheckContentType(w: ResponseWriter, contentType: string)
    modifies w
    ensures w.log == old(w.log) + ContentTypeEvents(contentType)
    ensures w.header == Replay(old(w.header), ContentTypeEvents(contentType))
  {
    match contentType {
      case "application/json" =>
      case "application/yaml" =>
      case _ =>
        HttpError(w, UnsupportedMediaTypeMessage, 415);
    }
  }

  /** `handleEval`: the CORS headers first, then dispatch on the method. */
  method HandleEval<Env, Ast, Prog>(w: ResponseWriter, req: Request, codecs: Codecs, cel: Engine<Env, Ast, Prog>)
    modifies w
    ensures w.log == old(w.log) + Handle(req, codecs, cel)
    ensures w.header == Replay(old(w.header), Handle(req, codecs, cel))
  {
    ghost var h0, log0 := w.header, w.log;
    ghost var post := PostEvents(req.body, codecs, cel);
    SetCorsHeaders(w);
    ghost var hc := w.header;
    ghost var dispatched: seq<Event>;
    match req.httpMethod {
      case "OPTIONS" =>
        w.WriteHeader(204);
        assert [StatusWritten(204)][1..] == [];
        dispatched := [StatusWritten(204)];
        assert Replay(hc, dispatched) == Replay(hc, []) == hc;
      case "POST" =>
        CheckContentType(w, req.contentType);
        HandlePost(w, req.body, codecs, cel);
        ReplayAppend(hc, ContentTypeEvents(req.contentType), post);
        dispatched := ContentTypeEvents(req.contentType) + post;
      case _ =>
        HttpError(w, MethodNotAllowedMessage, 405);
        dispatched := ErrorEvents(MethodNotAllowedMessage, 405);
    }
    assert dispatched == Dispatch(req, post);
    assert w.header == Replay(hc, dispatched);
    ReplayAppend(h0, CorsEvents, dispatched);
  }

  /** The status codes written, in order. */
  function Statuses(events: seq<Event>): seq<int>
    decreases |events|
  {
    if events == [] then []
    else (if events[0].StatusWritten? then [events[0].code] else []) + Statuses(events[1..])
  }

  /** The body text written, in order. */
  function Body(events: seq<Event>): string
    decreases |events|
  {
    if events == [] then []
    else (if events[0].BodyWritten? then events[0].data else []) + Body(events[1..])
  }

  lemma {:induction false} StatusesAppend(a: seq<Event>, b: seq<Event>)
    ensures Statuses(a + b) == Statuses(a) + Statuses(b)
    decreases |a|
  {
    if a == [] {
      assert a + b == b;
    } else {
      assert (a + b)[1..] == a[1..] + b;
      StatusesAppend(a[1..], b);
    }
  }

  lemma {:induction false} BodyAppend(a: seq<Event>, b: seq<Event>)
    ensures Body(a + b) == Body(a) + Body(b)
    decreases |a|
  {
    if a == [] {
      assert a + b == b;
    } else {
      assert (a + b)[1..] == a[1..] + b;
      BodyAppend(a[1..], b);
    }
  }

  lemma StatusesAndBodyAppend(a: seq<Event>, b: seq<Event>)
    ensures Statuses(a + b) == Statuses(a) + Statuses(b)
    ensures Body(a + b) == Body(a) + Body(b)
  {
    StatusesAppend(a, b);
    BodyAppend(a, b);
  }

  lemma ErrorEventsResponse(msg: string, code: int)
    ensures Statuses(ErrorEvents(msg, code)) == [code]
    ensures Body(ErrorEvents(msg, code)) == msg + "\n"
  {
    var ev := ErrorEvents(msg, code);
    assert ev[1..][1..][1..][1..] == [];
    assert Statuses(ev[1..][1..][1..]) == [] && Body(ev[1..][1..][1..]) == msg + "\n";
    assert Statuses(ev[1..][1..]) == [code] && Body(ev[1..][1..]) == msg + "\n";
  }

  lemma CorsEventsResponse()
    ensures Statuses(CorsEvents) == [] && Body(CorsEvents) == ""
  {
    assert CorsEvents[1..][1..][1..] == [];
    assert Statuses(CorsEvents[1..][1..]) == [] && Body(CorsEvents[1..][1..]) == "";
  }

  /** The header map holds all three CORS headers. */
  ghost predicate HasCorsHeaders(h: map<string, string>)
  {
    && "Access-Control-Allow-Origin" in h && h["Access-Control-Allow-Origin"] == "*"
    && "Access-Control-Allow-Methods" in h && h["Access-Control-Allow-Methods"] == "POST, OPTIONS"
    && "Access-Control-Allow-Headers" in h && h["Access-Control-Allow-Headers"] == "Accept, Content-Type"
  }

  /** The events set no header other than those `http.Error` sets. */
  ghost predicate SetsOnlyErrorHeaders(events: seq<Event>)
  {
    forall k :: 0 <= k < |events| && events[k].HeaderSet? ==>
      events[k].name == "Content-Type" || events[k].name == "X-Content-Type-Options"
  }

  lemma {:induction false} ReplayKeepsCors(h: map<string, string>, events: seq<Event>)
    requires HasCorsHeaders(h) && SetsOnlyErrorHeaders(events)
    ensures HasCorsHeaders(Replay(h, events))
    decreases |events|
  {
    if events != [] {
      var h' := if events[0].HeaderSet? then h[events[0].name := events[0].value] else h;
      assert SetsOnlyErrorHeaders(events[1..]) by {
        forall k | 0 <= k < |events[1..]| && events[1..][k].HeaderSet?
          ensures events[1..][k].name == "Content-Type" || events[1..][k].name == "X-Content-Type-Options"
        {
          assert events[1..][k] == events[k + 1];
        }
      }
      ReplayKeepsCors(h', events[1..]);
    }
  }

  /** After CORS headers and events that set only error headers, every status or body write
      finds the CORS headers in place. */
  lemma CorsBeforeEveryWrite(h: map<string, string>, rest: seq<Event>)
    requires SetsOnlyErrorHeaders(rest)
    ensures var events := CorsEvents + rest;
      forall k :: 0 <= k < |events| && !events[k].HeaderSet? ==> HasCorsHeaders(Replay(h, events[..k]))
  {
    var events := CorsEvents + rest;
    var cors := Replay(h, CorsEvents);
    assert CorsEvents[1..][1..][1..] == [];
    assert HasCorsHeaders(cors);
    forall k | 0 <= k < |events| && !events[k].HeaderSet?
      ensures HasCorsHeaders(Replay(h, events[..k]))
    {
      assert k >= 3;
      assert events[..k] == CorsEvents + rest[..k - 3];
      ReplayAppend(h, CorsEvents, rest[..k - 3]);
      assert SetsOnlyErrorHeaders(rest[..k - 3]) by {
        forall j | 0 <= j < k - 3 ensures rest[..k - 3][j] == rest[j] { }
      }
      ReplayKeepsCors(cors, rest[..k - 3]);
    }
  }

  lemma PostSetsOnlyErrorHeaders<Env, Ast, Prog>(body: Result<string>, codecs: Codecs, cel: Engine<Env, Ast, Prog>)
    ensures SetsOnlyErrorHeaders(PostEvents(body, codecs, cel))
  {
  }

  lemma DispatchSetsOnlyErrorHeaders(req: Request, post: seq<Event>)
    requires SetsOnlyErrorHeaders(post)
    ensures SetsOnlyErrorHeaders(Dispatch(req, post))
  {
  }

  /** Every status and body write happens with the three CORS headers in place, whatever the
      method and outcome. */
  lemma CorsOnEveryResponse<Env, Ast, Prog>(h: map<string, string>, req: Request, codecs: Codecs, cel: Engine<Env, Ast, Prog>)
    ensures var events := Handle(req, codecs, cel);
      |events| > 3 && events[..3] == CorsEvents &&
      forall k :: 0 <= k < |events| && !events[k].HeaderSet? ==> HasCorsHeaders(Replay(h, events[..k]))
  {
    var post := PostEvents(req.body, codecs, cel);
    PostSetsOnlyErrorHeaders(req.body, codecs, cel);
    DispatchSetsOnlyErrorHeaders(req, post);
    CorsBeforeEveryWrite(h, Dispatch(req, post));
  }

  /** OPTIONS answers 204 with an empty body, and nothing else happens. */
  lemma OptionsIsNoContent<Env, Ast, Prog>(req: Request, codecs: Codecs, cel: Engine<Env, Ast, Prog>)
    requires req.httpMethod == "OPTIONS"
    ensures Handle(req, codecs, cel) == CorsEvents + [StatusWritten(204)]
    ensures Statuses(Handle(req, codecs, cel)) == [204] && Body(Handle(req, codecs, cel)) == ""
  {
    StatusesAndBodyAppend(CorsEvents, [StatusWritten(204)]);
    CorsEventsResponse();
  }

  /** Any method but OPTIONS and POST answers 405 naming POST, and nothing else happens. */
  lemma OtherMethodsNotAllowed<Env, Ast, Prog>(req: Request, codecs: Codecs, cel: Engine<Env, Ast, Prog>)
    requires req.httpMethod != "OPTIONS" && req.httpMethod != "POST"
    ensures Handle(req, codecs, cel) == CorsEvents + ErrorEvents(MethodNotAllowedMessage, 405)
    ensures Statuses(Handle(req, codecs, cel)) == [405]
    ensures Body(Handle(req, codecs, cel)) == MethodNotAllowedMessage + "\n"
  {
    StatusesAndBodyAppend(CorsEvents, ErrorEvents(MethodNotAllowedMessage, 405));
    CorsEventsResponse();
    ErrorEventsResponse(MethodNotAllowedMessage, 405);
  }

  /** An unsupported content type adds a 415 error and then carries on exactly as a supported
      one would. */
  lemma UnsupportedContentTypeFallsThrough<Env, Ast, Prog>(req: Request, codecs: Codecs, cel: Engine<Env, Ast, Prog>)
    requires req.httpMethod == "POST" && !SupportedContentType(req.contentType)
    ensures Handle(req, codecs, cel)
         == CorsEvents + ErrorEvents(UnsupportedMediaTypeMessage, 415)
            + Handle(req.(contentType := "application/json"), codecs, cel)[3..]
  {
    var rest := PostEvents(req.body, codecs, cel);
    assert Handle(req.(contentType := "application/json"), codecs, cel) == CorsEvents + rest;
    assert (CorsEvents + rest)[3..] == rest;
  }

  /** The steps after the content-type check never write 415. */
  lemma PostStatusesAre400Or500<Env, Ast, Prog>(body: Result<string>, codecs: Codecs, cel: Engine<Env, Ast, Prog>)
    ensures Statuses(PostEvents(body, codecs, cel)) in {[], [400], [500]}
  {
    match body
    case Err(e) => ErrorEventsResponse(e, 400);
    case Ok(text) =>
      match codecs.unmarshal(text)
      case Err(e) => ErrorEventsResponse(e, 400);
      case Ok(request) =>
        match Pipeline(request.expression, request.variables, cel).result
        case Err(e) => ErrorEventsResponse(e, 400);
        case Ok(v) =>
          match codecs.marshal(EvalResponse(codecs.render(v)))
          case Err(e) => ErrorEventsResponse(e, 500);
          case Ok(json) =>
            assert [BodyWritten(json)][1..] == [];
            assert Statuses([BodyWritten(json)]) == [];
  }

  /** A POST writes 415 exactly when its content type is neither `application/json` nor
      `application/yaml`. */
  lemma Status415Iff<Env, Ast, Prog>(req: Request, codecs: Codecs, cel: Engine<Env, Ast, Prog>)
    requires req.httpMethod == "POST"
    ensures 415 in Statuses(Handle(req, codecs, cel)) <==> !SupportedContentType(req.contentType)
  {
    var rest := PostEvents(req.body, codecs, cel);
    PostStatusesAre400Or500(req.body, codecs, cel);
    CorsEventsResponse();
    var check := if SupportedContentType(req.contentType) then [] else ErrorEvents(UnsupportedMediaTypeMessage, 415);
    ErrorEventsResponse(UnsupportedMediaTypeMessage, 415);
    StatusesAndBodyAppend(check, rest);
    assert Handle(req, codecs, cel) == CorsEvents + (check + rest);
    StatusesAndBodyAppend(CorsEvents, check + rest);
  }

  /** The engine is consulted only once the body has been read and decoded. */
  lemma EvaluatesOnlyDecodedRequests<Env, Ast, Prog>(req: Request, codecs: Codecs, cel: Engine<Env, Ast, Prog>,
      other: Engine<Env, Ast, Prog>)
    requires req.httpMethod != "POST" || req.body.Err? || codecs.unmarshal(req.body.value).Err?
    ensures Handle(req, codecs, other) == Handle(req, codecs, cel)
  {
  }

  /** The statuses and body of a POST: those of the content-type check, then those of the rest. */
  lemma PostResponse<Env, Ast, Prog>(req: Request, codecs: Codecs, cel: Engine<Env, Ast, Prog>)
    requires req.httpMethod == "POST"
    ensures Statuses(Handle(req, codecs, cel))
         == (if SupportedContentType(req.contentType) then [] else [415]) + Statuses(PostEvents(req.body, codecs, cel))
    ensures Body(Handle(req, codecs, cel))
         == (if SupportedContentType(req.contentType) then "" else UnsupportedMediaTypeMessage + "\n")
            + Body(PostEvents(req.body, codecs, cel))
  {
    var rest := PostEvents(req.body, codecs, cel);
    CorsEventsResponse();
    var check := if SupportedContentType(req.contentType) then [] else ErrorEvents(UnsupportedMediaTypeMessage, 415);
    ErrorEventsResponse(UnsupportedMediaTypeMessage, 415);
    StatusesAndBodyAppend(check, rest);
    assert Handle(req, codecs, cel) == CorsEvents + (check + rest);
    StatusesAndBodyAppend(CorsEvents, check + rest);
  }

  /** A failed body read or decode answers 400 with the error text, before any evaluation. */
  lemma UnreadableRequestIsBadRequest<Env, Ast, Prog>(body: Result<string>, codecs: Codecs, cel: Engine<Env, Ast, Prog>)
    requires body.Err? || codecs.unmarshal(body.value).Err?
    ensures var e := if body.Err? then body.error else codecs.unmarshal(body.value).error;
      Statuses(PostEvents(body, codecs, cel)) == [400] && Body(PostEvents(body, codecs, cel)) == e + "\n"
  {
    var e := if body.Err? then body.error else codecs.unmarshal(body.value).error;
    ErrorEventsResponse(e, 400);
  }

  /** An evaluation error answers 400 with the engine's message. */
  lemma EvaluationErrorIsBadRequest<Env, Ast, Prog>(text: string, codecs: Codecs, cel: Engine<Env, Ast, Prog>)
    requires codecs.unmarshal(text).Ok?
    requires var request := codecs.unmarshal(text).value;
      Pipeline(request.expression, request.variables, cel).result.Err?
    ensures var request := codecs.unmarshal(text).value;
      var e := Pipeline(request.expression, request.variables, cel).result.error;
      Statuses(PostEvents(Ok(text), codecs, cel)) == [400] && Body(PostEvents(Ok(text), codecs, cel)) == e + "\n"
  {
    var request := codecs.unmarshal(text).value;
    ErrorEventsResponse(Pipeline(request.expression, request.variables, cel).result.error, 400);
  }

  /** On success no status is written and the body is the JSON encoding of `{"result": text}`,
      `text` being the value's text form; if that encoding fails, 500 with the error. */
  lemma EvaluatedRequestResponse<Env, Ast, Prog>(text: string, codecs: Codecs, cel: Engine<Env, Ast, Prog>)
    requires codecs.unmarshal(text).Ok?
    requires var request := codecs.unmarshal(text).value;
      Pipeline(request.expression, request.variables, cel).result.Ok?
    ensures var request := codecs.unmarshal(text).value;
      var v := Pipeline(request.expression, request.variables, cel).result.value;
      var json := codecs.marshal(EvalResponse(codecs.render(v)));
      && (json.Ok? ==> Statuses(PostEvents(Ok(text), codecs, cel)) == [] && Body(PostEvents(Ok(text), codecs, cel)) == json.value)
      && (json.Err? ==> Statuses(PostEvents(Ok(text), codecs, cel)) == [500] && Body(PostEvents(Ok(text), codecs, cel)) == json.error + "\n")
  {
    var request := codecs.unmarshal(text).value;
    var v := Pipeline(request.expression, request.variables, cel).result.value;
    var json := codecs.marshal(EvalResponse(codecs.render(v)));
    if json.Err? {
      ErrorEventsResponse(json.error, 500);
    } else {
      assert [BodyWritten(json.value)][1..] == [];
      assert json.value + [] == json.value;
    }
  }
}
