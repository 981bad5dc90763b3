/**
 * The HTTP side of event-stream mode (src/index.ts, the `createServer`
 * callback): a registry of open sessions keyed by session id (the module's
 * `activeTransports` map), filled by `GET /mcp` and emptied by the
 * transport's close and error handlers, and the routing of `POST /mcp`
 * messages to the session their `sessionId` names.
 */
module SseRouter {
  import opened Wrappers
  import opened JsValues

  const Endpoint := "/mcp"

  /** The `sessionId` query parameter: absent, given once, or repeated (the
      query parser then yields an array of its values). */
  datatype QueryParam = Absent | Single(value: string) | Repeated(values: seq<string>)

  /** A request: its method (`verb`), the pathname of its URL, the `sessionId`
      parameter, and its body as the chunks in which it arrives. */
  datatype Request = Request(verb: string, pathname: string, sessionId: QueryParam, chunks: seq<string>)

  /** A registered event-stream transport, created for the endpoint path. */
  datatype Session = Session(id: string, endpoint: string)

  /** What a request leads to: a plain status response, a message handed to a
      session's transport, or a new event stream. */
  datatype Outcome =
    | Respond(status: nat, text: string)
    | Forwarded(sessionId: string, payload: JsValue)
    | Opened(sessionId: string)

  const SessionNotFound := Respond(404, "Session not found")
  const InvalidJson := Respond(400, "Invalid JSON")
  const NotFound := Respond(404, "Not Found")

  /** A message handed to the transport of session `sessionId`. */
  datatype Delivery = Delivery(sessionId: string, payload: JsValue)

  // ---------------------------------------------------------------------------
  // The routing decision
  // ---------------------------------------------------------------------------

  /** JavaScript truthiness of the parameter: the empty string and a missing
      parameter are falsy, an array is truthy. */
  predicate Truthy(q: QueryParam) {
    (q.Single? && q.value != "") || q.Repeated?
  }

  predicate IsOpenRequest(req: Request) {
    req.verb == "GET" && req.pathname == Endpoint
  }

  predicate IsMessageRequest(req: Request) {
    req.verb == "POST" && req.pathname == Endpoint && Truthy(req.sessionId)
  }

  /** `activeTransports.get(sessionId)`: a repeated parameter is an array,
      which is never a key of the map. */
  function Get(sessions: map<string, Session>, q: QueryParam): Option<Session> {
    if q.Single? && q.value in sessions then Some(sessions[q.value]) else None
  }

  /** The body as `body += chunk` leaves it once the request has ended. */
  function Concat(chunks: seq<string>): string {
    if chunks == [] then "" else Concat(chunks[..|chunks| - 1]) + chunks[|chunks| - 1]
  }

  /** The outcome of one request, given the registry, the id a new transport
      would get, and `parse` standing for `JSON.parse` (`None` when it
      throws). The session is looked up before the body is read. */
  function Decide(sessions: map<string, Session>, req: Request, freshId: string,
                  parse: string -> Option<JsValue>): Outcome
  {
    if IsOpenRequest(req) then Opened(freshId)
    else if IsMessageRequest(req) then
      match Get(sessions, req.sessionId)
      case None => SessionNotFound
      case Some(session) =>
        match parse(Concat(req.chunks))
        case None => InvalidJson
        case Some(message) => Forwarded(req.sessionId.value, message)
    else NotFound
  }

  /** The registry after an outcome: only opening a stream changes it. */
  function Register(sessions: map<string, Session>, outcome: Outcome): map<string, Session> {
    if outcome.Opened? then sessions[outcome.sessionId := Session(outcome.sessionId, Endpoint)] else sessions
  }

  /** The deliveries an outcome makes. */
  function Deliveries(outcome: Outcome): seq<Delivery> {
    if outcome.Forwarded? then [Delivery(outcome.sessionId, outcome.payload)] else []
  }

  /** The registry's invariant: every session is stored under its own id and
      serves the endpoint path. */
  predicate WellKeyed(sessions: map<string, Session>) {
    forall id :: id in sessions ==> sessions[id] == Session(id, Endpoint)
  }

  // ---------------------------------------------------------------------------
  // Reading the body
  // ---------------------------------------------------------------------------

  /** Accumulates the chunks of a request body in arrival order. */
  method ReadBody(chunks: seq<string>) returns (body: string)
    ensures body == Concat(chunks)
  {
    body := "";
    var i := 0;
    while i < |chunks|
      invariant 0 <= i <= |chunks|
      invariant body == Concat(chunks[..i])
    {
      assert chunks[..i + 1][..i] == chunks[..i];
      body := body + chunks[i];
      i := i + 1;
    }
    assert chunks[..i] == chunks;
  }

  /** Concatenation respects splitting: where the chunk boundaries fall does
      not change the body. */
  lemma {:induction false} ConcatAppend(a: seq<string>, b: seq<string>)
    ensures Concat(a + b) == Concat(a) + Concat(b)
    decreases |b|
  {
    if b == [] {
      assert a + b == a;
    } else {
      var b' := b[..|b| - 1];
      assert (a + b)[..|a + b| - 1] == a + b';
      ConcatAppend(a, b');
    }
  }

  /** A body delivered in pieces routes exactly as the same body in one
      chunk. */
  lemma ChunkingIsInvisible(sessions: map<string, Session>, req: Request, freshId: string,
                            parse: string -> Option<JsValue>, a: seq<string>, b: seq<string>)
    requires req.chunks == a + b
    ensures Decide(sessions, req, freshId, parse) == Decide(sessions, req.(chunks := [Concat(a) + Concat(b)]), freshId, parse)
  {
    var whole := Concat(a) + Concat(b);
    ConcatAppend(a, b);
    assert [whole][..0] == [];
    assert Concat([whole]) == whole;
    var req' := req.(chunks := [whole]);
    assert Concat(req'.chunks) == Concat(req.chunks);
  }

  // ---------------------------------------------------------------------------
  // Laws of the routing decision
  // ---------------------------------------------------------------------------

  /** `GET /mcp` opens a stream under the fresh id; the new registry holds it
      and every other entry as before. */
  lemma OpenRegistersSession(sessions: map<string, Session>, req: Request, freshId: string,
                             parse: string -> Option<JsValue>)
    requires IsOpenRequest(req)
    ensures Decide(sessions, req, freshId, parse) == Opened(freshId)
    ensures var after := Register(sessions, Decide(sessions, req, freshId, parse));
      && after.Keys == sessions.Keys + {freshId}
      && after[freshId] == Session(freshId, Endpoint)
      && forall id :: id in sessions && id != freshId ==> after[id] == sessions[id]
  {
  }

  /** A POST naming no registered session is answered 404 "Session not
      found" whatever its body: the body is never consulted, nothing is
      delivered and the registry stays as it was. */
  lemma UnknownSessionIgnoresBody(sessions: map<string, Session>, req: Request, freshId: string,
                                  parse: string -> Option<JsValue>, otherChunks: seq<string>,
                                  otherParse: string -> Option<JsValue>)
    requires IsMessageRequest(req) && Get(sessions, req.sessionId).None?
    ensures Decide(sessions, req, freshId, parse) == SessionNotFound
    ensures Decide(sessions, req.(chunks := otherChunks), freshId, otherParse) == SessionNotFound
    ensures Register(sessions, SessionNotFound) == sessions && Deliveries(SessionNotFound) == []
  {
  }

  /** Lookup comes before parsing: an unknown session with a malformed body
      gets 404, not 400. */
  lemma UnknownSessionWithBadBodyIs404(sessions: map<string, Session>, id: string, chunks: seq<string>,
                                       freshId: string, parse: string -> Option<JsValue>)
    requires id != "" && id !in sessions && parse(Concat(chunks)).None?
    ensures Decide(sessions, Request("POST", Endpoint, Single(id), chunks), freshId, parse) == SessionNotFound
  {
  }

  /** A repeated `sessionId` is truthy but never found. */
  lemma RepeatedSessionIdNotFound(sessions: map<string, Session>, ids: seq<string>, chunks: seq<string>,
                                  freshId: string, parse: string -> Option<JsValue>)
    ensures Decide(sessions, Request("POST", Endpoint, Repeated(ids), chunks), freshId, parse) == SessionNotFound
  {
  }

  /** A message is forwarded exactly when it is a POST to the endpoint naming
      a registered session and its body parses; it then goes to that session
      and no other, carrying the parsed body. */
  lemma ForwardedIff(sessions: map<string, Session>, req: Request, freshId: string,
                     parse: string -> Option<JsValue>)
    ensures Decide(sessions, req, freshId, parse).Forwarded? <==>
      && req.verb == "POST" && req.pathname == Endpoint
      && req.sessionId.Single? && req.sessionId.value != "" && req.sessionId.value in sessions
      && parse(Concat(req.chunks)).Some?
    ensures var o := Decide(sessions, req, freshId, parse);
      o.Forwarded? ==>
        && o.sessionId == req.sessionId.value
        && Some(o.payload) == parse(Concat(req.chunks))
        && Deliveries(o) == [Delivery(req.sessionId.value, o.payload)]
        && Register(sessions, o) == sessions
  {
  }

  /** A registered session whose body does not parse gets 400 "Invalid
      JSON" and nothing is delivered. */
  lemma RegisteredBadBodyIs400(sessions: map<string, Session>, req: Request, freshId: string,
                               parse: string -> Option<JsValue>)
    requires IsMessageRequest(req) && Get(sessions, req.sessionId).Some?
    ensures Decide(sessions, req, freshId, parse) == InvalidJson <==> parse(Concat(req.chunks)).None?
  {
  }

  /** Every other request gets 404 "Not Found" and changes nothing: another
      method or path, or a POST whose `sessionId` is missing or empty. */
  lemma EverythingElseNotFound(sessions: map<string, Session>, req: Request, freshId: string,
                               parse: string -> Option<JsValue>)
    ensures Decide(sessions, req, freshId, parse) == NotFound <==> !IsOpenRequest(req) && !IsMessageRequest(req)
    ensures Decide(sessions, req, freshId, parse) == NotFound ==>
      Register(sessions, NotFound) == sessions && Deliveries(NotFound) == []
  {
  }

  /** Only `GET /mcp` changes the registry. */
  lemma OnlyOpenChangesRegistry(sessions: map<string, Session>, req: Request, freshId: string,
                                parse: string -> Option<JsValue>)
    requires !IsOpenRequest(req)
    ensures Register(sessions, Decide(sessions, req, freshId, parse)) == sessions
  {
  }

  /** After a session is closed, a POST naming it gets 404, whatever the
      body; closing twice is closing once, and other sessions stay. */
  lemma ClosedSessionRejectsMessages(sessions: map<string, Session>, id: string, chunks: seq<string>,
                                     freshId: string, parse: string -> Option<JsValue>)
    requires id != ""
    ensures Decide(sessions - {id}, Request("POST", Endpoint, Single(id), chunks), freshId, parse) == SessionNotFound
    ensures (sessions - {id}) - {id} == sessions - {id}
    ensures forall other :: other in sessions && other != id ==> other in sessions - {id} && (sessions - {id})[other] == sessions[other]
  {
  }

  // ---------------------------------------------------------------------------
  // Runs of events
  // ---------------------------------------------------------------------------

  /** What happens to the registry: a request arrives (with the id a new
      transport would get), or a transport closes or fails. */
  datatype Event = Incoming(req: Request, freshId: string) | Closed(id: string)

  function Apply(sessions: map<string, Session>, ev: Event, parse: string -> Option<JsValue>): map<string, Session> {
    match ev
    case Incoming(req, freshId) => Register(sessions, Decide(sessions, req, freshId, parse))
    case Closed(id) => sessions - {id}
  }

  function Run(sessions: map<string, Session>, evs: seq<Event>, parse: string -> Option<JsValue>): map<string, Session> {
    if evs == [] then sessions else Apply(Run(sessions, evs[..|evs| - 1], parse), evs[|evs| - 1], parse)
  }

  /** Whether `id` is live after `evs`, looking only at the session's own
      lifecycle: the last open or close of `id` decides. */
  function Live(initially: bool, evs: seq<Event>, id: string): bool {
    if evs == [] then initially
    else
      var last := evs[|evs| - 1];
      if last.Closed? && last.id == id then false
      else if last.Incoming? && IsOpenRequest(last.req) && last.freshId == id then true
      else Live(initially, evs[..|evs| - 1], id)
  }

  /** A session id is registered after a run exactly when its last lifecycle
      event opened it (or it was there from the start and never closed). */
  lemma {:induction false} RegisteredIffLive(sessions: map<string, Session>, evs: seq<Event>,
                                             parse: string -> Option<JsValue>, id: string)
    ensures id in Run(sessions, evs, parse) <==> Live(id in sessions, evs, id)
  {
    if evs != [] {
      RegisteredIffLive(sessions, evs[..|evs| - 1], parse, id);
    }
  }

  /** Runs keep the registry well keyed. */
  lemma {:induction false} RunKeepsWellKeyed(sessions: map<string, Session>, evs: seq<Event>,
                                             parse: string -> Option<JsValue>)
    requires WellKeyed(sessions)
    ensures WellKeyed(Run(sessions, evs, parse))
  {
    if evs != [] {
      RunKeepsWellKeyed(sessions, evs[..|evs| - 1], parse);
    }
  }

  /** Once a session is closed and not opened again, no later message reaches
      it: every POST naming it gets 404. */
  lemma {:induction false} NoDeliveryAfterClose(sessions: map<string, Session>, evs: seq<Event>,
                                                parse: string -> Option<JsValue>, id: string, k: nat,
                                                chunks: seq<string>, freshId: string)
    requires k < |evs| && evs[k] == Closed(id) && id != ""
    requires forall j :: k < j < |evs| ==> !(evs[j].Incoming? && IsOpenRequest(evs[j].req) && evs[j].freshId == id)
    ensures Decide(Run(sessions, evs, parse), Request("POST", Endpoint, Single(id), chunks), freshId, parse) == SessionNotFound
  {
    NotLiveAfterClose(id in sessions, evs, id, k);
    RegisteredIffLive(sessions, evs, parse, id);
  }

  lemma {:induction false} NotLiveAfterClose(initially: bool, evs: seq<Event>, id: string, k: nat)
    requires k < |evs| && evs[k] == Closed(id)
    requires forall j :: k < j < |evs| ==> !(evs[j].Incoming? && IsOpenRequest(evs[j].req) && evs[j].freshId == id)
    ensures !Live(initially, evs, id)
  {
    if k < |evs| - 1 {
      var init := evs[..|evs| - 1];
      assert init[k] == evs[k];
      NotLiveAfterClose(initially, init, id, k);
    }
  }

  // ---------------------------------------------------------------------------
  // The registry as the server holds it
  // ---------------------------------------------------------------------------

  /** `activeTransports`, with the messages handed to transports so far. */
  class SessionRegistry {
    var sessions: map<string, Session>
    var delivered: seq<Delivery>

    ghost predicate Valid()
      reads this
    {
      WellKeyed(sessions)
    }

    constructor ()
      ensures Valid() && sessions == map[] && delivered == []
    {
      sessions := map[];
      delivered := [];
    }

    /** A new transport is stored under its id. */
    method Open(freshId: string)
      requires Valid()
      modifies this
      ensures Valid()
      ensures sessions == old(sessions)[freshId := Session(freshId, Endpoint)]
      ensures delivered == old(delivered)
    {
      sessions := sessions[freshId := Session(freshId, Endpoint)];
    }

    /** The transport's close and error handlers: the id is removed, if it
        is still there. */
    method Close(id: string)
      requires Valid()
      modifies this
      ensures Valid()
      ensures sessions == old(sessions) - {id}
      ensures delivered == old(delivered)
    {
      sessions := sessions - {id};
    }

    /** Handles one request, as the `createServer` callback does. */
    method Route(req: Request, freshId: string, parse: string -> Option<JsValue>) returns (outcome: Outcome)
      requires Valid()
      modifies this
      ensures Valid()
      ensures outcome == Decide(old(sessions), req, freshId, parse)
      ensures sessions == Register(old(sessions), outcome)
      ensures delivered == old(delivered) + Deliveries(outcome)
    {
      if req.verb == "GET" && req.pathname == Endpoint {
        Open(freshId);
        outcome := Opened(freshId);
      } else if req.verb == "POST" && req.pathname == Endpoint && Truthy(req.sessionId) {
        var transport := Get(sessions, req.sessionId);
        if transport.None? {
          outcome := SessionNotFound;
          return;
        }
        var body := ReadBody(req.chunks);
        var parsed := parse(body);
        if parsed.None? {
          outcome := InvalidJson;
        } else {
          delivered := delivered + [Delivery(transport.value.id, parsed.value)];
          outcome := Forwarded(transport.value.id, parsed.value);
        }
      } else {
        outcome := NotFound;
      }
    }
  }
}
