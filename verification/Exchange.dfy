/**
 One exchange between the generated server and the generated client: the strict handler visits a
 response object, the bytes pass whatever middlewares are installed, and the client's parser fills
 the typed field for the status it sees.
 */
module Exchange {
  import opened Wrappers
  import opened Json
  import opened Types
  import opened Codec
  import opened ResponseStack
  import opened ResponseProperties
  import Scrub

  // ---- Server side: response objects and their Visit methods ----

  datatype ListReply = List200(list: NetworkList) | List400(problem: Problem) | List500(problem: Problem)

  datatype CreateReply =
    | Create201(network: Network)
    | Create400(problem: Problem) | Create409(problem: Problem) | Create500(problem: Problem)

  datatype HealthReply = Health200(health: Health)

  datatype DeleteReply = Delete204 | Delete404(problem: Problem) | Delete500(problem: Problem)

  datatype GetReply = Get200(network: Network) | Get404(problem: Problem) | Get500(problem: Problem)

  const APPLICATION_JSON := "application/json"

  function Typed(status: int, doc: Json): StrictResult {
    Reply(status, Some((APPLICATION_JSON, doc)))
  }

  function Failure(status: int, p: Problem): StrictResult {
    Reply(status, Some((PROBLEM_JSON, EncodeProblem(p))))
  }

  function VisitList(reply: ListReply): StrictResult {
    match reply
    case List200(list) => Typed(200, EncodeList(list))
    case List400(p) => Failure(400, p)
    case List500(p) => Failure(500, p)
  }

  function VisitCreate(reply: CreateReply): StrictResult {
    match reply
    case Create201(network) => Typed(201, EncodeNetwork(network))
    case Create400(p) => Failure(400, p)
    case Create409(p) => Failure(409, p)
    case Create500(p) => Failure(500, p)
  }

  function VisitHealth(reply: HealthReply): StrictResult {
    Typed(200, EncodeHealth(reply.health))
  }

  function VisitDelete(reply: DeleteReply): StrictResult {
    match reply
    case Delete204 => Reply(204, None)
    case Delete404(p) => Failure(404, p)
    case Delete500(p) => Failure(500, p)
  }

  function VisitGet(reply: GetReply): StrictResult {
    match reply
    case Get200(network) => Typed(200, EncodeNetwork(network))
    case Get404(p) => Failure(404, p)
    case Get500(p) => Failure(500, p)
  }

  // ---- In between ----

  /** A body the client reads: nothing, one whole document, or bytes that are not one document. */
  datatype Payload = Empty | Document(doc: Json) | Garbage

  datatype Message = Message(status: int, contentType: string, payload: Payload)

  /** What the client receives once the handler has returned. */
  function Received(w: Wire): Message {
    var f := Finished(w);
    Message(
      f.status,
      if CONTENT_TYPE in f.sent then f.sent[CONTENT_TYPE] else "",
      if f.body == [] then Empty
      else if |f.body| == 1 && f.body[0].Whole? then Document(f.body[0].doc)
      else Garbage)
  }

  /** A request at the moment net/http calls the handler. */
  function NewRequest(flusher: bool, room: nat): Stack {
    Stack([], Wire(flusher, room, map[], false, 0, map[], [], []))
  }

  /** `h` is `inner` under any nesting of recovery, logging and a validation that lets the request pass. */
  predicate Wraps(h: Handler, inner: Handler) {
    h == inner ||
    match h
    case Endpoint(_, _) => false
    case Strict(_, _) => false
    case Validate(reject, next) => reject.None? && Wraps(next, inner)
    case Logging(next) => Wraps(next, inner)
    case Recovery(next, _) => Wraps(next, inner)
  }

  /** The same nestings spelled out, outermost first. */
  datatype Layer = LogLayer | PassLayer | RecoveryLayer(uri: string)

  function Layered(layers: seq<Layer>, inner: Handler): Handler {
    if layers == [] then inner
    else
      var next := Layered(layers[1..], inner);
      match layers[0]
      case LogLayer => Logging(next)
      case PassLayer => Validate(None, next)
      case RecoveryLayer(uri) => Recovery(next, uri)
  }

  lemma {:induction false} LayeredWraps(layers: seq<Layer>, inner: Handler)
    ensures Wraps(Layered(layers, inner), inner)
  {
    if layers != [] {
      LayeredWraps(layers[1..], inner);
    }
  }

  lemma {:induction false} WrapsIsLayered(h: Handler, inner: Handler) returns (layers: seq<Layer>)
    requires Wraps(h, inner)
    ensures h == Layered(layers, inner)
  {
    if h == inner {
      layers := [];
    } else {
      var rest := WrapsIsLayered(h.next, inner);
      var first := match h case Logging(_) => LogLayer case Recovery(_, uri) => RecoveryLayer(uri) case _ => PassLayer;
      layers := [first] + rest;
      assert layers[1..] == rest;
    }
  }

  lemma {:induction false} WrappersAddNothing(h: Handler, inner: Handler, w: Wire)
    requires Wraps(h, inner) && WellBehaved(w.flusher, inner) && Ideal(inner, w).ending == Return
    ensures Ideal(h, w) == Ideal(inner, w) && WellBehaved(w.flusher, h)
    decreases h
  {
    if h != inner {
      match h
      case Validate(_, next) => WrappersAddNothing(next, inner, w);
      case Logging(next) => WrappersAddNothing(next, inner, w);
      case Recovery(next, _) => WrappersAddNothing(next, inner, w);
    }
  }

  /** Under any wrapping, a reply whose body the connection accepts reaches the client as it was visited. */
  lemma ReplyArrives(h: Handler, status: int, content: Option<(string, Json)>, uri: string, flusher: bool, room: nat)
    requires Wraps(h, Strict(Reply(status, content), uri)) && Final(status)
    requires content.Some? ==> room > 0 && BodyAllowed(status)
    ensures Received(Serve(h, NewRequest(flusher, room)).st.wire) ==
            Message(status,
                    if content.Some? then content.value.0 else "",
                    if content.Some? then Document(content.value.1) else Empty)
  {
    var st := NewRequest(flusher, room);
    var result := Reply(status, content);
    WrappersAddNothing(h, Strict(result, uri), st.wire);
    ServeRefinesIdeal(h, st);
    if content.Some? {
      ThreeOps(st, VisitOps(status, content));
    } else {
      assert VisitOps(status, content)[1..] == [];
      assert ThroughAll(st, VisitOps(status, content)) == Through(st, WriteHeader(status));
    }
  }

  /** When the connection takes no body at all, the client gets the status and type but no document. */
  lemma TornReply(h: Handler, status: int, content: (string, Json), uri: string, flusher: bool)
    requires Wraps(h, Strict(Reply(status, Some(content)), uri)) && Final(status) && BodyAllowed(status)
    ensures var m := Received(Serve(h, NewRequest(flusher, 0)).st.wire); m == Message(status, content.0, Garbage)
  {
    var st := NewRequest(flusher, 0);
    var result := Reply(status, Some(content));
    WrappersAddNothing(h, Strict(result, uri), st.wire);
    ServeRefinesIdeal(h, st);
    ThreeOps(st, VisitOps(status, Some(content)));
    ThreeOps(ThroughAll(st, VisitOps(status, Some(content))), ProblemOps(500, Internal(uri)));
  }

  /** A client can read the body as a document exactly when one whole document was sent and nothing besides. */
  lemma PayloadIs(w: Wire)
    ensures var sent := Finished(w).body; var payload := Received(w).payload;
            && (payload.Empty? <==> sent == [])
            && (payload.Document? <==> exists doc :: sent == [Whole(doc)])
            && (payload.Document? ==> sent == [Whole(payload.doc)])
  {
  }

  /** The one problem for everything that goes wrong inside: nothing of the cause shows. */
  lemma InternalSays(uri: string)
    ensures Internal(uri) ==
            Problem(Some("an unexpected error occurred"), Some(uri), Some(500), "Internal Server Error", "INTERNAL")
  {
  }

  // ---- Client side: Parse*Response ----

  datatype ListResponse = ListResponse(
    json200: Option<NetworkList>, problem400: Option<Problem>, problem500: Option<Problem>)

  datatype CreateResponse = CreateResponse(
    json201: Option<Network>, problem400: Option<Problem>, problem409: Option<Problem>, problem500: Option<Problem>)

  datatype HealthResponse = HealthResponse(json200: Option<Health>)

  datatype DeleteResponse = DeleteResponse(problem404: Option<Problem>, problem500: Option<Problem>)

  datatype GetResponse = GetResponse(json200: Option<Network>, problem404: Option<Problem>, problem500: Option<Problem>)

  /** strings.Contains(contentType, "json") */
  predicate ContainsJson(contentType: string) {
    exists i :: 0 <= i <= |contentType| - 4 && JsonAt(contentType, i)
  }

  predicate JsonAt(s: string, i: nat)
    requires i + 4 <= |s|
  {
    s[i..i + 4] == "json"
  }

  predicate Matches(m: Message, status: int) {
    ContainsJson(m.contentType) && m.status == status
  }

  /** json.Unmarshal of the body into a fresh value. */
  function Unmarshal<T>(m: Message, dec: Json -> Decoded<T>): Decoded<T> {
    if m.payload.Document? then dec(m.payload.doc) else Err(TypeMismatch)
  }

  const NO_LIST := ListResponse(None, None, None)
  const NO_CREATE := CreateResponse(None, None, None, None)
  const NO_HEALTH := HealthResponse(None)
  const NO_DELETE := DeleteResponse(None, None)
  const NO_GET := GetResponse(None, None, None)

  function ParseList(m: Message): Decoded<ListResponse> {
    if Matches(m, 200) then var d :- Unmarshal(m, DecodeList); Ok(NO_LIST.(json200 := Some(d)))
    else if Matches(m, 400) then var d :- Unmarshal(m, DecodeProblem); Ok(NO_LIST.(problem400 := Some(d)))
    else if Matches(m, 500) then var d :- Unmarshal(m, DecodeProblem); Ok(NO_LIST.(problem500 := Some(d)))
    else Ok(NO_LIST)
  }

  function ParseCreate(m: Message): Decoded<CreateResponse> {
    if Matches(m, 201) then var d :- Unmarshal(m, DecodeNetwork); Ok(NO_CREATE.(json201 := Some(d)))
    else if Matches(m, 400) then var d :- Unmarshal(m, DecodeProblem); Ok(NO_CREATE.(problem400 := Some(d)))
    else if Matches(m, 409) then var d :- Unmarshal(m, DecodeProblem); Ok(NO_CREATE.(problem409 := Some(d)))
    else if Matches(m, 500) then var d :- Unmarshal(m, DecodeProblem); Ok(NO_CREATE.(problem500 := Some(d)))
    else Ok(NO_CREATE)
  }

  function ParseHealth(m: Message): Decoded<HealthResponse> {
    if Matches(m, 200) then var d :- Unmarshal(m, DecodeHealth); Ok(NO_HEALTH.(json200 := Some(d)))
    else Ok(NO_HEALTH)
  }

  function ParseDelete(m: Message): Decoded<DeleteResponse> {
    if m.status == 204 then Ok(NO_DELETE)
    else if Matches(m, 404) then var d :- Unmarshal(m, DecodeProblem); Ok(NO_DELETE.(problem404 := Some(d)))
    else if Matches(m, 500) then var d :- Unmarshal(m, DecodeProblem); Ok(NO_DELETE.(problem500 := Some(d)))
    else Ok(NO_DELETE)
  }

  function ParseGet(m: Message): Decoded<GetResponse> {
    if Matches(m, 200) then var d :- Unmarshal(m, DecodeNetwork); Ok(NO_GET.(json200 := Some(d)))
    else if Matches(m, 404) then var d :- Unmarshal(m, DecodeProblem); Ok(NO_GET.(problem404 := Some(d)))
    else if Matches(m, 500) then var d :- Unmarshal(m, DecodeProblem); Ok(NO_GET.(problem500 := Some(d)))
    else Ok(NO_GET)
  }

  // ---- Agreement ----

  lemma EndsInJson(prefix: string)
    ensures ContainsJson(prefix + "json")
  {
    assert JsonAt(prefix + "json", |prefix|);
  }

  lemma BothTypesContainJson()
    ensures ContainsJson(APPLICATION_JSON) && ContainsJson(PROBLEM_JSON)
  {
    assert APPLICATION_JSON == "application/" + "json" && PROBLEM_JSON == "application/problem+" + "json";
    EndsInJson("application/");
    EndsInJson("application/problem+");
  }

  /** The content types taken for JSON are those with "json" anywhere in them. */
  lemma ContainsJsonIff(s: string, before: string, after: string)
    ensures s == before + "json" + after ==> ContainsJson(s)
    ensures ContainsJson(s) ==> exists i :: 0 <= i <= |s| - 4 && s == s[..i] + "json" + s[i + 4..]
  {
    if s == before + "json" + after {
      assert s[|before|..|before| + 4] == "json";
      assert JsonAt(s, |before|);
    }
    if ContainsJson(s) {
      var i :| 0 <= i <= |s| - 4 && JsonAt(s, i);
      assert s == s[..i] + s[i..i + 4] + s[i + 4..];
    }
  }

  /** A reply of another type, or with a status an operation does not document, sets no typed field and is no error. */
  lemma OtherRepliesAreUntyped(m: Message)
    ensures !ContainsJson(m.contentType) || m.status !in {200, 400, 500} ==>
              ParseList(m) == Ok(ListResponse(None, None, None))
    ensures !ContainsJson(m.contentType) || m.status !in {201, 400, 409, 500} ==>
              ParseCreate(m) == Ok(CreateResponse(None, None, None, None))
    ensures !ContainsJson(m.contentType) || m.status != 200 ==> ParseHealth(m) == Ok(HealthResponse(None))
    ensures !ContainsJson(m.contentType) || m.status !in {404, 500} ==> ParseDelete(m) == Ok(DeleteResponse(None, None))
    ensures !ContainsJson(m.contentType) || m.status !in {200, 404, 500} ==>
              ParseGet(m) == Ok(GetResponse(None, None, None))
  {
  }

  /** The message a reply turns into on a connection that accepts its body, under the middlewares `h`. */
  function Exchanged(h: Handler, flusher: bool, room: nat): Message {
    Received(Serve(h, NewRequest(flusher, room)).st.wire)
  }

  /** A reply that reached the client whole. */
  function Arrived(r: StrictResult): Message
    requires r.Reply?
  {
    Message(r.status,
            if r.content.Some? then r.content.value.0 else "",
            if r.content.Some? then Document(r.content.value.1) else Empty)
  }

  lemma ListParses(reply: ListReply)
    ensures var parsed := ParseList(Arrived(VisitList(reply)));
            match reply
            case List200(l) =>
              parsed == Ok(NO_LIST.(json200 := Some(l.(results := NormNetworks(l.results))))) <==> FaithfulList(l)
            case List400(p) => parsed == Ok(NO_LIST.(problem400 := Some(p)))
            case List500(p) => parsed == Ok(NO_LIST.(problem500 := Some(p)))
  {
    BothTypesContainJson();
    match reply
    case List200(l) => ListRoundTripIff(l);
    case List400(p) => ProblemRoundTrip(p);
    case List500(p) => ProblemRoundTrip(p);
  }

  /**
   Exactly the field for the status is set, to the normalised value; for a list, exactly when its
   networks survive the wire.
   */
  lemma ListAgreement(h: Handler, reply: ListReply, uri: string, flusher: bool, room: nat)
    requires Wraps(h, Strict(VisitList(reply), uri)) && room > 0
    ensures var parsed := ParseList(Exchanged(h, flusher, room));
            match reply
            case List200(l) =>
              parsed == Ok(NO_LIST.(json200 := Some(l.(results := NormNetworks(l.results))))) <==> FaithfulList(l)
            case List400(p) => parsed == Ok(NO_LIST.(problem400 := Some(p)))
            case List500(p) => parsed == Ok(NO_LIST.(problem500 := Some(p)))
  {
    var r := VisitList(reply);
    ReplyArrives(h, r.status, r.content, uri, flusher, room);
    ListParses(reply);
  }

  lemma CreateParses(reply: CreateReply)
    ensures var parsed := ParseCreate(Arrived(VisitCreate(reply)));
            match reply
            case Create201(n) => parsed == Ok(NO_CREATE.(json201 := Some(NormNetwork(n)))) <==> FaithfulSpec(n.spec)
            case Create400(p) => parsed == Ok(NO_CREATE.(problem400 := Some(p)))
            case Create409(p) => parsed == Ok(NO_CREATE.(problem409 := Some(p)))
            case Create500(p) => parsed == Ok(NO_CREATE.(problem500 := Some(p)))
  {
    BothTypesContainJson();
    match reply
    case Create201(n) => NetworkRoundTripIff(n);
    case Create400(p) => ProblemRoundTrip(p);
    case Create409(p) => ProblemRoundTrip(p);
    case Create500(p) => ProblemRoundTrip(p);
  }

  lemma CreateAgreement(h: Handler, reply: CreateReply, uri: string, flusher: bool, room: nat)
    requires Wraps(h, Strict(VisitCreate(reply), uri)) && room > 0
    ensures var parsed := ParseCreate(Exchanged(h, flusher, room));
            match reply
            case Create201(n) => parsed == Ok(NO_CREATE.(json201 := Some(NormNetwork(n)))) <==> FaithfulSpec(n.spec)
            case Create400(p) => parsed == Ok(NO_CREATE.(problem400 := Some(p)))
            case Create409(p) => parsed == Ok(NO_CREATE.(problem409 := Some(p)))
            case Create500(p) => parsed == Ok(NO_CREATE.(problem500 := Some(p)))
  {
    var r := VisitCreate(reply);
    ReplyArrives(h, r.status, r.content, uri, flusher, room);
    CreateParses(reply);
  }

  lemma HealthAgreement(h: Handler, reply: HealthReply, uri: string, flusher: bool, room: nat)
    requires Wraps(h, Strict(VisitHealth(reply), uri)) && room > 0
    ensures ParseHealth(Exchanged(h, flusher, room)) == Ok(HealthResponse(Some(reply.health)))
  {
    var r := VisitHealth(reply);
    ReplyArrives(h, r.status, r.content, uri, flusher, room);
    BothTypesContainJson();
    HealthRoundTrip(reply.health);
  }

  /** A 204 sets no field, and needs no room on the connection. */
  lemma DeleteAgreement(h: Handler, reply: DeleteReply, uri: string, flusher: bool, room: nat)
    requires Wraps(h, Strict(VisitDelete(reply), uri)) && (reply.Delete204? || room > 0)
    ensures var parsed := ParseDelete(Exchanged(h, flusher, room));
            match reply
            case Delete204 => parsed == Ok(NO_DELETE)
            case Delete404(p) => parsed == Ok(NO_DELETE.(problem404 := Some(p)))
            case Delete500(p) => parsed == Ok(NO_DELETE.(problem500 := Some(p)))
  {
    var r := VisitDelete(reply);
    ReplyArrives(h, r.status, r.content, uri, flusher, room);
    BothTypesContainJson();
    match reply
    case Delete204 =>
    case Delete404(p) => ProblemRoundTrip(p);
    case Delete500(p) => ProblemRoundTrip(p);
  }

  lemma GetParses(reply: GetReply)
    ensures var parsed := ParseGet(Arrived(VisitGet(reply)));
            match reply
            case Get200(n) => parsed == Ok(NO_GET.(json200 := Some(NormNetwork(n)))) <==> FaithfulSpec(n.spec)
            case Get404(p) => parsed == Ok(NO_GET.(problem404 := Some(p)))
            case Get500(p) => parsed == Ok(NO_GET.(problem500 := Some(p)))
  {
    BothTypesContainJson();
    match reply
    case Get200(n) => NetworkRoundTripIff(n);
    case Get404(p) => ProblemRoundTrip(p);
    case Get500(p) => ProblemRoundTrip(p);
  }

  lemma GetAgreement(h: Handler, reply: GetReply, uri: string, flusher: bool, room: nat)
    requires Wraps(h, Strict(VisitGet(reply), uri)) && room > 0
    ensures var parsed := ParseGet(Exchanged(h, flusher, room));
            match reply
            case Get200(n) => parsed == Ok(NO_GET.(json200 := Some(NormNetwork(n)))) <==> FaithfulSpec(n.spec)
            case Get404(p) => parsed == Ok(NO_GET.(problem404 := Some(p)))
            case Get500(p) => parsed == Ok(NO_GET.(problem500 := Some(p)))
  {
    var r := VisitGet(reply);
    ReplyArrives(h, r.status, r.content, uri, flusher, room);
    GetParses(reply);
  }

  /**
   A reply torn by the connection is never taken for a typed value: the parser of each operation
   reports an error exactly for the statuses it has a field for.
   */
  lemma TornReplyIsAnError(h: Handler, status: int, content: (string, Json), uri: string, flusher: bool)
    requires Wraps(h, Strict(Reply(status, Some(content)), uri)) && Final(status) && BodyAllowed(status)
    requires content.0 == APPLICATION_JSON || content.0 == PROBLEM_JSON
    ensures var m := Exchanged(h, flusher, 0);
            && (ParseList(m) == if status in {200, 400, 500} then Err(TypeMismatch) else Ok(NO_LIST))
            && (ParseCreate(m) == if status in {201, 400, 409, 500} then Err(TypeMismatch) else Ok(NO_CREATE))
            && (ParseHealth(m) == if status == 200 then Err(TypeMismatch) else Ok(NO_HEALTH))
            && (ParseDelete(m) == if status in {404, 500} then Err(TypeMismatch) else Ok(NO_DELETE))
            && (ParseGet(m) == if status in {200, 404, 500} then Err(TypeMismatch) else Ok(NO_GET))
  {
    BothTypesContainJson();
    TornReply(h, status, content, uri, flusher);
  }

  // ---- Handlers that fail ----

  /** An error of the handler function, or a result of the wrong type, reaches the client as the internal problem. */
  lemma FailureAnswer(h: Handler, result: StrictResult, uri: string, flusher: bool, room: nat)
    requires Wraps(h, Strict(result, uri)) && (result.HandlerError? || result.WrongType?) && room > 0
    ensures Exchanged(h, flusher, room) == Message(500, PROBLEM_JSON, Document(EncodeProblem(Internal(uri))))
  {
    var st := NewRequest(flusher, room);
    WrappersAddNothing(h, Strict(result, uri), st.wire);
    ServeRefinesIdeal(h, st);
    WireOfAll(Stack([], st.wire), ProblemOps(500, Internal(uri)));
    ProblemOnWire(st.wire, 500, Internal(uri));
  }

  /** A handler that returns nothing at all gets an empty 200 sent in its name. */
  lemma NilAnswer(h: Handler, uri: string, flusher: bool, room: nat)
    requires Wraps(h, Strict(NilResponse, uri))
    ensures Exchanged(h, flusher, room) == Message(200, "", Empty)
  {
    var st := NewRequest(flusher, room);
    WrappersAddNothing(h, Strict(NilResponse, uri), st.wire);
    ServeRefinesIdeal(h, st);
  }

  // ---- Rejections ----

  function BadRequest(detail: string, uri: string): Problem {
    Problem(Some(detail), Some(uri), Some(400), "Bad Request", "INVALID_ARGUMENT")
  }

  /** A handler that answers by itself with a 400: a failed validation, or an unreadable body. */
  predicate Rejects(inner: Handler, p: Problem) {
    match inner
    case Validate(reject, _) => reject == Some(p)
    case Endpoint(ops, ending) => ops == ProblemOps(400, p) && ending == Return
    case _ => false
  }

  lemma RejectionArrives(h: Handler, inner: Handler, p: Problem, flusher: bool, room: nat)
    requires Wraps(h, inner) && Rejects(inner, p) && room > 0
    ensures Exchanged(h, flusher, room) == Message(400, PROBLEM_JSON, Document(EncodeProblem(p)))
  {
    var st := NewRequest(flusher, room);
    TrackedOpsKeepSync(st, ProblemOps(400, p));
    WrappersAddNothing(h, inner, st.wire);
    ServeRefinesIdeal(h, st);
    ProblemOnWire(st.wire, 400, p);
  }

  /** A rejected list or create request reaches the client as the 400 problem, whole, and as nothing else. */
  lemma RejectionAgreement(h: Handler, inner: Handler, p: Problem, flusher: bool, room: nat)
    requires Wraps(h, inner) && Rejects(inner, p) && room > 0
    ensures ParseList(Exchanged(h, flusher, room)) == Ok(NO_LIST.(problem400 := Some(p)))
    ensures ParseCreate(Exchanged(h, flusher, room)) == Ok(NO_CREATE.(problem400 := Some(p)))
  {
    RejectionArrives(h, inner, p, flusher, room);
    BothTypesContainJson();
    ProblemRoundTrip(p);
  }

  // ---- The create exchange, both directions ----

  /** The error strictHandler.CreateNetwork reports for a body json.Decode refuses with `message`. */
  function DecodeFailure(message: string): Scrub.Error {
    Scrub.Wrapping("can't decode JSON body: " + message, Scrub.Plain(message))
  }

  /** json.Decode of a body that may not be JSON at all. */
  function DecodeBody(body: Option<Json>): Decoded<Network> {
    match body
    case None => Err(TypeMismatch)
    case Some(j) => DecodeNetwork(j)
  }

  /** strictHandler.CreateNetwork: decode the body, refuse it with 400, or hand it to the handler. */
  function CreateEndpoint(body: Option<Json>, message: string, handle: Network -> StrictResult, uri: string): Handler {
    match DecodeBody(body)
    case Err(_) => Endpoint(ProblemOps(400, BadRequest(Scrub.Detail(DecodeFailure(message)), uri)), Return)
    case Ok(n) => Strict(handle(n), uri)
  }

  lemma BadRequestSays(detail: string, uri: string)
    ensures BadRequest(detail, uri) == Problem(Some(detail), Some(uri), Some(400), "Bad Request", "INVALID_ARGUMENT")
  {
  }

  /** Exactly a body that is not JSON, or not of the shape of a network, is unreadable. */
  lemma ReadableIff(body: Option<Json>)
    ensures DecodeBody(body).Ok? <==> body.Some? && Conforms(body.value, T_NETWORK)
  {
    if body.Some? {
      NetworkAccepts(body.value);
    }
  }

  /** A body that does not decode is answered with the generic detail, whatever the decoder's own message says. */
  lemma UnreadableBody(body: Option<Json>, message: string, handle: Network -> StrictResult, layers: seq<Layer>,
                       uri: string, flusher: bool, room: nat)
    requires DecodeBody(body).Err? && room > 0
    ensures var h := Layered(layers, CreateEndpoint(body, message, handle, uri));
            ParseCreate(Exchanged(h, flusher, room)) ==
            Ok(NO_CREATE.(problem400 := Some(BadRequest("invalid request", uri))))
  {
    var inner := CreateEndpoint(body, message, handle, uri);
    Scrub.UnrecognisedIsGeneric(DecodeFailure(message));
    LayeredWraps(layers, inner);
    RejectionAgreement(Layered(layers, inner), inner, BadRequest("invalid request", uri), flusher, room);
  }

  /** Any other body reaches the handler decoded, and the client gets what the handler answers to it. */
  lemma CreateReaches(body: Json, message: string, answer: Network -> CreateReply, layers: seq<Layer>, uri: string,
                      flusher: bool, room: nat)
    requires DecodeNetwork(body).Ok? && room > 0
    ensures var handle := (n: Network) => VisitCreate(answer(n));
            var h := Layered(layers, CreateEndpoint(Some(body), message, handle, uri));
            var parsed := ParseCreate(Exchanged(h, flusher, room));
            match answer(DecodeNetwork(body).value)
            case Create201(n) => parsed == Ok(NO_CREATE.(json201 := Some(NormNetwork(n)))) <==> FaithfulSpec(n.spec)
            case Create400(p) => parsed == Ok(NO_CREATE.(problem400 := Some(p)))
            case Create409(p) => parsed == Ok(NO_CREATE.(problem409 := Some(p)))
            case Create500(p) => parsed == Ok(NO_CREATE.(problem500 := Some(p)))
  {
    var inner := CreateEndpoint(Some(body), message, (n: Network) => VisitCreate(answer(n)), uri);
    LayeredWraps(layers, inner);
    CreateAgreement(Layered(layers, inner), answer(DecodeNetwork(body).value), uri, flusher, room);
  }

  /** An error of the handler for any readable body is the internal problem at the client. */
  lemma CreateFails(body: Json, message: string, handle: Network -> StrictResult, layers: seq<Layer>, uri: string,
                    flusher: bool, room: nat)
    requires DecodeNetwork(body).Ok? && room > 0
    ensures handle(DecodeNetwork(body).value).HandlerError? ==>
              var h := Layered(layers, CreateEndpoint(Some(body), message, handle, uri));
              ParseCreate(Exchanged(h, flusher, room)) == Ok(NO_CREATE.(problem500 := Some(Internal(uri))))
  {
    var inner := CreateEndpoint(Some(body), message, handle, uri);
    if handle(DecodeNetwork(body).value).HandlerError? {
      LayeredWraps(layers, inner);
      FailureAnswer(Layered(layers, inner), handle(DecodeNetwork(body).value), uri, flusher, room);
      BothTypesContainJson();
      ProblemRoundTrip(Internal(uri));
    }
  }

  /** A handler that stores nothing and answers with the network it was given. */
  function Echo(n: Network): CreateReply {
    Create201(n)
  }

  /**
   With a handler that echoes, the client gets its own network back, in normal form, exactly when
   no additional hint shadows the kubernetes member; whatever it gets instead is not that network.
   */
  lemma CreateEchoIff(n: Network, message: string, layers: seq<Layer>, uri: string, flusher: bool, room: nat)
    requires room > 0
    ensures var handle := (x: Network) => VisitCreate(Echo(x));
            var h := Layered(layers, CreateEndpoint(Some(EncodeNetwork(n)), message, handle, uri));
            ParseCreate(Exchanged(h, flusher, room)) == Ok(NO_CREATE.(json201 := Some(NormNetwork(n)))) <==>
            FaithfulSpec(n.spec)
  {
    var body := EncodeNetwork(n);
    var handle := (x: Network) => VisitCreate(Echo(x));
    NetworkRoundTripIff(n);
    if DecodeNetwork(body).Err? {
      UnreadableBody(Some(body), message, handle, layers, uri, flusher, room);
    } else {
      DecodedNetwork(body);
      CreateReaches(body, message, Echo, layers, uri, flusher, room);
    }
  }
}
