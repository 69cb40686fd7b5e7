/**
 The response-writer stack on values: net/http's writer at the bottom, any number of status
 recorders over it, and the middlewares and handlers that write through them.
 */
module ResponseStack {
  import opened Wrappers
  import opened Json
  import opened Types
  import opened Codec

  // ---- The server's own writer, as net/http documents it ----

  /** A body write: accepted whole, or cut short by a failing connection. */
  datatype Piece = Whole(doc: Json) | Torn(doc: Json)

  /**
   header is the live header map, sent the copy taken when the status is committed, room the
   number of body writes the connection will still accept.
   */
  datatype Wire = Wire(
    flusher: bool, room: nat, header: map<string, string>,
    committed: bool, status: int, sent: map<string, string>, interim: seq<int>, body: seq<Piece>)

  predicate Final(code: int) {
    code == 101 || 200 <= code <= 999
  }

  /** Informational responses, section 15.2 of RFC 9110; net/http sends them without committing. */
  predicate Informational(code: int) {
    100 <= code <= 199 && code != 101
  }

  predicate BodyAllowed(status: int) {
    status >= 200 && status != 204 && status != 304
  }

  function Commit(w: Wire, code: int): Wire {
    w.(committed := true, status := code, sent := w.header)
  }

  /** The first final status wins; a code outside 100..999 makes an uncommitted writer panic. */
  function WireHeader(w: Wire, code: int): Wire {
    if w.committed then w
    else if Final(code) then Commit(w, code)
    else if Informational(code) then w.(interim := w.interim + [code])
    else w
  }

  predicate HeaderPanics(w: Wire, code: int) {
    !w.committed && !Final(code) && !Informational(code)
  }

  function Implicit(w: Wire): Wire {
    if w.committed then w else Commit(w, 200)
  }

  predicate WriteSucceeds(w: Wire) {
    w.room > 0 && BodyAllowed(Implicit(w).status)
  }

  function WireWrite(w: Wire, doc: Json): Wire {
    var c := Implicit(w);
    if !BodyAllowed(c.status) then c
    else if c.room > 0 then c.(room := c.room - 1, body := c.body + [Whole(doc)])
    else c.(body := c.body + [Torn(doc)])
  }

  function WireFlush(w: Wire): Wire {
    if w.flusher then Implicit(w) else w
  }

  /** What the client sees once the handler is done: an uncommitted response goes out as an empty 200. */
  function Finished(w: Wire): Wire {
    Implicit(w)
  }

  // ---- Recorders over it ----

  datatype Recorder = Recorder(wroteHeader: bool, statusCode: int)

  const FRESH := Recorder(false, 200)

  /** layers[0] writes straight to the wire, the last layer is the outermost. */
  datatype Stack = Stack(layers: seq<Recorder>, wire: Wire)

  datatype Op = SetHeader(name: string, value: string) | WriteHeader(code: int) | Write(doc: Json) | Flush

  /** What one call does to every recorder it passes through. */
  function Record(r: Recorder, op: Op): Recorder {
    match op
    case SetHeader(_, _) => r
    case WriteHeader(code) => Recorder(true, code)
    case Write(_) => Recorder(true, if r.wroteHeader then r.statusCode else 200)
    case Flush => Recorder(true, r.statusCode)
  }

  function OnWire(w: Wire, op: Op): Wire {
    match op
    case SetHeader(name, value) => w.(header := w.header[name := value])
    case WriteHeader(code) => WireHeader(w, code)
    case Write(doc) => WireWrite(w, doc)
    case Flush => WireFlush(w)
  }

  predicate Panics(w: Wire, op: Op) {
    op.WriteHeader? && HeaderPanics(w, op.code)
  }

  function RecordAll(layers: seq<Recorder>, op: Op): seq<Recorder> {
    seq(|layers|, i requires 0 <= i < |layers| => Record(layers[i], op))
  }

  function Through(st: Stack, op: Op): Stack {
    Stack(RecordAll(st.layers, op), OnWire(st.wire, op))
  }

  /** Runs the calls in order, up to and including the first that panics. */
  function ThroughAll(st: Stack, ops: seq<Op>): Stack
    decreases ops
  {
    if ops == [] then st
    else if Panics(st.wire, ops[0]) then Through(st, ops[0])
    else ThroughAll(Through(st, ops[0]), ops[1..])
  }

  predicate AnyPanics(w: Wire, ops: seq<Op>)
    decreases ops
  {
    ops != [] && (Panics(w, ops[0]) || AnyPanics(OnWire(w, ops[0]), ops[1..]))
  }

  // ---- Handlers and middlewares ----

  datatype PanicValue = AbortHandler | OtherPanic

  datatype Ending = Return | Panic(value: PanicValue)

  /** What the strict handler's function came back with; a 204 has neither content type nor document. */
  datatype StrictResult =
    | HandlerError
    | WrongType
    | NilResponse
    | Reply(status: int, content: Option<(string, Json)>)

  datatype Handler =
    | Endpoint(ops: seq<Op>, ending: Ending)
    | Strict(result: StrictResult, uri: string)
    | Validate(reject: Option<Problem>, next: Handler)
    | Logging(next: Handler)
    | Recovery(next: Handler, uri: string)

  /** The log holds one status per completed request of a logging middleware, innermost first. */
  datatype Served = Served(st: Stack, ending: Ending, logged: seq<int>)

  const PROBLEM_JSON := "application/problem+json"
  const CONTENT_TYPE := "Content-Type"

  function ProblemOps(status: int, p: Problem): seq<Op> {
    [SetHeader(CONTENT_TYPE, PROBLEM_JSON), WriteHeader(status), Write(EncodeProblem(p))]
  }

  function Internal(uri: string): Problem {
    Problem(Some("an unexpected error occurred"), Some(uri), Some(500), "Internal Server Error", "INTERNAL")
  }

  function WriteInternal(st: Stack, uri: string): Stack {
    ThroughAll(st, ProblemOps(500, Internal(uri)))
  }

  /** Visit*Response: header, status and the buffered document in one write, or a bare status. */
  function VisitOps(status: int, content: Option<(string, Json)>): seq<Op> {
    match content
    case None => [WriteHeader(status)]
    case Some(c) => [SetHeader(CONTENT_TYPE, c.0), WriteHeader(status), Write(c.1)]
  }

  /** Visit reports an error when its one body write fails. */
  predicate VisitFails(st: Stack, status: int, content: Option<(string, Json)>) {
    content.Some? && !WriteSucceeds(WireHeader(st.wire, status))
  }

  /** A reply with a status net/http rejects panics inside WriteHeader. */
  predicate StrictPanics(st: Stack, result: StrictResult) {
    result.Reply? && HeaderPanics(st.wire, result.status)
  }

  /** An error of the function, of its result's type or of the visit ends in the problem response. */
  function StrictServe(st: Stack, result: StrictResult, uri: string): Stack {
    match result
    case HandlerError => WriteInternal(st, uri)
    case WrongType => WriteInternal(st, uri)
    case NilResponse => st
    case Reply(status, content) =>
      var visited := ThroughAll(st, VisitOps(status, content));
      if !StrictPanics(st, result) && VisitFails(st, status, content) then WriteInternal(visited, uri) else visited
  }

  function Push(st: Stack): Stack {
    st.(layers := st.layers + [FRESH])
  }

  function Pop(st: Stack): Stack
    requires st.layers != []
  {
    st.(layers := st.layers[..|st.layers| - 1])
  }

  function Top(st: Stack): Recorder
    requires st.layers != []
  {
    st.layers[|st.layers| - 1]
  }

  function Serve(h: Handler, st: Stack): (r: Served)
    ensures |r.st.layers| == |st.layers|
    decreases h
  {
    match h
    case Endpoint(ops, ending) =>
      AllKeepsDepth(st, ops);
      Served(ThroughAll(st, ops), if AnyPanics(st.wire, ops) then Panic(OtherPanic) else ending, [])
    case Strict(result, uri) =>
      StrictKeepsDepth(st, result, uri);
      Served(StrictServe(st, result, uri), if StrictPanics(st, result) then Panic(OtherPanic) else Return, [])
    case Validate(reject, next) =>
      if reject.Some? then
        AllKeepsDepth(st, ProblemOps(400, reject.value));
        Served(ThroughAll(st, ProblemOps(400, reject.value)), Return, [])
      else Serve(next, st)
    case Logging(next) =>
      var r := Serve(next, Push(st));
      Served(Pop(r.st), r.ending, if r.ending.Return? then r.logged + [Top(r.st).statusCode] else r.logged)
    case Recovery(next, uri) =>
      var r := Serve(next, Push(st));
      if r.ending != Panic(OtherPanic) then r.(st := Pop(r.st))
      else if Top(r.st).wroteHeader then Served(Pop(r.st), Return, r.logged)
      else
        AllKeepsDepth(Pop(r.st), ProblemOps(500, Internal(uri)));
        Served(WriteInternal(Pop(r.st), uri), Return, r.logged)
  }

  lemma {:induction false} AllKeepsDepth(st: Stack, ops: seq<Op>)
    ensures |ThroughAll(st, ops).layers| == |st.layers|
    decreases ops
  {
    if ops != [] {
      AllKeepsDepth(Through(st, ops[0]), ops[1..]);
    }
  }

  lemma StrictKeepsDepth(st: Stack, result: StrictResult, uri: string)
    ensures |StrictServe(st, result, uri).layers| == |st.layers|
  {
    AllKeepsDepth(st, ProblemOps(500, Internal(uri)));
    if result.Reply? {
      AllKeepsDepth(st, VisitOps(result.status, result.content));
      AllKeepsDepth(ThroughAll(st, VisitOps(result.status, result.content)), ProblemOps(500, Internal(uri)));
    }
  }
}
