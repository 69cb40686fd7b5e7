/** What the recorder stack guarantees about the response on the wire, for arbitrarily nested middlewares. */
module ResponseProperties {
  import opened Wrappers
  import opened Json
  import opened Types
  import opened Codec
  import opened ResponseStack

  // ---- Recorder flags against the wire ----

  /** Every recorder's flag says whether the wire has committed a status. */
  predicate Synced(st: Stack) {
    forall i :: 0 <= i < |st.layers| ==> (st.layers[i].wroteHeader <==> st.wire.committed)
  }

  /** A call the flags follow from any synced state: a final status, or a flush the server's writer understands. */
  predicate Tracked(flusher: bool, op: Op) {
    match op
    case SetHeader(_, _) => true
    case WriteHeader(code) => Final(code)
    case Write(_) => true
    case Flush => flusher
  }

  predicate TrackedAll(flusher: bool, ops: seq<Op>) {
    forall i :: 0 <= i < |ops| ==> Tracked(flusher, ops[i])
  }

  lemma {:induction false} TrackedOpsKeepSync(st: Stack, ops: seq<Op>)
    requires Synced(st) && TrackedAll(st.wire.flusher, ops)
    ensures Synced(ThroughAll(st, ops)) && !AnyPanics(st.wire, ops)
    ensures ThroughAll(st, ops).wire.flusher == st.wire.flusher
    decreases ops
  {
    if ops != [] {
      assert Tracked(st.wire.flusher, ops[0]);
      TrackedOpsKeepSync(Through(st, ops[0]), ops[1..]);
    }
  }

  /**
   The handler and everything around it only makes tracked calls; what a rejecting validation keeps
   out is never run.
   */
  predicate WellBehaved(flusher: bool, h: Handler) {
    match h
    case Endpoint(ops, _) => TrackedAll(flusher, ops)
    case Strict(result, _) => result.Reply? ==> Final(result.status)
    case Validate(reject, next) => reject.Some? || WellBehaved(flusher, next)
    case Logging(next) => WellBehaved(flusher, next)
    case Recovery(next, _) => WellBehaved(flusher, next)
  }

  // ---- The stack refines a server without recorders ----

  datatype Plain = Plain(wire: Wire, ending: Ending)

  function WireAll(w: Wire, ops: seq<Op>): Wire
    decreases ops
  {
    if ops == [] then w
    else if Panics(w, ops[0]) then OnWire(w, ops[0])
    else WireAll(OnWire(w, ops[0]), ops[1..])
  }

  /** The intended behaviour: recovery looks at the wire itself, and there are no recorders. */
  function Ideal(h: Handler, w: Wire): Plain {
    match h
    case Endpoint(ops, ending) => Plain(WireAll(w, ops), if AnyPanics(w, ops) then Panic(OtherPanic) else ending)
    case Strict(result, uri) =>
      var bare := Stack([], w);
      Plain(StrictServe(bare, result, uri).wire, if StrictPanics(bare, result) then Panic(OtherPanic) else Return)
    case Validate(reject, next) =>
      if reject.Some? then Plain(WireAll(w, ProblemOps(400, reject.value)), Return) else Ideal(next, w)
    case Logging(next) => Ideal(next, w)
    case Recovery(next, uri) =>
      var p := Ideal(next, w);
      if p.ending != Panic(OtherPanic) then p
      else if p.wire.committed then Plain(p.wire, Return)
      else Plain(WireAll(p.wire, ProblemOps(500, Internal(uri))), Return)
  }

  lemma {:induction false} WireOfAll(st: Stack, ops: seq<Op>)
    ensures ThroughAll(st, ops).wire == WireAll(st.wire, ops)
    decreases ops
  {
    if ops != [] {
      WireOfAll(Through(st, ops[0]), ops[1..]);
    }
  }

  lemma WireOfStrict(st: Stack, result: StrictResult, uri: string)
    ensures StrictServe(st, result, uri).wire == StrictServe(Stack([], st.wire), result, uri).wire
  {
    var plain := Stack([], st.wire);
    var ops := ProblemOps(500, Internal(uri));
    WireOfAll(st, ops);
    WireOfAll(plain, ops);
    if result.Reply? {
      var visit := VisitOps(result.status, result.content);
      WireOfAll(st, visit);
      WireOfAll(plain, visit);
      WireOfAll(ThroughAll(st, visit), ops);
      WireOfAll(ThroughAll(plain, visit), ops);
    }
  }

  lemma StrictKeepsSync(st: Stack, result: StrictResult, uri: string)
    requires Synced(st) && (result.Reply? ==> Final(result.status))
    ensures Synced(StrictServe(st, result, uri)) && !StrictPanics(st, result)
    ensures StrictServe(st, result, uri).wire.flusher == st.wire.flusher
  {
    var ops := ProblemOps(500, Internal(uri));
    TrackedOpsKeepSync(st, ops);
    if result.Reply? {
      var visit := VisitOps(result.status, result.content);
      TrackedOpsKeepSync(st, visit);
      TrackedOpsKeepSync(ThroughAll(st, visit), ops);
    }
  }

  /**
   Any nesting of recovery, logging and validation around any well-behaved handler, started over
   any number of synced recorders: the recorders stay synced, and the wire and the ending are
   those of the server without recorders. Middlewares call their next handler before writing
   anything, so each new recorder starts over a wire that has committed nothing.
   */
  lemma {:induction false} ServeRefinesIdeal(h: Handler, st: Stack)
    requires Synced(st) && !st.wire.committed && WellBehaved(st.wire.flusher, h)
    ensures var r := Serve(h, st);
            && Synced(r.st) && r.st.wire.flusher == st.wire.flusher
            && Plain(r.st.wire, r.ending) == Ideal(h, st.wire)
    decreases h
  {
    match h
    case Endpoint(ops, _) =>
      TrackedOpsKeepSync(st, ops);
      WireOfAll(st, ops);
    case Strict(result, uri) =>
      StrictKeepsSync(st, result, uri);
      WireOfStrict(st, result, uri);
    case Validate(reject, next) =>
      if reject.Some? {
        TrackedOpsKeepSync(st, ProblemOps(400, reject.value));
        WireOfAll(st, ProblemOps(400, reject.value));
      } else {
        ServeRefinesIdeal(next, st);
      }
    case Logging(next) =>
      ServeRefinesIdeal(next, Push(st));
    case Recovery(next, uri) =>
      ServeRefinesIdeal(next, Push(st));
      var r := Serve(next, Push(st));
      TrackedOpsKeepSync(Pop(r.st), ProblemOps(500, Internal(uri)));
      WireOfAll(Pop(r.st), ProblemOps(500, Internal(uri)));
  }

  // ---- One final status ----

  /** Later writes never change a committed status or its headers, nor take anything back. */
  predicate Extends(w: Wire, later: Wire) {
    && (w.committed ==> later.committed && later.status == w.status && later.sent == w.sent)
    && w.body <= later.body
    && w.interim <= later.interim
  }

  lemma {:induction false} AllExtends(st: Stack, ops: seq<Op>)
    ensures Extends(st.wire, ThroughAll(st, ops).wire)
    decreases ops
  {
    if ops != [] {
      AllExtends(Through(st, ops[0]), ops[1..]);
    }
  }

  lemma StrictExtends(st: Stack, result: StrictResult, uri: string)
    ensures Extends(st.wire, StrictServe(st, result, uri).wire)
  {
    AllExtends(st, ProblemOps(500, Internal(uri)));
    if result.Reply? {
      var visited := ThroughAll(st, VisitOps(result.status, result.content));
      AllExtends(st, VisitOps(result.status, result.content));
      AllExtends(visited, ProblemOps(500, Internal(uri)));
    }
  }

  /**
   However handlers, middlewares and panics combine, and however badly the handler behaves, at most
   one final status is ever sent.
   */
  lemma {:induction false} OneFinalStatus(h: Handler, st: Stack)
    ensures Extends(st.wire, Serve(h, st).st.wire)
    decreases h
  {
    match h
    case Endpoint(ops, _) => AllExtends(st, ops);
    case Strict(result, uri) => StrictExtends(st, result, uri);
    case Validate(reject, next) =>
      if reject.Some? {
        AllExtends(st, ProblemOps(400, reject.value));
      } else {
        OneFinalStatus(next, st);
      }
    case Logging(next) => OneFinalStatus(next, Push(st));
    case Recovery(next, uri) =>
      OneFinalStatus(next, Push(st));
      AllExtends(Pop(Serve(next, Push(st)).st), ProblemOps(500, Internal(uri)));
  }

  // ---- What a sequence of calls puts on the wire ----

  /** The header map after the edits among the calls. */
  function HeadersAfter(header: map<string, string>, ops: seq<Op>): map<string, string>
    decreases ops
  {
    if ops == [] then header
    else HeadersAfter(if ops[0].SetHeader? then header[ops[0].name := ops[0].value] else header, ops[1..])
  }

  /** The informational statuses asked for, in order. */
  function Interims(ops: seq<Op>): seq<int> {
    if ops == [] then []
    else (if ops[0].WriteHeader? && Informational(ops[0].code) then [ops[0].code] else []) + Interims(ops[1..])
  }

  /** The documents written, in order. */
  function Documents(ops: seq<Op>): seq<Json> {
    if ops == [] then [] else (if ops[0].Write? then [ops[0].doc] else []) + Documents(ops[1..])
  }

  /** How they arrive on a connection that takes `room` more writes. */
  function Pieces(docs: seq<Json>, room: nat): seq<Piece> {
    if docs == [] then []
    else if room > 0 then [Whole(docs[0])] + Pieces(docs[1..], room - 1)
    else [Torn(docs[0])] + Pieces(docs[1..], 0)
  }

  predicate CommitsNow(flusher: bool, op: Op) {
    (op.WriteHeader? && Final(op.code)) || op.Write? || (op.Flush? && flusher)
  }

  lemma {:induction false} BeforeCommit(w: Wire, ops: seq<Op>)
    requires !w.committed && !AnyPanics(w, ops) && forall i :: 0 <= i < |ops| ==> !CommitsNow(w.flusher, ops[i])
    ensures WireAll(w, ops) == w.(header := HeadersAfter(w.header, ops), interim := w.interim + Interims(ops))
    decreases ops
  {
    if ops != [] {
      assert !CommitsNow(w.flusher, ops[0]);
      BeforeCommit(OnWire(w, ops[0]), ops[1..]);
    }
  }

  lemma PiecesOf(doc: Json, docs: seq<Json>, room: nat)
    ensures Pieces([doc] + docs, room) ==
            if room > 0 then [Whole(doc)] + Pieces(docs, room - 1) else [Torn(doc)] + Pieces(docs, 0)
  {
    assert ([doc] + docs)[1..] == docs;
  }

  /** One call on a committed wire: a document may be added, and otherwise only the header map changes. */
  lemma CommittedCall(w: Wire, op: Op)
    requires w.committed
    ensures var t := OnWire(w, op);
            && t.committed && t.status == w.status && t.sent == w.sent && t.interim == w.interim
            && (op.Write? && BodyAllowed(w.status) ==>
                  && t.room == (if w.room > 0 then w.room - 1 else 0)
                  && t.body == w.body + [if w.room > 0 then Whole(op.doc) else Torn(op.doc)])
            && (!op.Write? || !BodyAllowed(w.status) ==> t.room == w.room && t.body == w.body)
  {
  }

  lemma DocumentsHead(ops: seq<Op>)
    requires ops != []
    ensures Documents(ops) == if ops[0].Write? then [ops[0].doc] + Documents(ops[1..]) else Documents(ops[1..])
  {
    assert [] + Documents(ops[1..]) == Documents(ops[1..]);
  }

  lemma OneDocument(body: seq<Piece>, doc: Json, rest: seq<Json>, room: nat)
    ensures body + Pieces([doc] + rest, room) ==
            (body + [if room > 0 then Whole(doc) else Torn(doc)]) + Pieces(rest, if room > 0 then room - 1 else 0)
  {
    PiecesOf(doc, rest, room);
  }

  lemma CommittedDocuments(w: Wire, ops: seq<Op>, next: Wire, rest: seq<Json>)
    requires w.committed && BodyAllowed(w.status) && ops != []
    requires next == OnWire(w, ops[0]) && rest == Documents(ops[1..])
    ensures w.body + Pieces(Documents(ops), w.room) == next.body + Pieces(rest, next.room)
  {
    CommittedCall(w, ops[0]);
    DocumentsHead(ops);
    if ops[0].Write? {
      OneDocument(w.body, ops[0].doc, rest, w.room);
    }
  }

  lemma {:induction false} AfterCommit(w: Wire, ops: seq<Op>)
    requires w.committed
    ensures var t := WireAll(w, ops);
            && t.committed && t.status == w.status && t.sent == w.sent && t.interim == w.interim
            && t.body == w.body + if BodyAllowed(w.status) then Pieces(Documents(ops), w.room) else []
    decreases ops
  {
    if ops != [] {
      CommittedCall(w, ops[0]);
      if BodyAllowed(w.status) {
        CommittedDocuments(w, ops, OnWire(w, ops[0]), Documents(ops[1..]));
      }
      AfterCommit(OnWire(w, ops[0]), ops[1..]);
    }
  }

  lemma {:induction false} WireAllSplits(w: Wire, a: seq<Op>, b: seq<Op>)
    requires !AnyPanics(w, a)
    ensures WireAll(w, a + b) == WireAll(WireAll(w, a), b)
    decreases a
  {
    if a == [] {
      assert a + b == b;
    } else {
      assert (a + b)[1..] == a[1..] + b;
      WireAllSplits(OnWire(w, a[0]), a[1..], b);
    }
  }

  /** From the committing call on: the status it brings, the headers as they are, and the documents. */
  lemma FromCommit(w: Wire, ops: seq<Op>)
    requires !w.committed && ops != [] && CommitsNow(w.flusher, ops[0])
    ensures var t := WireAll(w, ops);
            && t.committed && t.status == (if ops[0].WriteHeader? then ops[0].code else 200)
            && t.sent == w.header && t.interim == w.interim
            && t.body == w.body + if BodyAllowed(t.status) then Pieces(Documents(ops), w.room) else []
  {
    var c := Commit(w, if ops[0].WriteHeader? then ops[0].code else 200);
    if ops[0].Write? {
      AfterCommit(c, ops);
      assert OnWire(c, ops[0]) == OnWire(w, ops[0]);
    } else {
      assert OnWire(w, ops[0]) == c;
      AfterCommit(c, ops[1..]);
      assert Documents(ops) == Documents(ops[1..]);
    }
  }

  /**
   The response is decided by the first call that commits, `c`: its status, the headers as edited
   before it, the informational responses before it, and the documents written from it on.
   */
  lemma ResponseIs(w: Wire, pre: seq<Op>, c: Op, post: seq<Op>)
    requires !w.committed && !AnyPanics(w, pre) && CommitsNow(w.flusher, c)
    requires forall i :: 0 <= i < |pre| ==> !CommitsNow(w.flusher, pre[i])
    ensures var t := WireAll(w, pre + ([c] + post));
            && t.committed && t.status == (if c.WriteHeader? then c.code else 200)
            && t.sent == HeadersAfter(w.header, pre) && t.interim == w.interim + Interims(pre)
            && t.body == w.body + if BodyAllowed(t.status) then Pieces(Documents([c] + post), w.room) else []
  {
    BeforeCommit(w, pre);
    WireAllSplits(w, pre, [c] + post);
    FromCommit(WireAll(w, pre), [c] + post);
  }

  // ---- Exactly when the flags track the wire ----

  ghost predicate AlwaysSynced(st: Stack, ops: seq<Op>) {
    forall k :: 0 <= k <= |ops| ==> Synced(ThroughAll(st, ops[..k]))
  }

  /** The first call that is not a header edit, if there is one, is tracked. */
  predicate FirstCallTracked(flusher: bool, ops: seq<Op>)
    decreases ops
  {
    ops == [] || if ops[0].SetHeader? then FirstCallTracked(flusher, ops[1..]) else Tracked(flusher, ops[0])
  }

  lemma {:induction false} CommittedStaysSynced(st: Stack, ops: seq<Op>)
    requires Synced(st) && st.wire.committed
    ensures Synced(ThroughAll(st, ops))
    decreases ops
  {
    if ops != [] {
      CommittedStaysSynced(Through(st, ops[0]), ops[1..]);
    }
  }

  /**
   For any positive number of recorders over an uncommitted wire: the flags agree with the wire after
   every call exactly when the first call is tracked.
   */
  lemma {:induction false} SyncedIffFirstCallTracked(st: Stack, ops: seq<Op>)
    requires Synced(st) && !st.wire.committed && st.layers != []
    ensures AlwaysSynced(st, ops) <==> FirstCallTracked(st.wire.flusher, ops)
    decreases ops
  {
    if ops != [] {
      var next := Through(st, ops[0]);
      assert ThroughAll(st, ops[..1]) == next;
      if ops[0].SetHeader? {
        SyncedIffFirstCallTracked(next, ops[1..]);
        forall k | 1 <= k <= |ops| ensures ThroughAll(st, ops[..k]) == ThroughAll(next, ops[1..][..k - 1]) {
          assert ops[..k][1..] == ops[1..][..k - 1];
        }
        if AlwaysSynced(st, ops) {
          forall k | 0 <= k <= |ops[1..]| ensures Synced(ThroughAll(next, ops[1..][..k])) {
            assert ThroughAll(st, ops[..k + 1]) == ThroughAll(next, ops[1..][..k]);
          }
        }
      } else if Tracked(st.wire.flusher, ops[0]) {
        forall k | 1 <= k <= |ops| ensures Synced(ThroughAll(st, ops[..k])) {
          CommittedStaysSynced(next, ops[..k][1..]);
        }
      } else {
        assert next.layers[0].wroteHeader && !next.wire.committed;
      }
    }
  }

  // ---- What a panic leaves on the wire ----

  /** The handler touched nothing but the header map. */
  predicate NoCalls(ops: seq<Op>) {
    forall i :: 0 <= i < |ops| ==> ops[i].SetHeader?
  }

  lemma {:induction false} TopTellsCalls(st: Stack, ops: seq<Op>)
    requires st.layers != []
    ensures |ThroughAll(st, ops).layers| == |st.layers|
    ensures Top(ThroughAll(st, ops)).wroteHeader <==> Top(st).wroteHeader || !NoCalls(ops)
    decreases ops
  {
    AllKeepsDepth(st, ops);
    if ops != [] {
      TopTellsCalls(Through(st, ops[0]), ops[1..]);
      assert NoCalls(ops) <==> ops[0].SetHeader? && NoCalls(ops[1..]) by {
        assert ops == [ops[0]] + ops[1..];
      }
    }
  }

  lemma {:induction false} HeaderEditsOnly(w: Wire, ops: seq<Op>)
    requires NoCalls(ops)
    ensures var t := WireAll(w, ops); t == w.(header := t.header)
    decreases ops
  {
    if ops != [] {
      HeaderEditsOnly(OnWire(w, ops[0]), ops[1..]);
    }
  }

  lemma {:induction false} UncommittedHasNoBody(w: Wire, ops: seq<Op>)
    ensures !WireAll(w, ops).committed ==> WireAll(w, ops).body == w.body && !w.committed
    decreases ops
  {
    if ops != [] {
      UncommittedHasNoBody(OnWire(w, ops[0]), ops[1..]);
    }
  }

  /** The handler under the logging middlewares and passing validations that New puts below recovery. */
  function Innermost(h: Handler): Handler {
    match h
    case Logging(next) => Innermost(next)
    case Validate(reject, next) => if reject.None? then Innermost(next) else h
    case _ => h
  }

  /** A recorder pushed before the calls and popped after them changes nothing below. */
  lemma {:induction false} PopAfterPush(st: Stack, top: Recorder, ops: seq<Op>)
    ensures var r := ThroughAll(st.(layers := st.layers + [top]), ops);
            r.layers != [] && Pop(r) == ThroughAll(st, ops)
    decreases ops
  {
    if ops != [] {
      var op := ops[0];
      var next := Through(st, op);
      assert Through(st.(layers := st.layers + [top]), op) == next.(layers := next.layers + [Record(top, op)]);
      PopAfterPush(next, Record(top, op), ops[1..]);
    }
  }

  lemma {:induction false} InnermostIdeal(h: Handler, w: Wire)
    ensures Ideal(h, w) == Ideal(Innermost(h), w)
  {
    match h
    case Logging(next) => InnermostIdeal(next, w);
    case Validate(reject, next) =>
      if reject.None? {
        InnermostIdeal(next, w);
      }
    case _ =>
  }

  /**
   Under logging and passing validations: an endpoint that panics, by itself or over a rejected
   status, or a strict handler whose reply has a rejected status.
   */
  predicate HandlerPanics(h: Handler, w: Wire) {
    match Innermost(h)
    case Endpoint(ops, ending) => ending == Panic(OtherPanic) || AnyPanics(w, ops)
    case Strict(result, _) => result.Reply? && HeaderPanics(w, result.status)
    case _ => false
  }

  /** What it called. */
  function Calls(h: Handler): seq<Op> {
    match Innermost(h)
    case Endpoint(ops, _) => ops
    case Strict(result, _) => if result.Reply? then VisitOps(result.status, result.content) else []
    case _ => []
  }

  /** The calls and the panic pass through the middlewares unchanged, and no middleware logs the request. */
  lemma {:induction false} PanicPasses(h: Handler, st: Stack)
    requires HandlerPanics(h, st.wire)
    ensures var r := Serve(h, st);
            r.st == ThroughAll(st, Calls(h)) && r.ending == Panic(OtherPanic) && r.logged == []
    decreases h
  {
    match h
    case Endpoint(_, _) =>
    case Strict(_, _) =>
    case Validate(_, next) => PanicPasses(next, st);
    case Logging(next) =>
      PanicPasses(next, Push(st));
      PopAfterPush(st, FRESH, Calls(h));
  }

  /** How many logging middlewares are around the innermost handler. */
  function Loggings(h: Handler): nat {
    match h
    case Logging(next) => 1 + Loggings(next)
    case Validate(reject, next) => if reject.None? then Loggings(next) else 0
    case _ => 0
  }

  lemma {:induction false} EndpointServes(h: Handler, st: Stack)
    requires Innermost(h).Endpoint?
    ensures Serve(h, st).st == ThroughAll(st, Innermost(h).ops)
    ensures Serve(h, st).ending ==
            if AnyPanics(st.wire, Innermost(h).ops) then Panic(OtherPanic) else Innermost(h).ending
    decreases h
  {
    match h
    case Endpoint(_, _) =>
    case Validate(_, next) => EndpointServes(next, st);
    case Logging(next) =>
      EndpointServes(next, Push(st));
      PopAfterPush(st, FRESH, Innermost(h).ops);
  }

  lemma IdealPanic(h: Handler, w: Wire)
    requires HandlerPanics(h, w)
    ensures Ideal(h, w) == Plain(WireAll(w, Calls(h)), Panic(OtherPanic))
  {
    InnermostIdeal(h, w);
    WireOfAll(Stack([], w), Calls(h));
  }

  /** Among well-behaved handlers these are exactly the ones a panic comes out of. */
  lemma {:induction false} PanickingHandlers(h: Handler, w: Wire)
    requires WellBehaved(w.flusher, h)
    ensures Ideal(h, w).ending == Panic(OtherPanic) <==> HandlerPanics(h, w)
  {
    match h
    case Logging(next) => PanickingHandlers(next, w);
    case Validate(reject, next) =>
      if reject.None? {
        PanickingHandlers(next, w);
      }
    case _ =>
  }

  /** The wire after a request to a handler under the recovery middleware. */
  function PanicRun(st: Stack, h: Handler, uri: string): Wire {
    Serve(Recovery(h, uri), st).st.wire
  }

  lemma PanicRunIs(st: Stack, h: Handler, uri: string)
    requires HandlerPanics(h, st.wire)
    ensures PanicRun(st, h, uri) ==
            if NoCalls(Calls(h)) then WireAll(WireAll(st.wire, Calls(h)), ProblemOps(500, Internal(uri)))
            else WireAll(st.wire, Calls(h))
  {
    var r := Serve(h, Push(st));
    PanicPasses(h, Push(st));
    assert r.st == ThroughAll(Push(st), Calls(h)) && r.ending == Panic(OtherPanic);
    TopTellsCalls(Push(st), Calls(h));
    WireOfAll(Push(st), Calls(h));
    WireOfAll(Pop(r.st), ProblemOps(500, Internal(uri)));
  }

  // ---- What comes out of recovery ----

  /** Recovery lets nothing but an abort out, and logs nothing of its own. */
  lemma RecoveryCatches(h: Handler, st: Stack, uri: string)
    ensures var inner := Serve(h, Push(st)); var r := Serve(Recovery(h, uri), st);
            && r.ending == (if inner.ending == Panic(AbortHandler) then inner.ending else Return)
            && r.logged == inner.logged
  {
    match Serve(h, Push(st)).ending
    case Return =>
    case Panic(AbortHandler) =>
    case Panic(OtherPanic) =>
  }

  /** The handler under middlewares of all kinds that let the request pass. */
  function Core(h: Handler): Handler {
    match h
    case Logging(next) => Core(next)
    case Recovery(next, _) => Core(next)
    case Validate(reject, next) => if reject.None? then Core(next) else h
    case _ => h
  }

  /**
   An intended abort comes out of any nesting, whatever was written before it, and nothing is added
   to the response.
   */
  lemma {:induction false} AbortPasses(h: Handler, ops: seq<Op>, st: Stack)
    requires Core(h) == Endpoint(ops, Panic(AbortHandler)) && !AnyPanics(st.wire, ops)
    ensures var r := Serve(h, st);
            r.st == ThroughAll(st, ops) && r.ending == Panic(AbortHandler) && r.logged == []
    decreases h
  {
    match h
    case Endpoint(_, _) =>
    case Validate(_, next) => AbortPasses(next, ops, st);
    case Logging(next) =>
      AbortPasses(next, ops, Push(st));
      PopAfterPush(st, FRESH, ops);
    case Recovery(next, _) =>
      AbortPasses(next, ops, Push(st));
      PopAfterPush(st, FRESH, ops);
  }

  // ---- Which sequences of calls commit ----

  /**
   Decided on the calls alone: header edits, informational statuses and flushes the server's writer
   does not know change nothing; a final status, a body write or a flush it knows commits; a
   rejected status panics.
   */
  predicate Commits(flusher: bool, ops: seq<Op>)
    decreases ops
  {
    ops != [] &&
    match ops[0]
    case SetHeader(_, _) => Commits(flusher, ops[1..])
    case WriteHeader(code) => Final(code) || (Informational(code) && Commits(flusher, ops[1..]))
    case Write(_) => true
    case Flush => flusher || Commits(flusher, ops[1..])
  }

  lemma {:induction false} CommittedStays(w: Wire, ops: seq<Op>)
    requires w.committed
    ensures WireAll(w, ops).committed
    decreases ops
  {
    if ops != [] {
      CommittedStays(OnWire(w, ops[0]), ops[1..]);
    }
  }

  lemma {:induction false} CommitsIff(w: Wire, ops: seq<Op>)
    requires !w.committed
    ensures WireAll(w, ops).committed <==> Commits(w.flusher, ops)
    decreases ops
  {
    if ops != [] && !Panics(w, ops[0]) {
      var next := OnWire(w, ops[0]);
      if next.committed {
        CommittedStays(next, ops[1..]);
      } else {
        CommitsIff(next, ops[1..]);
      }
    }
  }

  /**
   No call before the panic: exactly one response, 500 problem+json whatever Content-Type the
   handler had set. Something committed: recovery adds nothing.
   */
  lemma PanicAnswer(st: Stack, h: Handler, uri: string)
    requires HandlerPanics(h, st.wire) && !st.wire.committed && st.wire.room > 0
    ensures var w := PanicRun(st, h, uri);
            && (NoCalls(Calls(h)) ==>
                  && w.committed && w.status == 500
                  && CONTENT_TYPE in w.sent && w.sent[CONTENT_TYPE] == PROBLEM_JSON
                  && w.body == st.wire.body + [Whole(EncodeProblem(Internal(uri)))])
            && (Commits(st.wire.flusher, Calls(h)) ==> w.committed && w == WireAll(st.wire, Calls(h)))
  {
    PanicRunIs(st, h, uri);
    CommitsIff(st.wire, Calls(h));
    if NoCalls(Calls(h)) {
      HeaderEditsOnly(st.wire, Calls(h));
      ProblemOnWire(WireAll(st.wire, Calls(h)), 500, Internal(uri));
    }
  }

  /** A well-behaved handler whose panic leaves the wire uncommitted is always answered with the 500. */
  lemma WellBehavedPanicAnswer(st: Stack, h: Handler, uri: string)
    requires !st.wire.committed && st.wire.room > 0 && WellBehaved(st.wire.flusher, h)
    requires Ideal(h, st.wire).ending == Panic(OtherPanic) && !Ideal(h, st.wire).wire.committed
    ensures NoCalls(Calls(h))
    ensures var w := PanicRun(st, h, uri);
            && w.committed && w.status == 500
            && CONTENT_TYPE in w.sent && w.sent[CONTENT_TYPE] == PROBLEM_JSON
            && w.body == st.wire.body + [Whole(EncodeProblem(Internal(uri)))]
  {
    PanickingHandlers(h, st.wire);
    InnermostIdeal(h, st.wire);
    InnermostBehaves(h, st.wire.flusher);
    CommitsIff(st.wire, Calls(h));
    TrackedCommitsIff(st.wire.flusher, Calls(h));
    PanicAnswer(st, h, uri);
  }

  lemma {:induction false} InnermostBehaves(h: Handler, flusher: bool)
    requires WellBehaved(flusher, h)
    ensures WellBehaved(flusher, Innermost(h))
  {
    match h
    case Logging(next) => InnermostBehaves(next, flusher);
    case Validate(reject, next) =>
      if reject.None? {
        InnermostBehaves(next, flusher);
      }
    case _ =>
  }

  /** Tracked calls commit unless there are none. */
  lemma {:induction false} TrackedCommitsIff(flusher: bool, ops: seq<Op>)
    requires TrackedAll(flusher, ops)
    ensures Commits(flusher, ops) <==> !NoCalls(ops)
    decreases ops
  {
    if ops != [] {
      assert Tracked(flusher, ops[0]);
      TrackedCommitsIff(flusher, ops[1..]);
      assert NoCalls(ops) <==> ops[0].SetHeader? && NoCalls(ops[1..]) by {
        assert ops == [ops[0]] + ops[1..];
      }
    }
  }

  lemma WireThree(w: Wire, ops: seq<Op>)
    requires |ops| == 3 && ops[0].SetHeader? && ops[1].WriteHeader? && ops[2].Write? && Final(ops[1].code)
    ensures WireAll(w, ops) == OnWire(OnWire(OnWire(w, ops[0]), ops[1]), ops[2])
  {
    var w2 := OnWire(OnWire(w, ops[0]), ops[1]);
    assert ops[1..][1..] == [ops[2]] && [ops[2]][1..] == [];
    assert WireAll(w2, [ops[2]]) == OnWire(w2, ops[2]);
  }

  lemma ProblemOnWire(w: Wire, status: int, p: Problem)
    requires !w.committed && Final(status) && BodyAllowed(status) && w.room > 0
    ensures var t := WireAll(w, ProblemOps(status, p));
            && t.committed && t.status == status && CONTENT_TYPE in t.sent && t.sent[CONTENT_TYPE] == PROBLEM_JSON
            && t.body == w.body + [Whole(EncodeProblem(p))]
  {
    WireThree(w, ProblemOps(status, p));
  }

  /**
   The promise that an unstarted response becomes a 500 holds exactly when the handler made no call
   or its calls commit: with only informational statuses and flushes the server cannot do, or with
   a rejected status before any commit, the response counts as started although nothing was.
   */
  lemma PanicPromiseIff(st: Stack, h: Handler, uri: string)
    requires HandlerPanics(h, st.wire) && !st.wire.committed
    ensures PanicRun(st, h, uri) == Ideal(Recovery(h, uri), st.wire).wire <==>
            NoCalls(Calls(h)) || Commits(st.wire.flusher, Calls(h))
    ensures !(NoCalls(Calls(h)) || Commits(st.wire.flusher, Calls(h))) ==>
              var seen := Finished(PanicRun(st, h, uri)); seen.status == 200 && seen.body == st.wire.body
  {
    var ops := Calls(h);
    PanicRunIs(st, h, uri);
    IdealPanic(h, st.wire);
    CommitsIff(st.wire, ops);
    UncommittedHasNoBody(st.wire, ops);
    var w := WireAll(st.wire, ops);
    if NoCalls(ops) {
      HeaderEditsOnly(st.wire, ops);
    } else if !w.committed {
      ProblemCommits(w, Internal(uri));
    }
  }

  lemma ProblemCommits(w: Wire, p: Problem)
    ensures WireAll(w, ProblemOps(500, p)).committed
  {
    WireThree(w, ProblemOps(500, p));
  }

  /** The smallest witnesses: an informational or too small status, then a panic. */
  lemma EarlyHintsThenPanic(st: Stack, h: Handler, uri: string, code: int)
    requires Innermost(h) == Endpoint([WriteHeader(code)], Panic(OtherPanic))
    requires !st.wire.committed && (Informational(code) || code < 100)
    ensures Finished(PanicRun(st, h, uri)).status == 200
  {
    var ops := Calls(h);
    assert ops[0] == WriteHeader(code) && !NoCalls(ops);
    assert !Commits(st.wire.flusher, ops[1..]);
    PanicPromiseIff(st, h, uri);
  }

  // ---- The access log ----

  /** The code of the last WriteHeader, 200 without one. */
  function LastCode(ops: seq<Op>): int {
    if ops == [] then 200
    else if ops[|ops| - 1].WriteHeader? then ops[|ops| - 1].code
    else LastCode(ops[..|ops| - 1])
  }

  /** One more call that does not panic, seen from the top recorder. */
  lemma TopAfterOne(st: Stack, ops: seq<Op>, last: Op)
    requires st.layers != [] && !AnyPanics(st.wire, ops + [last])
    ensures !AnyPanics(st.wire, ops)
    ensures |ThroughAll(st, ops).layers| == |ThroughAll(st, ops + [last]).layers| == |st.layers|
    ensures Top(ThroughAll(st, ops + [last])) == Record(Top(ThroughAll(st, ops)), last)
  {
    AllSplits(st, ops, last);
    AllKeepsDepth(st, ops);
  }

  /** A fresh recorder ends up with the last code asked for, and a flag that tells whether anything was called. */
  lemma {:induction false} TopRecordsLastCode(st: Stack, ops: seq<Op>)
    requires !AnyPanics(st.wire, ops)
    ensures |ThroughAll(Push(st), ops).layers| == |st.layers| + 1
    ensures Top(ThroughAll(Push(st), ops)).statusCode == LastCode(ops)
    ensures Top(ThroughAll(Push(st), ops)).wroteHeader <==> !NoCalls(ops)
    decreases |ops|
  {
    TopTellsCalls(Push(st), ops);
    if ops != [] {
      var before, last := ops[..|ops| - 1], ops[|ops| - 1];
      assert ops == before + [last];
      TopAfterOne(Push(st), before, last);
      TopRecordsLastCode(st, before);
      if last.Write? && NoCalls(before) {
        NoCallsNoCode(before);
      }
    }
  }

  lemma {:induction false} NoCallsNoCode(ops: seq<Op>)
    requires NoCalls(ops)
    ensures LastCode(ops) == 200
  {
    if ops != [] {
      NoCallsNoCode(ops[..|ops| - 1]);
    }
  }

  lemma {:induction false} AllSplits(st: Stack, ops: seq<Op>, last: Op)
    requires !AnyPanics(st.wire, ops + [last])
    ensures !AnyPanics(st.wire, ops)
    ensures ThroughAll(st, ops + [last]) == Through(ThroughAll(st, ops), last)
    decreases ops
  {
    if ops == [] {
      assert ops + [last] == [last] && [last][1..] == [];
    } else {
      assert (ops + [last])[1..] == ops[1..] + [last];
      AllSplits(Through(st, ops[0]), ops[1..], last);
    }
  }

  /** The logged status is the last one the handler asked for. */
  lemma LoggedIsLastCode(st: Stack, ops: seq<Op>)
    requires !AnyPanics(st.wire, ops)
    ensures Serve(Logging(Endpoint(ops, Return)), st).logged == [LastCode(ops)]
  {
    TopRecordsLastCode(st, ops);
  }

  /**
   For any endpoint under any logging and passing validations: a request is logged, by every
   logging middleware and with the last code asked for, exactly when the endpoint returns; a panic
   leaves no line at all.
   */
  lemma {:induction false} LoggedIffReturns(h: Handler, st: Stack)
    requires Innermost(h).Endpoint?
    ensures var ops := Innermost(h).ops;
            var logs := Innermost(h).ending.Return? && !AnyPanics(st.wire, ops);
            Serve(h, st).logged == if logs then seq(Loggings(h), _ => LastCode(ops)) else []
    decreases h
  {
    match h
    case Endpoint(_, _) =>
    case Validate(_, next) => LoggedIffReturns(next, st);
    case Logging(next) =>
      var ops := Innermost(h).ops;
      LoggedIffReturns(next, Push(st));
      EndpointServes(next, Push(st));
      if Innermost(h).ending.Return? && !AnyPanics(st.wire, ops) {
        TopRecordsLastCode(st, ops);
        assert seq(Loggings(next), _ => LastCode(ops)) + [LastCode(ops)] == seq(Loggings(h), _ => LastCode(ops));
      }
  }

  /** What the access log shows for a strict handler on an uncommitted wire. */
  function StrictLog(result: StrictResult, writable: bool): int {
    match result
    case NilResponse => 200
    case Reply(status, content) => if content.None? || (writable && BodyAllowed(status)) then status else 500
    case _ => 500
  }

  /** The status the client gets from it. */
  function StrictStatus(result: StrictResult): int {
    match result
    case NilResponse => 200
    case Reply(status, _) => status
    case _ => 500
  }

  lemma ReplyVisited(st: Stack, status: int, content: (string, Json), uri: string)
    requires !st.wire.committed && Final(status) && st.layers != []
    ensures var t := StrictServe(st, Reply(status, Some(content)), uri);
            && |t.layers| == |st.layers| && t.wire.committed && t.wire.status == status
            && Top(t).statusCode == if st.wire.room > 0 && BodyAllowed(status) then status else 500
  {
    var visit := VisitOps(status, Some(content));
    TopAfterThree(st, visit);
    TopAfterThree(ThroughAll(st, visit), ProblemOps(500, Internal(uri)));
  }

  lemma ReplyIsLogged(st: Stack, status: int, content: (string, Json), uri: string)
    requires !st.wire.committed && Final(status)
    ensures var result := Reply(status, Some(content));
            var r := Serve(Logging(Strict(result, uri)), st);
            && r.logged == [StrictLog(result, st.wire.room > 0)]
            && r.ending == Return && Finished(r.st.wire).status == status
  {
    ReplyVisited(Push(st), status, content, uri);
  }

  /** The one line and the one status. */
  lemma StrictIsLogged(st: Stack, result: StrictResult, uri: string)
    requires !st.wire.committed && (result.Reply? ==> Final(result.status))
    ensures var r := Serve(Logging(Strict(result, uri)), st);
            && r.logged == [StrictLog(result, st.wire.room > 0)]
            && r.ending == Return && Finished(r.st.wire).status == StrictStatus(result)
  {
    var pushed := Push(st);
    match result
    case NilResponse =>
    case Reply(status, Some(content)) => ReplyIsLogged(st, status, content, uri);
    case Reply(status, None) =>
      assert VisitOps(status, None)[1..] == [];
      assert ThroughAll(pushed, VisitOps(status, None)) == Through(pushed, WriteHeader(status));
    case _ => TopAfterThree(pushed, ProblemOps(500, Internal(uri)));
  }

  /**
   For a strict handler the log and the wire agree exactly when the reply has no body, its body was
   written, or its status was 500 already: after a failed body write the error handler's 500 is
   logged while the client has the original status.
   */
  lemma LoggedStatusIff(st: Stack, result: StrictResult, uri: string)
    requires !st.wire.committed && (result.Reply? ==> Final(result.status))
    ensures var r := Serve(Logging(Strict(result, uri)), st);
            && r.ending == Return && |r.logged| == 1
            && (r.logged[0] == Finished(r.st.wire).status <==>
                (result.Reply? && result.content.Some? ==>
                   (st.wire.room > 0 && BodyAllowed(result.status)) || result.status == 500))
  {
    StrictIsLogged(st, result, uri);
  }

  /** The middlewares as New nests them: recovery outside, then logging, then validation. */
  function Nested(reject: Option<Problem>, inner: Handler, uri: string): Handler {
    Recovery(Logging(Validate(reject, inner)), uri)
  }

  /** One line for every request that is rejected or whose handler returns, with the status it asked for last. */
  lemma RequestLog(st: Stack, reject: Option<Problem>, inner: Handler, uri: string)
    requires !st.wire.committed && (inner.Strict? && inner.result.Reply? ==> Final(inner.result.status))
    ensures var logged := Serve(Nested(reject, inner, uri), st).logged;
            && (reject.Some? ==> logged == [400])
            && (reject.None? && inner.Strict? ==> logged == [StrictLog(inner.result, st.wire.room > 0)])
            && (reject.None? && inner.Endpoint? ==>
                  logged ==
                  if inner.ending.Return? && !AnyPanics(st.wire, inner.ops) then [LastCode(inner.ops)] else [])
  {
    var h := Logging(Validate(reject, inner));
    RecoveryCatches(h, st, uri);
    if reject.Some? {
      TopAfterThree(Push(Push(st)), ProblemOps(400, reject.value));
    } else if inner.Strict? {
      StrictIsLogged(Push(st), inner.result, inner.uri);
      assert Serve(h, Push(st)) == Serve(Logging(inner), Push(st));
    } else if inner.Endpoint? {
      assert Innermost(Validate(reject, inner)) == inner && Loggings(Validate(reject, inner)) == 0;
      LoggedIffReturns(h, Push(st));
    }
  }

  /**
   After a header edit, a status and a write, the top recorder has the status; the wire has it only
   if it was first.
   */
  lemma TopAfterThree(st: Stack, ops: seq<Op>)
    requires |ops| == 3 && ops[0].SetHeader? && ops[1].WriteHeader? && ops[2].Write? && Final(ops[1].code)
    requires st.layers != []
    ensures var t := ThroughAll(st, ops);
            && |t.layers| == |st.layers| && Top(t) == Recorder(true, ops[1].code)
            && t.wire.committed && t.wire.status == if st.wire.committed then st.wire.status else ops[1].code
  {
    ThreeOps(st, ops);
  }

  lemma ThreeOps(st: Stack, ops: seq<Op>)
    requires |ops| == 3 && ops[0].SetHeader? && ops[1].WriteHeader? && ops[2].Write? && Final(ops[1].code)
    ensures ThroughAll(st, ops) == Through(Through(Through(st, ops[0]), ops[1]), ops[2])
  {
    assert ops[1..][1..] == [ops[2]] && ops[1..][1..][1..] == [];
    var st2 := Through(Through(st, ops[0]), ops[1]);
    assert ThroughAll(st2, [ops[2]]) == Through(st2, ops[2]);
  }
}
