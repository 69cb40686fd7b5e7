/**
 The response writers and middlewares as the objects they are: a base writer with mutable state,
 recorder objects each holding the writer it wraps, and middlewares that allocate a recorder, call
 the next handler and read the recorder's fields. Each method is proved against the value-level
 stack.
 */
module Recorders {
  import opened Wrappers
  import opened Json
  import opened Types
  import opened Codec
  import opened ResponseStack

  class BaseWriter {
    const flusher: bool
    var room: nat
    var header: map<string, string>
    var committed: bool
    var status: int
    var sent: map<string, string>
    var interim: seq<int>
    var body: seq<Piece>

    ghost function View(): Wire
      reads this
    {
      Wire(flusher, room, header, committed, status, sent, interim, body)
    }

    constructor (flusher: bool, room: nat)
      ensures View() == Wire(flusher, room, map[], false, 0, map[], [], [])
    {
      this.flusher, this.room := flusher, room;
      header, committed, status, sent, interim, body := map[], false, 0, map[], [], [];
    }

    method SetHeader(name: string, value: string)
      modifies this
      ensures View() == OnWire(old(View()), Op.SetHeader(name, value))
    {
      header := header[name := value];
    }

    method WriteHeader(code: int) returns (panicked: bool)
      modifies this
      ensures View() == WireHeader(old(View()), code)
      ensures panicked == HeaderPanics(old(View()), code)
    {
      panicked := false;
      if committed {
        return;
      }
      if code < 100 || code > 999 {
        return true;
      }
      if 100 <= code <= 199 && code != 101 {
        interim := interim + [code];
        return;
      }
      committed, status, sent := true, code, header;
    }

    method Write(doc: Json) returns (ok: bool)
      modifies this
      ensures View() == WireWrite(old(View()), doc)
      ensures ok == WriteSucceeds(old(View()))
    {
      if !committed {
        committed, status, sent := true, 200, header;
      }
      if !BodyAllowed(status) {
        return false;
      }
      ok := room > 0;
      if ok {
        room, body := room - 1, body + [Whole(doc)];
      } else {
        body := body + [Torn(doc)];
      }
    }

    method Flush()
      modifies this
      ensures View() == WireFlush(old(View()))
    {
      if flusher && !committed {
        committed, status, sent := true, 200, header;
      }
    }
  }

  /** An http.ResponseWriter: the server's own, or a recorder over another. */
  datatype Writer = Base(b: BaseWriter) | Recording(r: RecorderObject) {

    /** The recorders from the innermost to this one. */
    ghost function Chain(): seq<RecorderObject> {
      match this case Base(_) => [] case Recording(r) => r.chain
    }

    ghost function Bottom(): BaseWriter {
      match this case Base(b) => b case Recording(r) => r.base
    }

    ghost function Objects(): set<object> {
      ObjectsOf(Chain(), Bottom())
    }

    ghost predicate Valid() {
      Recording? ==> r.WellLinked()
    }

    ghost function View(): Stack
      reads Chain(), Bottom()
    {
      ViewOf(Chain(), Bottom())
    }

    method SetHeader(name: string, value: string)
      requires Valid()
      modifies Objects()
      ensures View() == Through(old(View()), Op.SetHeader(name, value))
      decreases |Chain()|, 1
    {
      match this
      case Base(b) => b.SetHeader(name, value);
      case Recording(r) => r.SetHeader(name, value);
    }

    method WriteHeader(code: int) returns (panicked: bool)
      requires Valid()
      modifies Objects()
      ensures View() == Through(old(View()), Op.WriteHeader(code))
      ensures panicked == HeaderPanics(old(View()).wire, code)
      decreases |Chain()|, 1
    {
      match this
      case Base(b) => panicked := b.WriteHeader(code);
      case Recording(r) => panicked := r.WriteHeader(code);
    }

    method Write(doc: Json) returns (ok: bool)
      requires Valid()
      modifies Objects()
      ensures View() == Through(old(View()), Op.Write(doc))
      ensures ok == WriteSucceeds(old(View()).wire)
      decreases |Chain()|, 1
    {
      match this
      case Base(b) => ok := b.Write(doc);
      case Recording(r) => ok := r.Write(doc);
    }

    method Flush()
      requires Valid()
      modifies Objects()
      ensures View() == Through(old(View()), Op.Flush)
      decreases |Chain()|, 1
    {
      match this
      case Base(b) => b.Flush();
      case Recording(r) => r.Flush();
    }
  }

  ghost function ObjectsOf(chain: seq<RecorderObject>, base: BaseWriter): set<object> {
    (set r: RecorderObject | r in chain :: r as object) + {base as object}
  }

  lemma ObjectsGrow(chain: seq<RecorderObject>, r: RecorderObject, base: BaseWriter)
    ensures ObjectsOf(chain + [r], base) == ObjectsOf(chain, base) + {r}
  {
    var longer := chain + [r];
    forall o: RecorderObject | o in longer ensures o in chain || o == r {
    }
    assert r in longer && forall o :: o in chain ==> o in longer;
  }

  /** A call on a stack is the call on the stack below its top, and the top's own bookkeeping. */
  lemma ThroughTop(below: Stack, top: Recorder, op: Op)
    ensures Through(Stack(below.layers + [top], below.wire), op) ==
            Stack(Through(below, op).layers + [Record(top, op)], Through(below, op).wire)
  {
  }

  ghost function ViewOf(chain: seq<RecorderObject>, base: BaseWriter): Stack
    reads chain, base
  {
    Stack(Flags(chain), base.View())
  }

  ghost function Flags(chain: seq<RecorderObject>): (s: seq<Recorder>)
    reads chain
    ensures |s| == |chain|
    ensures forall i :: 0 <= i < |chain| ==> s[i] == Recorder(chain[i].wroteHeader, chain[i].statusCode)
  {
    if chain == [] then []
    else Flags(chain[..|chain| - 1]) + [Recorder(chain[|chain| - 1].wroteHeader, chain[|chain| - 1].statusCode)]
  }

  /** statusRecordingResponseWriter; chain and base are fixed when the wrapped writer is. */
  class RecorderObject {
    const inner: Writer
    var wroteHeader: bool
    var statusCode: int
    ghost const chain: seq<RecorderObject>
    ghost const base: BaseWriter

    ghost function Objects(): set<object> {
      ObjectsOf(chain, base)
    }

    ghost predicate WellLinked() {
      && chain != [] && chain[|chain| - 1] == this
      && forall i :: 0 <= i < |chain| ==> LinkedAt(i)
    }

    ghost predicate LinkedAt(i: nat)
      requires i < |chain|
    {
      && chain[i].chain == chain[..i + 1] && chain[i].base == base
      && chain[i].inner == if i == 0 then Base(base) else Recording(chain[i - 1])
    }

    constructor (inner: Writer)
      requires inner.Valid()
      ensures this.inner == inner && !wroteHeader && statusCode == 200
      ensures chain == inner.Chain() + [this] && base == inner.Bottom() && WellLinked()
    {
      this.inner := inner;
      wroteHeader, statusCode := false, 200;
      chain := inner.Chain() + [this];
      base := inner.Bottom();
      new;
      forall i | 0 <= i < |chain| ensures LinkedAt(i) {
        if i < |chain| - 1 {
          assert inner.r.LinkedAt(i);
        }
      }
    }

    /** The wrapped writer is the same chain without this recorder, which is not in it. */
    lemma LinksDown()
      requires WellLinked()
      ensures inner.Valid() && inner.Bottom() == base && chain == inner.Chain() + [this]
      ensures this !in inner.Chain() && inner.Objects() + {this} == Objects()
    {
      var n := |chain| - 1;
      assert LinkedAt(n);
      ObjectsGrow(chain[..n], this, base);
      if n > 0 {
        assert LinkedAt(n - 1);
        var r := chain[n - 1];
        forall i | 0 <= i < n ensures r.LinkedAt(i) {
          assert LinkedAt(i);
        }
      }
      forall i | 0 <= i < n ensures chain[i] != this {
        assert LinkedAt(i);
      }
    }

    /** This recorder's flags sit on top of those below. */
    lemma TopFlags()
      requires WellLinked() && chain == inner.Chain() + [this]
      ensures Flags(chain) == Flags(inner.Chain()) + [Recorder(wroteHeader, statusCode)]
    {
      assert chain[..|chain| - 1] == inner.Chain();
    }

    /** Header() is the wrapped writer's: an edit goes straight to the base writer's map. */
    method SetHeader(name: string, value: string)
      requires WellLinked()
      modifies Objects()
      ensures ViewOf(chain, base) == Through(old(ViewOf(chain, base)), Op.SetHeader(name, value))
      decreases |chain|, 0
    {
      LinksDown();
      TopFlags();
      ghost var below, top := inner.View(), Recorder(wroteHeader, statusCode);
      ThroughTop(below, top, Op.SetHeader(name, value));
      inner.SetHeader(name, value);
      TopFlags();
    }

    method WriteHeader(code: int) returns (panicked: bool)
      requires WellLinked()
      modifies Objects()
      ensures ViewOf(chain, base) == Through(old(ViewOf(chain, base)), Op.WriteHeader(code))
      ensures panicked == HeaderPanics(old(base.View()), code)
      decreases |chain|, 0
    {
      LinksDown();
      TopFlags();
      ghost var below, top := inner.View(), Recorder(wroteHeader, statusCode);
      ThroughTop(below, top, Op.WriteHeader(code));
      wroteHeader := true;
      statusCode := code;
      assert inner.View() == below;
      panicked := inner.WriteHeader(code);
      TopFlags();
    }

    method Write(doc: Json) returns (ok: bool)
      requires WellLinked()
      modifies Objects()
      ensures ViewOf(chain, base) == Through(old(ViewOf(chain, base)), Op.Write(doc))
      ensures ok == WriteSucceeds(old(base.View()))
      decreases |chain|, 0
    {
      LinksDown();
      TopFlags();
      ghost var below, top := inner.View(), Recorder(wroteHeader, statusCode);
      ThroughTop(below, top, Op.Write(doc));
      if !wroteHeader {
        statusCode := 200;
      }
      wroteHeader := true;
      assert inner.View() == below;
      ok := inner.Write(doc);
      TopFlags();
    }

    /** Records the flush as a started response even when nothing below can flush. */
    method Flush()
      requires WellLinked()
      modifies Objects()
      ensures ViewOf(chain, base) == Through(old(ViewOf(chain, base)), Op.Flush)
      decreases |chain|, 0
    {
      LinksDown();
      TopFlags();
      ghost var below, top := inner.View(), Recorder(wroteHeader, statusCode);
      ThroughTop(below, top, Op.Flush);
      wroteHeader := true;
      assert inner.View() == below;
      inner.Flush();
      TopFlags();
    }
  }

  // ---- Handlers and middlewares over writers ----

  method Run(ops: seq<Op>, w: Writer) returns (panicked: bool)
    requires w.Valid()
    modifies w.Objects()
    ensures w.View() == ThroughAll(old(w.View()), ops)
    ensures panicked == AnyPanics(old(w.View()).wire, ops)
  {
    for i := 0 to |ops|
      invariant ThroughAll(w.View(), ops[i..]) == ThroughAll(old(w.View()), ops)
      invariant AnyPanics(w.View().wire, ops[i..]) == AnyPanics(old(w.View()).wire, ops)
    {
      assert ops[i..][0] == ops[i] && ops[i..][1..] == ops[i + 1..];
      match ops[i]
      case SetHeader(name, value) => w.SetHeader(name, value);
      case WriteHeader(code) =>
        var p := w.WriteHeader(code);
        if p {
          return true;
        }
      case Write(doc) => var _ := w.Write(doc);
      case Flush => w.Flush();
    }
    panicked := false;
  }

  /** httperror.WriteResponse: content type, status, then the encoded problem; a failed body write is only logged. */
  method WriteResponse(w: Writer, status: int, p: Problem) returns (panicked: bool)
    requires w.Valid()
    modifies w.Objects()
    ensures w.View() == ThroughAll(old(w.View()), ProblemOps(status, p))
    ensures panicked == AnyPanics(old(w.View()).wire, ProblemOps(status, p))
  {
    panicked := Run(ProblemOps(status, p), w);
  }

  /** The tail of a strict handler: visit the response, turn every error into the problem response. */
  method StrictHandler(result: StrictResult, uri: string, w: Writer) returns (panicked: bool)
    requires w.Valid()
    modifies w.Objects()
    ensures w.View() == StrictServe(old(w.View()), result, uri)
    ensures panicked == StrictPanics(old(w.View()), result)
  {
    panicked := false;
    var failed := result.HandlerError? || result.WrongType?;
    if result.Reply? {
      panicked, failed := VisitResponse(result.status, result.content, w);
      if panicked {
        return;
      }
    }
    if failed {
      InternalNeverPanics(w.View().wire, uri);
      var _ := WriteResponse(w, 500, Internal(uri));
    }
  }

  method VisitResponse(status: int, content: Option<(string, Json)>, w: Writer) returns (panicked: bool, failed: bool)
    requires w.Valid()
    modifies w.Objects()
    ensures w.View() == ThroughAll(old(w.View()), VisitOps(status, content))
    ensures panicked == HeaderPanics(old(w.View()).wire, status)
    ensures !panicked ==> failed == VisitFails(old(w.View()), status, content)
  {
    failed := false;
    if content.None? {
      panicked := w.WriteHeader(status);
      assert VisitOps(status, content)[1..] == [];
      return;
    }
    VisitSteps(w.View(), status, content.value);
    w.SetHeader(CONTENT_TYPE, content.value.0);
    panicked := w.WriteHeader(status);
    if panicked {
      return;
    }
    var ok := w.Write(content.value.1);
    failed := !ok;
  }

  lemma VisitSteps(st: Stack, status: int, content: (string, Json))
    ensures var st1 := Through(st, Op.SetHeader(CONTENT_TYPE, content.0));
            var st2 := Through(st1, Op.WriteHeader(status));
            && HeaderPanics(st1.wire, status) == HeaderPanics(st.wire, status)
            && WriteSucceeds(st2.wire) == WriteSucceeds(WireHeader(st.wire, status))
            && ThroughAll(st, VisitOps(status, Some(content))) ==
               if HeaderPanics(st.wire, status) then st2 else Through(st2, Op.Write(content.1))
  {
    var ops := VisitOps(status, Some(content));
    assert ops[1..][1..] == [ops[2]] && ops[1..][1..][1..] == [];
    var st2 := Through(Through(st, ops[0]), ops[1]);
    assert ThroughAll(st2, [ops[2]]) == Through(st2, ops[2]);
  }

  lemma InternalNeverPanics(w: Wire, uri: string)
    ensures !AnyPanics(w, ProblemOps(500, Internal(uri)))
  {
    var ops := ProblemOps(500, Internal(uri));
    var w1 := OnWire(w, ops[0]);
    var w2 := OnWire(w1, ops[1]);
    assert ops[1..][1..] == [ops[2]] && ops[1..][1..][1..] == [];
    assert !Panics(w, ops[0]) && !Panics(w1, ops[1]) && !AnyPanics(w2, [ops[2]]);
  }

  /** Serves a request: the middlewares as New and the strict handler compose them, each over the writer it is given. */
  method ServeHTTP(h: Handler, w: Writer) returns (ending: Ending, logged: seq<int>)
    requires w.Valid()
    modifies w.Objects()
    ensures Served(w.View(), ending, logged) == Serve(h, old(w.View()))
    decreases h, 1
  {
    match h
    case Endpoint(ops, end) =>
      var panicked := Run(ops, w);
      ending, logged := if panicked then Panic(OtherPanic) else end, [];
    case Strict(result, uri) =>
      var panicked := StrictHandler(result, uri, w);
      ending, logged := if panicked then Panic(OtherPanic) else Return, [];
    case Validate(reject, next) =>
      if reject.Some? {
        var _ := WriteResponse(w, 400, reject.value);
        ending, logged := Return, [];
      } else {
        ending, logged := ServeHTTP(next, w);
      }
    case Logging(next) =>
      ending, logged := RequestLogging(next, w);
    case Recovery(next, uri) =>
      ending, logged := Recover(next, uri, w);
  }

  method RequestLogging(next: Handler, w: Writer) returns (ending: Ending, logged: seq<int>)
    requires w.Valid()
    modifies w.Objects()
    ensures Served(w.View(), ending, logged) == Serve(Logging(next), old(w.View()))
    decreases next, 3
  {
    var sw;
    ending, logged, sw := ServeRecorded(next, w);
    if ending == Return {
      logged := logged + [sw.statusCode];
    }
  }

  /** A panic value other than ErrAbortHandler is swallowed; the response is written to w, not to the recorder. */
  method Recover(next: Handler, uri: string, w: Writer) returns (ending: Ending, logged: seq<int>)
    requires w.Valid()
    modifies w.Objects()
    ensures Served(w.View(), ending, logged) == Serve(Recovery(next, uri), old(w.View()))
    decreases next, 3
  {
    var sw;
    ending, logged, sw := ServeRecorded(next, w);
    if ending == Panic(OtherPanic) {
      if !sw.wroteHeader {
        var _ := WriteResponse(w, 500, Internal(uri));
      }
      ending := Return;
    }
  }

  /** Calls the next handler with a fresh recorder over w. */
  method ServeRecorded(next: Handler, w: Writer) returns (ending: Ending, logged: seq<int>, sw: RecorderObject)
    requires w.Valid()
    modifies w.Objects()
    ensures var r := Serve(next, Push(old(w.View())));
            && w.View() == Pop(r.st) && ending == r.ending && logged == r.logged
            && Recorder(sw.wroteHeader, sw.statusCode) == Top(r.st)
    decreases next, 2
  {
    sw := new RecorderObject(w);
    ObjectsGrow(w.Chain(), sw, w.Bottom());
    PushView(sw, w);
    ending, logged := ServeHTTP(next, Recording(sw));
    PopView(sw, w);
  }

  lemma PopView(sw: RecorderObject, w: Writer)
    requires sw.chain == w.Chain() + [sw] && sw.base == w.Bottom()
    ensures Recording(sw).View().layers != []
    ensures Pop(Recording(sw).View()) == w.View()
    ensures Top(Recording(sw).View()) == Recorder(sw.wroteHeader, sw.statusCode)
  {
  }

  lemma PushView(sw: RecorderObject, w: Writer)
    requires sw.chain == w.Chain() + [sw] && sw.base == w.Bottom()
    requires !sw.wroteHeader && sw.statusCode == 200
    ensures Recording(sw).View() == Push(w.View())
  {
  }
}
