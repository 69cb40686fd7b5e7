/** Chains of callbacks: handler middlewares on the server, request editors in the client. */
module Chain {
  import opened Wrappers

  // ---- Folding middlewares ----

  /** A middleware logs its entry and its exit and, unless it answers by itself, calls the next handler in between. */
  datatype Middleware = Middleware(id: nat, passes: bool)

  datatype Event = Enter(id: nat) | Handled | Exit(id: nat)

  datatype Chained = Inner | Wrapped(m: Middleware, next: Chained)

  function Trace(h: Chained): seq<Event> {
    match h
    case Inner => [Handled]
    case Wrapped(m, next) => [Enter(m.id)] + (if m.passes then Trace(next) else []) + [Exit(m.id)]
  }

  function Folded(middlewares: seq<Middleware>): Chained {
    if middlewares == [] then Inner
    else Wrapped(middlewares[|middlewares| - 1], Folded(middlewares[..|middlewares| - 1]))
  }

  /** The loop of every operation: handler = middleware(handler). */
  method Fold(middlewares: seq<Middleware>) returns (handler: Chained)
    ensures handler == Folded(middlewares)
  {
    handler := Inner;
    for i := 0 to |middlewares|
      invariant handler == Folded(middlewares[..i])
    {
      assert middlewares[..i + 1][..i] == middlewares[..i];
      handler := Wrapped(middlewares[i], handler);
    }
    assert middlewares[..|middlewares|] == middlewares;
  }

  function Enters(ms: seq<Middleware>): seq<Event> {
    if ms == [] then [] else [Enter(ms[|ms| - 1].id)] + Enters(ms[..|ms| - 1])
  }

  function Exits(ms: seq<Middleware>): seq<Event> {
    if ms == [] then [] else Exits(ms[..|ms| - 1]) + [Exit(ms[|ms| - 1].id)]
  }

  /** Where the request stops: just after the last middleware that does not pass it on, or at the handler. */
  function Stop(ms: seq<Middleware>): (k: nat)
    ensures k <= |ms|
    ensures k > 0 ==> !ms[k - 1].passes
    ensures forall i :: k <= i < |ms| ==> ms[i].passes
  {
    if ms == [] then 0
    else if !ms[|ms| - 1].passes then |ms|
    else Stop(ms[..|ms| - 1])
  }

  /** The last middleware of a list is the outermost pair of events. */
  lemma LastPair(ms: seq<Middleware>, k: nat)
    requires k < |ms|
    ensures var n := |ms| - 1;
            && Enters(ms[k..]) == [Enter(ms[n].id)] + Enters(ms[..n][k..])
            && Exits(ms[k..]) == Exits(ms[..n][k..]) + [Exit(ms[n].id)]
  {
    var n := |ms| - 1;
    assert ms[k..][..n - k] == ms[..n][k..];
  }

  /** The events at the centre: the handler's, or those of the middleware that answers by itself. */
  function Core(ms: seq<Middleware>): seq<Event> {
    var k := Stop(ms);
    if k == 0 then [Handled] else [Enter(ms[k - 1].id), Exit(ms[k - 1].id)]
  }

  lemma Around(first: Event, enters: seq<Event>, core: seq<Event>, exits: seq<Event>, last: Event)
    ensures [first] + (enters + core + exits) + [last] == ([first] + enters) + core + (exits + [last])
  {
  }

  lemma {:induction false} TraceOfLast(ms: seq<Middleware>)
    requires ms != []
    ensures var n := |ms| - 1;
            Trace(Folded(ms)) ==
            [Enter(ms[n].id)] + (if ms[n].passes then Trace(Folded(ms[..n])) else []) + [Exit(ms[n].id)]
  {
  }

  lemma {:induction false} StopsAtLast(ms: seq<Middleware>)
    requires ms != [] && !ms[|ms| - 1].passes
    ensures Trace(Folded(ms)) == Enters(ms[Stop(ms)..]) + Core(ms) + Exits(ms[Stop(ms)..])
  {
    TraceOfLast(ms);
    assert ms[Stop(ms)..] == [];
  }

  ghost predicate InOrder(ms: seq<Middleware>) {
    Trace(Folded(ms)) == Enters(ms[Stop(ms)..]) + Core(ms) + Exits(ms[Stop(ms)..])
  }

  lemma PassesAtLast(ms: seq<Middleware>)
    requires ms != [] && ms[|ms| - 1].passes && InOrder(ms[..|ms| - 1])
    ensures InOrder(ms)
  {
    var n, k := |ms| - 1, Stop(ms);
    TraceOfLast(ms);
    LastPair(ms, k);
    Around(Enter(ms[n].id), Enters(ms[..n][k..]), Core(ms), Exits(ms[..n][k..]), Exit(ms[n].id));
  }

  /**
   The last middleware is outermost: entries come in reverse list order down to the one that stops
   the request or to the handler, exits in list order from there.
   */
  lemma {:induction false} LastIsOutermost(ms: seq<Middleware>)
    ensures var k := Stop(ms); Trace(Folded(ms)) == Enters(ms[k..]) + Core(ms) + Exits(ms[k..])
  {
    if ms == [] {
      assert Trace(Folded(ms)) == [Handled];
    } else if ms[|ms| - 1].passes {
      LastIsOutermost(ms[..|ms| - 1]);
      PassesAtLast(ms);
    } else {
      StopsAtLast(ms);
    }
  }

  /** The handler is reached exactly when every middleware passes the request on. */
  lemma {:induction false} HandledIffAllPass(ms: seq<Middleware>)
    ensures Handled in Trace(Folded(ms)) <==> forall i :: 0 <= i < |ms| ==> ms[i].passes
  {
    if ms == [] {
      assert Trace(Folded(ms)) == [Handled];
    } else {
      var n := |ms| - 1;
      TraceOfLast(ms);
      HandledIffAllPass(ms[..n]);
      assert forall i :: 0 <= i < n ==> ms[..n][i] == ms[i];
    }
  }

  // ---- Request editors ----

  /** An editor changes the request and may report an error. */
  type Editor<!Req, !E> = Req -> (Req, Option<E>)

  /**
   What happens to a call: the request as edited so far with the error that stopped it, or the
   request handed to Do.
   */
  datatype Call<Req, E> = Stopped(request: Req, error: E) | Done(request: Req)

  function Edited<Req, E>(request: Req, editors: seq<Editor<Req, E>>): Call<Req, E> {
    if editors == [] then Done(request)
    else
      var (next, err) := editors[0](request);
      if err.Some? then Stopped(next, err.value) else Edited(next, editors[1..])
  }

  /** applyEditors: the client's own editors, then the call's, up to the first error. */
  method ApplyEditors<Req, E>(request: Req, base: seq<Editor<Req, E>>, additional: seq<Editor<Req, E>>)
    returns (r: Call<Req, E>)
    ensures r == Edited(request, base + additional)
  {
    var req := request;
    for i := 0 to |base|
      invariant Edited(req, base[i..] + additional) == Edited(request, base + additional)
    {
      assert (base[i..] + additional)[1..] == base[i + 1..] + additional;
      var (next, err) := base[i](req);
      if err.Some? {
        return Stopped(next, err.value);
      }
      req := next;
    }
    assert base[|base|..] + additional == additional;
    for i := 0 to |additional|
      invariant Edited(req, additional[i..]) == Edited(request, base + additional)
    {
      assert additional[i..][1..] == additional[i + 1..];
      var (next, err) := additional[i](req);
      if err.Some? {
        return Stopped(next, err.value);
      }
      req := next;
    }
    r := Done(req);
  }

  /** The request after the first n editors, none of which stops it. */
  ghost predicate Unstopped<Req, E>(requests: seq<Req>, editors: seq<Editor<Req, E>>) {
    && |requests| <= |editors| + 1
    && forall i :: 0 <= i < |requests| - 1 ==> editors[i](requests[i]) == (requests[i + 1], None)
  }

  /**
   Do is called exactly when there is a run through all editors without an error, on the request
   the last one left; otherwise the error reported is that of the first editor that fails.
   */
  lemma {:induction false} DoIffAllSucceed<Req, E>(request: Req, editors: seq<Editor<Req, E>>)
    returns (requests: seq<Req>)
    ensures requests != [] && requests[0] == request && Unstopped(requests, editors)
    ensures var n := |requests| - 1;
            match Edited(request, editors)
            case Done(r) => n == |editors| && r == requests[n]
            case Stopped(r, e) => n < |editors| && editors[n](requests[n]) == (r, Some(e))
  {
    if editors == [] {
      requests := [request];
    } else {
      var (next, err) := editors[0](request);
      if err.Some? {
        requests := [request];
      } else {
        var rest := DoIffAllSucceed(next, editors[1..]);
        requests := [request] + rest;
        forall i | 0 <= i < |requests| - 1 ensures editors[i](requests[i]) == (requests[i + 1], None) {
          if i > 0 {
            assert editors[1..][i - 1](rest[i - 1]) == (rest[i], None);
          }
        }
      }
    }
  }
}
