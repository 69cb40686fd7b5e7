/**
 scrubValidationError: the detail a client sees for a rejected request, over error chains of any
 depth. Wrapped and plain messages, and whatever lies beneath a recognised error's public fields,
 must not show.
 */
module Scrub {
  import opened Wrappers

  datatype Parameter = Parameter(name: string, location: string)

  /** The parameter errors of the generated server; every one of them carries the parameter's name. */
  datatype Kind = InvalidFormat | RequiredParam | RequiredHeader | Cookie | Unmarshaling | TooMany

  /** An error and the errors it unwraps to. */
  datatype Error =
    | Plain(message: string)
    | Wrapping(message: string, inner: Error)
    | Schema(reason: string, origin: Option<Error>)
    | Request(parameter: Option<Parameter>, hasBody: bool, reason: string, err: Option<Error>)
    | Param(kind: Kind, name: string, err: Option<Error>)

  /** RequiredParamError and TooManyValuesForParamError have no Unwrap method. */
  predicate Unwraps(kind: Kind) {
    !kind.RequiredParam? && !kind.TooMany?
  }

  /** The error `e` wraps, if any. */
  function Unwrap(e: Error): (r: Option<Error>)
    ensures r.Some? ==> r.value < e
  {
    match e
    case Plain(_) => None
    case Wrapping(_, inner) => Some(inner)
    case Schema(_, origin) => origin
    case Request(_, _, _, err) => err
    case Param(kind, _, err) => if Unwraps(kind) then err else None
  }

  /** The chain from `e` inwards. */
  function Links(e: Error): (s: seq<Error>)
    ensures s != [] && s[0] == e
    decreases e
  {
    var inner := Unwrap(e);
    [e] + if inner.Some? then Links(inner.value) else []
  }

  /** errors.As: the first link of the chain that passes the test. */
  function As(links: seq<Error>, test: Error -> bool): Option<Error> {
    if links == [] then None
    else if test(links[0]) then Some(links[0])
    else As(links[1..], test)
  }

  function AsRequest(e: Error): Option<Error> {
    As(Links(e), (x: Error) => x.Request?)
  }

  function AsSchema(e: Option<Error>): Option<Error> {
    if e.None? then None else As(Links(e.value), (x: Error) => x.Schema?)
  }

  function AsParam(e: Error, kind: Kind): Option<Error> {
    As(Links(e), (x: Error) => x.Param? && x.kind == kind)
  }

  const GENERIC := "invalid request"

  function Quote(s: string): string {
    "\"" + s + "\""
  }

  function Prefixed(prefix: string, reason: string): string {
    if prefix != "" then prefix + ": " + reason else reason
  }

  /** The words before the reason: the parameter and where it is, or the body. */
  function PrefixOf(p: Option<Parameter>, hasBody: bool): string {
    if p.Some? then "parameter " + Quote(p.value.name) + " in " + p.value.location
    else if hasBody then "request body"
    else ""
  }

  /**
   The reason of a validation error: that of the schema error beneath it, if it gives one, before the
   request's own.
   */
  function ReasonOf(reason: string, err: Option<Error>): string {
    var schema := AsSchema(err);
    if schema.Some? && schema.value.Schema? && schema.value.reason != "" then schema.value.reason else reason
  }

  function RequestDetail(parameter: Option<Parameter>, hasBody: bool, reason: string, err: Option<Error>): string {
    var shown := ReasonOf(reason, err);
    if shown == "" then GENERIC else Prefixed(PrefixOf(parameter, hasBody), shown)
  }

  /** The order in which the parameter errors are looked for. */
  const KINDS := [InvalidFormat, RequiredParam, RequiredHeader, Cookie, Unmarshaling, TooMany]

  function KindMessage(kind: Kind): string {
    match kind
    case InvalidFormat => "invalid format for parameter "
    case RequiredParam => "missing required parameter "
    case RequiredHeader => "missing required header "
    case Cookie => "invalid cookie parameter "
    case Unmarshaling => "invalid value for parameter "
    case TooMany => "too many values for parameter "
  }

  function ParamDetail(e: Error, kinds: seq<Kind>): string {
    if kinds == [] then GENERIC
    else
      var found := AsParam(e, kinds[0]);
      if found.Some? && found.value.Param? then KindMessage(kinds[0]) + Quote(found.value.name)
      else ParamDetail(e, kinds[1..])
  }

  function Detail(e: Error): string {
    match AsRequest(e)
    case Some(Request(parameter, hasBody, reason, err)) => RequestDetail(parameter, hasBody, reason, err)
    case _ => ParamDetail(e, KINDS)
  }

  // ---- Properties ----

  lemma {:induction false} ParamDetailNotEmpty(e: Error, kinds: seq<Kind>)
    ensures ParamDetail(e, kinds) != ""
  {
    if kinds != [] {
      ParamDetailNotEmpty(e, kinds[1..]);
    }
  }

  /** The client is always told something. */
  lemma DetailNotEmpty(e: Error)
    ensures Detail(e) != ""
  {
    ParamDetailNotEmpty(e, KINDS);
  }

  /** Puts any number of unrecognised wrappers around an error. */
  function WrapAll(messages: seq<string>, e: Error): Error {
    if messages == [] then e else Wrapping(messages[0], WrapAll(messages[1..], e))
  }

  lemma {:induction false} WrappersInvisible(messages: seq<string>, e: Error)
    ensures AsRequest(WrapAll(messages, e)) == AsRequest(e)
    ensures forall kind :: AsParam(WrapAll(messages, e), kind) == AsParam(e, kind)
  {
    if messages != [] {
      WrappersInvisible(messages[1..], e);
      var inner := WrapAll(messages[1..], e);
      assert Links(Wrapping(messages[0], inner))[1..] == Links(inner);
    }
  }

  predicate SameName(a: Error, b: Error) {
    a.Param? && b.Param? && a.name == b.name
  }

  /** The detail depends only on which kinds are found and under which parameter names. */
  lemma {:induction false} ParamDetailDepends(e: Error, e': Error, kinds: seq<Kind>)
    requires forall kind :: AsParam(e, kind).Some? <==> AsParam(e', kind).Some?
    requires forall kind :: AsParam(e, kind).Some? ==> SameName(AsParam(e, kind).value, AsParam(e', kind).value)
    ensures ParamDetail(e, kinds) == ParamDetail(e', kinds)
  {
    if kinds != [] {
      ParamDetailDepends(e, e', kinds[1..]);
    }
  }

  lemma {:induction false} AsPasses(links: seq<Error>, test: Error -> bool)
    ensures As(links, test).Some? ==> test(As(links, test).value) && As(links, test).value in links
    ensures As(links, test).None? <==> forall i :: 0 <= i < |links| ==> !test(links[i])
  {
    if links != [] {
      AsPasses(links[1..], test);
    }
  }

  /** Wrapping an error with fmt.Errorf, however often, does not change what the client sees. */
  lemma WrappingKeepsDetail(messages: seq<string>, e: Error)
    ensures Detail(WrapAll(messages, e)) == Detail(e)
  {
    WrappersInvisible(messages, e);
    forall kind | AsParam(e, kind).Some?
      ensures SameName(AsParam(WrapAll(messages, e), kind).value, AsParam(e, kind).value)
    {
      AsPasses(Links(e), (x: Error) => x.Param? && x.kind == kind);
    }
    ParamDetailDepends(WrapAll(messages, e), e, KINDS);
  }

  /** Every private message in the chain replaced through `f`; parameters, locations and reasons stay. */
  function Rewrite(e: Error, f: string -> string): Error {
    match e
    case Plain(message) => Plain(f(message))
    case Wrapping(message, inner) => Wrapping(f(message), Rewrite(inner, f))
    case Schema(reason, origin) => Schema(reason, if origin.Some? then Some(Rewrite(origin.value, f)) else None)
    case Request(p, b, reason, err) => Request(p, b, reason, if err.Some? then Some(Rewrite(err.value, f)) else None)
    case Param(kind, name, err) => Param(kind, name, if err.Some? then Some(Rewrite(err.value, f)) else None)
  }

  lemma {:induction false} LinksRewrite(e: Error, f: string -> string)
    ensures |Links(Rewrite(e, f))| == |Links(e)|
    ensures forall i :: 0 <= i < |Links(e)| ==> Links(Rewrite(e, f))[i] == Rewrite(Links(e)[i], f)
  {
    UnwrapRewrite(e, f);
    var inner := Unwrap(e);
    if inner.Some? {
      LinksRewrite(inner.value, f);
    }
  }

  lemma UnwrapRewrite(e: Error, f: string -> string)
    ensures Unwrap(Rewrite(e, f)) == match Unwrap(e) case None => None case Some(x) => Some(Rewrite(x, f))
  {
  }

  /** A test that looks only at what Rewrite keeps finds the rewritten link. */
  lemma {:induction false} AsRewrites(links: seq<Error>, links': seq<Error>, test: Error -> bool, f: string -> string)
    requires |links| == |links'|
    requires forall i :: 0 <= i < |links| ==> links'[i] == Rewrite(links[i], f)
    requires forall x :: test(Rewrite(x, f)) <==> test(x)
    ensures As(links', test) == match As(links, test) case None => None case Some(x) => Some(Rewrite(x, f))
  {
    if links != [] {
      AsRewrites(links[1..], links'[1..], test, f);
    }
  }

  /**
   Non-interference: whatever the private messages anywhere in the chain say, at any depth, the
   detail is the same.
   */
  lemma MessagesDoNotShow(e: Error, f: string -> string)
    ensures Detail(Rewrite(e, f)) == Detail(e)
  {
    RequestRewrites(e, f);
    if AsRequest(e).Some? {
      var err := AsRequest(e).value.err;
      SchemaRewrites(err, f);
    } else {
      forall kind
        ensures AsParam(Rewrite(e, f), kind).Some? <==> AsParam(e, kind).Some?
        ensures AsParam(e, kind).Some? ==> SameName(AsParam(Rewrite(e, f), kind).value, AsParam(e, kind).value)
      {
        ParamRewrites(e, kind, f);
      }
      ParamDetailDepends(Rewrite(e, f), e, KINDS);
    }
  }

  lemma RequestRewrites(e: Error, f: string -> string)
    ensures AsRequest(e).Some? ==> AsRequest(e).value.Request?
    ensures AsRequest(Rewrite(e, f)) == match AsRequest(e) case None => None case Some(x) => Some(Rewrite(x, f))
  {
    var test := (x: Error) => x.Request?;
    LinksRewrite(e, f);
    AsPasses(Links(e), test);
    AsRewrites(Links(e), Links(Rewrite(e, f)), test, f);
  }

  lemma SchemaRewrites(err: Option<Error>, f: string -> string)
    ensures var err' := if err.Some? then Some(Rewrite(err.value, f)) else None;
            && (AsSchema(err).Some? ==> AsSchema(err).value.Schema?)
            && AsSchema(err') == match AsSchema(err) case None => None case Some(x) => Some(Rewrite(x, f))
  {
    if err.Some? {
      var test := (x: Error) => x.Schema?;
      LinksRewrite(err.value, f);
      AsPasses(Links(err.value), test);
      AsRewrites(Links(err.value), Links(Rewrite(err.value, f)), test, f);
    }
  }

  lemma ParamRewrites(e: Error, kind: Kind, f: string -> string)
    ensures AsParam(Rewrite(e, f), kind).Some? <==> AsParam(e, kind).Some?
    ensures AsParam(e, kind).Some? ==> SameName(AsParam(Rewrite(e, f), kind).value, AsParam(e, kind).value)
  {
    var test := (x: Error) => x.Param? && x.kind == kind;
    LinksRewrite(e, f);
    AsPasses(Links(e), test);
    AsRewrites(Links(e), Links(Rewrite(e, f)), test, f);
  }

  // ---- What is shown, and which error decides ----

  /** errors.As stops at the outermost link that fits. */
  lemma {:induction false} AsIsOutermost(links: seq<Error>, test: Error -> bool) returns (i: nat)
    ensures i <= |links| && forall j :: 0 <= j < i ==> !test(links[j])
    ensures match As(links, test)
            case None => i == |links|
            case Some(x) => i < |links| && links[i] == x && test(x)
  {
    if links == [] || test(links[0]) {
      i := 0;
    } else {
      var rest := AsIsOutermost(links[1..], test);
      i := rest + 1;
    }
  }

  predicate EndsWith(s: string, suffix: string) {
    |suffix| <= |s| && s[|s| - |suffix|..] == suffix
  }

  lemma PrefixedShape(prefix: string, reason: string)
    ensures EndsWith(Prefixed(prefix, reason), reason)
    ensures prefix <= Prefixed(prefix, reason)
    ensures prefix == "" ==> Prefixed(prefix, reason) == reason
  {
    if prefix != "" {
      assert Prefixed(prefix, reason) == (prefix + ": ") + reason;
    }
  }

  /**
   A request error anywhere in the chain decides the detail, whatever parameter errors surround it:
   its reason comes last, the parameter or body it is about comes first, and without a reason the
   detail is the generic one.
   */
  lemma RequestErrorDecides(e: Error, p: Option<Parameter>, hasBody: bool, own: string, err: Option<Error>)
    requires AsRequest(e) == Some(Request(p, hasBody, own, err))
    ensures var reason := ReasonOf(own, err);
            && (reason == "" ==> Detail(e) == GENERIC)
            && (reason != "" ==> EndsWith(Detail(e), reason) && PrefixOf(p, hasBody) <= Detail(e))
            && (reason != "" && p.None? && !hasBody ==> Detail(e) == reason)
  {
    PrefixedShape(PrefixOf(p, hasBody), ReasonOf(own, err));
  }

  /** The words a client reads before the reason. */
  function WordsBefore(p: Option<Parameter>, hasBody: bool): string {
    if p.Some? then "parameter \"" + p.value.name + "\" in " + p.value.location + ": "
    else if hasBody then "request body: "
    else ""
  }

  lemma PrefixedWords(p: Option<Parameter>, hasBody: bool, reason: string)
    ensures Prefixed(PrefixOf(p, hasBody), reason) == WordsBefore(p, hasBody) + reason
  {
    if p.Some? {
      var prefix := PrefixOf(p, hasBody);
      assert prefix[0] == 'p';
      assert prefix + ": " == WordsBefore(p, hasBody) by {
        assert "parameter " + Quote(p.value.name) == "parameter \"" + p.value.name + "\"";
      }
    } else if hasBody {
      assert "request body" + ": " == "request body: ";
    }
  }

  lemma {:induction false} FirstLink(links: seq<Error>, test: Error -> bool, i: nat)
    requires i < |links| && test(links[i]) && forall j :: 0 <= j < i ==> !test(links[j])
    ensures As(links, test) == Some(links[i])
  {
    if i > 0 {
      FirstLink(links[1..], test, i - 1);
    }
  }

  /**
   For a request error, found anywhere in the chain: the reason of the outermost schema error
   beneath it is shown, whatever reason the request error gives itself.
   */
  lemma SchemaReasonFirst(e: Error, p: Option<Parameter>, hasBody: bool, own: string, inner: Error, i: nat)
    requires AsRequest(e) == Some(Request(p, hasBody, own, Some(inner)))
    requires i < |Links(inner)| && Links(inner)[i].Schema? && Links(inner)[i].reason != ""
    requires forall j :: 0 <= j < i ==> !Links(inner)[j].Schema?
    ensures Detail(e) == WordsBefore(p, hasBody) + Links(inner)[i].reason
  {
    FirstLink(Links(inner), (x: Error) => x.Schema?, i);
    PrefixedWords(p, hasBody, Links(inner)[i].reason);
  }

  /** Beneath it there is no schema error, or the outermost one gives no reason. */
  predicate NoSchemaReason(err: Option<Error>) {
    err.Some? ==>
      forall i :: 0 <= i < |Links(err.value)| && Links(err.value)[i].Schema? && Links(err.value)[i].reason != "" ==>
        exists j :: 0 <= j < i && Links(err.value)[j].Schema?
  }

  /** Otherwise its own reason is shown, and without one the generic message. */
  lemma OwnReasonOtherwise(e: Error, p: Option<Parameter>, hasBody: bool, own: string, err: Option<Error>)
    requires AsRequest(e) == Some(Request(p, hasBody, own, err)) && NoSchemaReason(err)
    ensures Detail(e) == if own == "" then "invalid request" else WordsBefore(p, hasBody) + own
  {
    if err.Some? {
      var i := AsIsOutermost(Links(err.value), (x: Error) => x.Schema?);
    }
    PrefixedWords(p, hasBody, own);
  }

  /** The words for each kind of parameter error. */
  lemma KindWords(kind: Kind, name: string)
    ensures KindMessage(kind) + Quote(name) ==
            (match kind
             case InvalidFormat => "invalid format for parameter \""
             case RequiredParam => "missing required parameter \""
             case RequiredHeader => "missing required header \""
             case Cookie => "invalid cookie parameter \""
             case Unmarshaling => "invalid value for parameter \""
             case TooMany => "too many values for parameter \"") + name + "\""
  {
    assert KindMessage(kind) + ("\"" + name + "\"") == (KindMessage(kind) + "\"") + name + "\"";
  }

  /** A missing or repeated parameter hides what caused it; every other error of the chain lets its cause decide. */
  lemma CausesShow(kind: Kind, name: string, inner: Error)
    ensures kind.RequiredParam? || kind.TooMany? ==>
              Detail(Param(kind, name, Some(inner))) == KindMessage(kind) + Quote(name)
    ensures !kind.RequiredParam? && !kind.TooMany? && AsRequest(inner).Some? ==>
              Detail(Param(kind, name, Some(inner))) == Detail(inner)
  {
    var e := Param(kind, name, Some(inner));
    if kind.RequiredParam? || kind.TooMany? {
      assert Links(e) == [e];
      OnlyParam(e);
    } else {
      assert Links(e)[1..] == Links(inner);
      assert AsRequest(e) == AsRequest(inner);
      AsPasses(Links(inner), (x: Error) => x.Request?);
    }
  }

  lemma OnlyParam(e: Error)
    requires e.Param? && Links(e) == [e]
    ensures Detail(e) == KindMessage(e.kind) + Quote(e.name)
  {
    forall kind ensures AsParam(e, kind) == if kind == e.kind then Some(e) else None {
      AsPasses(Links(e), (x: Error) => x.Param? && x.kind == kind);
    }
    AsPasses(Links(e), (x: Error) => x.Request?);
    var k := IndexOfKind(e.kind);
    FirstKindDecides(e, k);
  }

  /** Schema and request errors unwrap to what they hold. */
  lemma HoldersUnwrap(reason: string, p: Option<Parameter>, hasBody: bool, inner: Error)
    ensures Links(Schema(reason, Some(inner)))[1..] == Links(inner)
    ensures Links(Request(p, hasBody, reason, Some(inner)))[1..] == Links(inner)
  {
  }

  /** Every kind is looked for, in this order. */
  function IndexOfKind(kind: Kind): (k: nat)
    ensures k < 6 && KINDS[k] == kind && forall j :: 0 <= j < k ==> KINDS[j] != kind
  {
    match kind
    case InvalidFormat => 0
    case RequiredParam => 1
    case RequiredHeader => 2
    case Cookie => 3
    case Unmarshaling => 4
    case TooMany => 5
  }

  lemma {:induction false} FirstOfKinds(e: Error, kinds: seq<Kind>, k: nat)
    requires k < |kinds| && AsParam(e, kinds[k]).Some?
    requires forall j :: 0 <= j < k ==> AsParam(e, kinds[j]).None?
    ensures AsParam(e, kinds[k]).value.Param?
    ensures ParamDetail(e, kinds) == KindMessage(kinds[k]) + Quote(AsParam(e, kinds[k]).value.name)
  {
    if k == 0 {
      AsPasses(Links(e), (x: Error) => x.Param? && x.kind == kinds[0]);
    } else {
      FirstOfKinds(e, kinds[1..], k - 1);
    }
  }

  /** Without a request error in the chain the first kind found, in the order they are looked for, decides. */
  lemma FirstKindDecides(e: Error, k: nat)
    requires AsRequest(e).None?
    requires k < |KINDS| && AsParam(e, KINDS[k]).Some?
    requires forall j :: 0 <= j < k ==> AsParam(e, KINDS[j]).None?
    ensures AsParam(e, KINDS[k]).value.Param?
    ensures Detail(e) == KindMessage(KINDS[k]) + Quote(AsParam(e, KINDS[k]).value.name)
  {
    FirstOfKinds(e, KINDS, k);
  }

  /** Where two of the messages differ, neither being a prefix of the other. */
  lemma MessagesDiffer(a: Kind, b: Kind) returns (i: nat)
    requires a != b
    ensures i < |KindMessage(a)| && i < |KindMessage(b)| && KindMessage(a)[i] != KindMessage(b)[i]
  {
    if KindMessage(a)[0] != KindMessage(b)[0] {
      i := 0;
    } else if KindMessage(a)[8] != KindMessage(b)[8] {
      i := 8;
    } else {
      i := 17;
    }
  }

  lemma KindsTellApart(a: Kind, name: string, b: Kind, name': string)
    requires a != b
    ensures KindMessage(a) + Quote(name) != KindMessage(b) + Quote(name')
  {
    var i := MessagesDiffer(a, b);
    assert (KindMessage(a) + Quote(name))[i] == KindMessage(a)[i];
    assert (KindMessage(b) + Quote(name'))[i] == KindMessage(b)[i];
  }

  /** The client can tell from the detail which kind of parameter error it was and which parameter it was about. */
  lemma DetailTellsKindAndName(a: Kind, name: string, b: Kind, name': string)
    requires KindMessage(a) + Quote(name) == KindMessage(b) + Quote(name')
    ensures a == b && name == name'
  {
    if a != b {
      KindsTellApart(a, name, b, name');
    } else {
      var n := |KindMessage(a)|;
      assert Quote(name) == (KindMessage(a) + Quote(name))[n..] == Quote(name');
      assert name == Quote(name)[1..|name| + 1] && name' == Quote(name')[1..|name'| + 1];
    }
  }

  /** An error nobody recognises, such as a JSON syntax error under any wrapping, maps to the generic message. */
  lemma UnrecognisedIsGeneric(e: Error)
    requires forall i :: 0 <= i < |Links(e)| ==> Links(e)[i].Plain? || Links(e)[i].Wrapping? || Links(e)[i].Schema?
    ensures Detail(e) == GENERIC
  {
    AsPasses(Links(e), (x: Error) => x.Request?);
    forall kind ensures AsParam(e, kind).None? {
      AsPasses(Links(e), (x: Error) => x.Param? && x.kind == kind);
    }
    AllNoneIsGeneric(e, KINDS);
  }

  lemma {:induction false} AllNoneIsGeneric(e: Error, kinds: seq<Kind>)
    requires forall kind :: AsParam(e, kind).None?
    ensures ParamDetail(e, kinds) == GENERIC
  {
    if kinds != [] {
      AllNoneIsGeneric(e, kinds[1..]);
    }
  }
}
