/**
 The client's URL building against the server's route table: slash normalisation of the server
 URL, resolution of a relative path by sections 5.2.2 to 5.2.4 of RFC 3986, and dispatch.
 */
module Urls {
  import opened Wrappers
  import opened Ids

  // ---- RFC 3986, section 5.2.4: remove_dot_segments, with its input and output buffers ----

  // The literal prefixes the algorithm looks for, character by character.

  /** "../" */
  predicate StartsDotDotSlash(s: string) {
    |s| >= 3 && s[0] == '.' && s[1] == '.' && s[2] == '/'
  }

  /** "./" */
  predicate StartsDotSlash(s: string) {
    |s| >= 2 && s[0] == '.' && s[1] == '/'
  }

  /** "/./" */
  predicate StartsSlashDotSlash(s: string) {
    |s| >= 3 && s[0] == '/' && s[1] == '.' && s[2] == '/'
  }

  /** "/../" */
  predicate StartsSlashDotDotSlash(s: string) {
    |s| >= 4 && s[0] == '/' && s[1] == '.' && s[2] == '.' && s[3] == '/'
  }

  /** The dot segments "." and "..". */
  predicate IsDots(s: string) {
    IsDot(s) || IsDotDot(s)
  }

  predicate IsDot(s: string) {
    |s| == 1 && s[0] == '.'
  }

  predicate IsDotDot(s: string) {
    |s| == 2 && s[0] == '.' && s[1] == '.'
  }

  predicate IsSlashDot(s: string) {
    |s| == 2 && s[0] == '/' && s[1] == '.'
  }

  predicate IsSlashDotDot(s: string) {
    |s| == 3 && s[0] == '/' && s[1] == '.' && s[2] == '.'
  }

  /** Where the first segment ends, counting a leading slash as part of it. */
  function SegmentEnd(s: string, from: nat): (i: nat)
    requires from <= |s|
    ensures from <= i <= |s|
    ensures forall k :: from <= k < i ==> s[k] != '/'
    ensures i < |s| ==> s[i] == '/'
    decreases |s| - from
  {
    if from == |s| || s[from] == '/' then from else SegmentEnd(s, from + 1)
  }

  /** Drops the last segment of the output and the slash before it. */
  function DropSegment(output: string): (r: string)
    ensures |r| <= |output|
    ensures output != "" ==> |r| < |output|
  {
    if output == "" then ""
    else if output[|output| - 1] == '/' then output[..|output| - 1]
    else DropSegment(output[..|output| - 1])
  }

  /** One turn of the loop, rules A to E in order: the new input and output buffers. */
  function Turn(input: string, output: string): (r: (string, string))
    requires input != ""
    ensures |r.0| < |input|
  {
    if StartsDotDotSlash(input) then (input[3..], output)
    else if StartsDotSlash(input) then (input[2..], output)
    else if StartsSlashDotSlash(input) then (input[2..], output)
    else if IsSlashDot(input) then ("/", output)
    else if StartsSlashDotDotSlash(input) then (input[3..], DropSegment(output))
    else if IsSlashDotDot(input) then ("/", DropSegment(output))
    else if IsDots(input) then ("", output)
    else
      var end := SegmentEnd(input, 1);
      (input[end..], output + input[..end])
  }

  function RemoveDots(input: string, output: string): string
    decreases |input|
  {
    if input == "" then output
    else
      var next := Turn(input, output);
      RemoveDots(next.0, next.1)
  }

  /** Section 5.2.3: a relative path replaces everything after the last slash of the base path. */
  function Directory(path: string): (d: string)
    ensures d <= path
    ensures d == "" || d[|d| - 1] == '/'
    ensures forall i :: |d| <= i < |path| ==> path[i] != '/'
  {
    if path == "" then "" else if path[|path| - 1] == '/' then path else Directory(path[..|path| - 1])
  }

  function Merge(basePath: string, relative: string): string {
    if basePath == "" then "/" + relative else Directory(basePath) + relative
  }

  /** Section 5.2.2 for a relative reference that is a path: the base's query and fragment are dropped. */
  function ResolvedPath(basePath: string, relative: string): string {
    RemoveDots(Merge(basePath, relative), "")
  }

  // ---- The client ----

  /** A parsed server URL: scheme and authority, then a path that is empty or starts with a slash. */
  datatype ServerUrl = ServerUrl(origin: string, path: string, query: Option<string>, fragment: Option<string>)

  predicate WellFormed(u: ServerUrl) {
    && (u.path == "" || u.path[0] == '/')
    && u.origin != "" && u.origin[|u.origin| - 1] != '/'
  }

  function Render(u: ServerUrl): string {
    u.origin + u.path
    + (if u.query.Some? then "?" + u.query.value else "")
    + (if u.fragment.Some? then "#" + u.fragment.value else "")
  }

  predicate HasSlashSuffix(s: string) {
    s != "" && s[|s| - 1] == '/'
  }

  /** A string closed by a slash. */
  function Slashed(s: string): string {
    if HasSlashSuffix(s) then s else s + "/"
  }

  class Client {
    var server: string

    /** The server string is closed by a slash. */
    constructor (server: string)
      ensures this.server == Slashed(server)
    {
      this.server := server;
      new;
      if !HasSlashSuffix(server) {
        this.server := this.server + "/";
      }
    }
  }

  /** What a ClientOption makes of the server string, or the error it reports. */
  type ClientOption<!E> = string -> Result<string, E>

  /** The options in order, up to the first that fails. */
  function Configured<E>(server: string, opts: seq<ClientOption<E>>): Result<string, E>
    decreases |opts|
  {
    if opts == [] then Ok(server)
    else var next :- opts[0](server); Configured(next, opts[1..])
  }

  /** NewClient: the slash is added after the options, so whatever server they set ends in one. */
  method NewClient<E>(server: string, opts: seq<ClientOption<E>>) returns (r: Result<Client, E>)
    ensures match Configured(server, opts)
            case Err(e) => r == Err(e)
            case Ok(s) => r.Ok? && fresh(r.value) && r.value.server == Slashed(s) && HasSlashSuffix(r.value.server)
  {
    var configured := server;
    for i := 0 to |opts|
      invariant Configured(configured, opts[i..]) == Configured(server, opts)
    {
      assert opts[i..][1..] == opts[i + 1..];
      match opts[i](configured)
      case Err(e) => return Err(e);
      case Ok(next) => configured := next;
    }
    assert opts[|opts|..] == [];
    var client := new Client(configured);
    r := Ok(client);
  }

  /** The URL that NewClient's string denotes: the slash lands in whichever component comes last. */
  function Normalised(u: ServerUrl): ServerUrl {
    if HasSlashSuffix(Render(u)) then u
    else if u.fragment.Some? then u.(fragment := Some(u.fragment.value + "/"))
    else if u.query.Some? then u.(query := Some(u.query.value + "/"))
    else u.(path := u.path + "/")
  }

  lemma NormalisedRenders(u: ServerUrl)
    requires WellFormed(u)
    ensures Render(Normalised(u)) == if HasSlashSuffix(Render(u)) then Render(u) else Render(u) + "/"
    ensures WellFormed(Normalised(u))
  {
  }

  function Join3(a: string, b: string, c: string): string {
    a + "/" + b + "/" + c
  }

  /** api/v1alpha1/networks */
  const NETWORKS := Join3("api", "v1alpha1", "networks")

  /** The path of GET and DELETE requests for one network: "." is put before the leading slash. */
  function NetworkRef(id: string): string {
    "./" + NETWORKS + "/" + id
  }

  function RequestPath(u: ServerUrl, relative: string): string {
    ResolvedPath(Normalised(u).path, relative)
  }

  /** The base path closed by a slash, without dot segments. */
  function Root(path: string): string {
    RemoveDots(Slashed(path), "")
  }

  // ---- Resolution ----

  predicate NoSlash(s: string) {
    '/' !in s
  }

  /** A segment that is neither empty of meaning nor split: no slash, no dot segment. */
  predicate PlainSegment(s: string) {
    NoSlash(s) && !IsDots(s)
  }

  lemma SegmentEndFrom(seg: string, rest: string, from: nat)
    requires NoSlash(seg) && (rest == "" || rest[0] == '/') && 1 <= from <= 1 + |seg|
    ensures SegmentEnd("/" + seg + rest, from) == 1 + |seg|
    decreases 1 + |seg| - from
  {
    var s := "/" + seg + rest;
    if from < 1 + |seg| {
      assert s[from] == seg[from - 1];
      SegmentEndFrom(seg, rest, from + 1);
    } else if rest != "" {
      assert s[from] == rest[0];
    }
  }

  /** A path that starts with an ordinary segment triggers none of the dot rules. */
  lemma NoDotRule(seg: string, rest: string)
    requires PlainSegment(seg) && (rest == "" || rest[0] == '/')
    ensures var s := "/" + seg + rest;
            !StartsSlashDotSlash(s) && !IsSlashDot(s) && !StartsSlashDotDotSlash(s) && !IsSlashDotDot(s)
  {
    var s := "/" + seg + rest;
    assert forall i :: 0 <= i < |seg| ==> s[1 + i] == seg[i];
    assert forall i :: 0 <= i < |rest| ==> s[1 + |seg| + i] == rest[i];
  }

  /** An ordinary segment moves to the output unchanged. */
  lemma MovesSegment(seg: string, rest: string, output: string)
    requires PlainSegment(seg) && (rest == "" || rest[0] == '/')
    ensures RemoveDots("/" + seg + rest, output) == RemoveDots(rest, output + "/" + seg)
  {
    var s := "/" + seg + rest;
    NoDotRule(seg, rest);
    SegmentEndFrom(seg, rest, 1);
    assert s[..1 + |seg|] == "/" + seg && s[1 + |seg|..] == rest;
    assert output + ("/" + seg) == output + "/" + seg;
    assert Turn(s, output) == (rest, output + "/" + seg);
  }

  /** The first segment of a directory path that no dot rule applies to is ordinary. */
  lemma NotDots(dir: string, end: nat)
    requires 1 <= end < |dir| && dir[0] == '/' && dir[end] == '/'
    requires !StartsSlashDotSlash(dir) && !StartsSlashDotDotSlash(dir)
    ensures !IsDots(dir[1..end])
  {
  }

  predicate IsDirectory(dir: string) {
    dir != "" && dir[0] == '/' && dir[|dir| - 1] == '/'
  }

  /** A turn on a directory path is the same turn whatever follows the path, and leaves a directory path. */
  lemma DirectoryTurn(dir: string, tail: string, output: string)
    requires IsDirectory(dir) && dir != "/"
    ensures var t := Turn(dir, output);
            IsDirectory(t.0) && Turn(dir + tail, output) == (t.0 + tail, t.1)
  {
    var s := dir + tail;
    assert |dir| > 1;
    if StartsSlashDotSlash(dir) {
      assert s[2..] == dir[2..] + tail;
    } else if StartsSlashDotDotSlash(dir) {
      assert s[3..] == dir[3..] + tail;
    } else {
      var end := SegmentEnd(dir, 1);
      NotDots(dir, end);
      var seg := dir[1..end];
      assert dir == "/" + seg + dir[end..] && s == "/" + seg + (dir[end..] + tail);
      NoDotRule(seg, dir[end..]);
      NoDotRule(seg, dir[end..] + tail);
      SegmentEndFrom(seg, dir[end..] + tail, 1);
      assert s[..end] == dir[..end] && s[end..] == dir[end..] + tail;
    }
  }

  /** The output buffer once only the closing slash of a directory path is left. */
  function DirectoryOut(dir: string, output: string): string
    requires IsDirectory(dir)
    decreases |dir|
  {
    if dir == "/" then output
    else
      DirectoryTurn(dir, "", output);
      var t := Turn(dir, output);
      DirectoryOut(t.0, t.1)
  }

  /** A directory path works through the algorithm without looking at what follows it. */
  lemma {:induction false} DirectoryFirst(dir: string, tail: string, output: string)
    requires IsDirectory(dir)
    ensures RemoveDots(dir + tail, output) == RemoveDots("/" + tail, DirectoryOut(dir, output))
    ensures RemoveDots(dir, output) == DirectoryOut(dir, output) + "/"
    decreases |dir|
  {
    if dir == "/" {
      OnlySlash(output);
    } else {
      DirectoryTurn(dir, tail, output);
      var t := Turn(dir, output);
      DirectoryFirst(t.0, tail, t.1);
    }
  }

  lemma MovesTwo(a: string, b: string, tail: string, output: string)
    requires PlainSegment(a) && PlainSegment(b) && (tail == "" || tail[0] == '/')
    ensures RemoveDots("/" + a + ("/" + b + tail), output) == RemoveDots(tail, output + "/" + a + "/" + b)
  {
    MovesSegment(a, "/" + b + tail, output);
    MovesSegment(b, tail, output + "/" + a);
  }

  lemma MovesThree(a: string, b: string, c: string, tail: string, output: string)
    requires PlainSegment(a) && PlainSegment(b) && PlainSegment(c) && (tail == "" || tail[0] == '/')
    ensures RemoveDots("/" + Join3(a, b, c) + tail, output) == RemoveDots(tail, output + "/" + Join3(a, b, c))
  {
    var rest := "/" + c + tail;
    MovesTwo(a, b, rest, output);
    MovesSegment(c, tail, output + "/" + a + "/" + b);
    JoinSplits(a, b, c, tail);
    JoinAppends(a, b, c, output);
  }

  lemma JoinSplits(a: string, b: string, c: string, tail: string)
    ensures "/" + Join3(a, b, c) + tail == "/" + a + ("/" + b + ("/" + c + tail))
  {
  }

  lemma JoinAppends(a: string, b: string, c: string, output: string)
    ensures output + "/" + Join3(a, b, c) == output + "/" + a + "/" + b + "/" + c
  {
  }

  // ---- Dot removal by segments, for absolute paths ----

  /** "/a/b/c" for the segments a, b, c. */
  function Path(segments: seq<string>): string {
    if segments == [] then "" else Path(segments[..|segments| - 1]) + "/" + segments[|segments| - 1]
  }

  /**
   The segments that remain, on top of those kept so far: "." is skipped, ".." takes the last one
   back, either leaves a closing slash at the end.
   */
  function Resolved(segments: seq<string>, kept: seq<string>): seq<string>
    decreases |segments|
  {
    if segments == [] then kept
    else if IsDots(segments[0]) then
      var left := if IsDotDot(segments[0]) && kept != [] then kept[..|kept| - 1] else kept;
      if |segments| == 1 then left + [""] else Resolved(segments[1..], left)
    else Resolved(segments[1..], kept + [segments[0]])
  }

  predicate AllSegments(segments: seq<string>) {
    forall i :: 0 <= i < |segments| ==> NoSlash(segments[i])
  }

  lemma {:induction false} PathHead(segments: seq<string>)
    requires segments != []
    ensures Path(segments) == "/" + segments[0] + Path(segments[1..])
    ensures Path(segments[1..]) == "" || Path(segments[1..])[0] == '/'
  {
    if |segments| > 1 {
      var n := |segments| - 1;
      PathHead(segments[..n]);
      assert segments[..n][1..] == segments[1..][..n - 1];
      assert segments[1..][..|segments[1..]| - 1] == segments[1..][..n - 1];
    } else {
      assert segments[..0] == [] && segments[1..] == [];
    }
  }

  lemma {:induction false} DropsToSlash(before: string, segment: string)
    requires NoSlash(segment)
    ensures DropSegment(before + "/" + segment) == before
  {
    var s := before + "/" + segment;
    if segment == "" {
      assert s[..|s| - 1] == before;
    } else {
      var shorter := segment[..|segment| - 1];
      assert s[|s| - 1] == segment[|segment| - 1] && s[..|s| - 1] == before + "/" + shorter;
      DropsToSlash(before, shorter);
    }
  }

  lemma DropsLast(kept: seq<string>)
    requires AllSegments(kept)
    ensures DropSegment(Path(kept)) == Path(if kept == [] then kept else kept[..|kept| - 1])
  {
    if kept != [] {
      DropsToSlash(Path(kept[..|kept| - 1]), kept[|kept| - 1]);
    }
  }

  lemma PathSnoc(kept: seq<string>, segment: string)
    ensures Path(kept + [segment]) == Path(kept) + "/" + segment
  {
    assert (kept + [segment])[..|kept|] == kept;
  }

  /** One dot segment, with more to come or at the end. */
  lemma DotTurn(segment: string, rest: string, output: string)
    requires IsDots(segment) && (rest == "" || rest[0] == '/')
    ensures var left := if IsDotDot(segment) then DropSegment(output) else output;
            RemoveDots("/" + segment + rest, output) == if rest == "" then left + "/" else RemoveDots(rest, left)
  {
    var s := "/" + segment + rest;
    var left := if IsDotDot(segment) then DropSegment(output) else output;
    if rest == "" {
      assert Turn(s, output) == ("/", left);
      OnlySlash(left);
    } else {
      assert s[1 + |segment|..] == rest && s[1 + |segment|] == '/';
      assert Turn(s, output) == (rest, left);
    }
  }

  /** The two buffers of the algorithm do nothing else than that, for every absolute path. */
  lemma {:induction false} RemoveDotsBySegments(segments: seq<string>, kept: seq<string>)
    requires AllSegments(segments) && AllSegments(kept)
    ensures RemoveDots(Path(segments), Path(kept)) == Path(Resolved(segments, kept))
    decreases |segments|
  {
    if segments != [] {
      var first, rest := segments[0], segments[1..];
      PathHead(segments);
      assert AllSegments(rest);
      if IsDots(first) {
        var left := if IsDotDot(first) && kept != [] then kept[..|kept| - 1] else kept;
        DropsLast(kept);
        DotTurn(first, Path(rest), Path(kept));
        if |segments| == 1 {
          assert rest == [];
          PathSnoc(left, "");
          assert Path(left) + "/" + "" == Path(left) + "/";
        } else {
          PathHead(rest);
          RemoveDotsBySegments(rest, left);
        }
      } else {
        MovesSegment(first, Path(rest), Path(kept));
        PathSnoc(kept, first);
        RemoveDotsBySegments(rest, kept + [first]);
      }
    }
  }

  /** Dot segments at the start of a relative input are dropped. */
  lemma RelativeDots(rest: string, output: string)
    ensures RemoveDots("../" + rest, output) == RemoveDots(rest, output)
    ensures RemoveDots("./" + rest, output) == RemoveDots(rest, output)
    ensures RemoveDots(".", output) == output && RemoveDots("..", output) == output
  {
    assert Turn("../" + rest, output) == (rest, output) by { assert ("../" + rest)[3..] == rest; }
    assert Turn("./" + rest, output) == (rest, output) by { assert ("./" + rest)[2..] == rest; }
    assert Turn(".", output) == ("", output) && Turn("..", output) == ("", output);
  }

  /** What becomes of the last segment of a path. */
  lemma LastSegment(id: string, output: string)
    requires NoSlash(id)
    ensures RemoveDots("/" + id, output) ==
            if IsDot(id) then output + "/" else if IsDotDot(id) then DropSegment(output) + "/" else output + "/" + id
  {
    OnlySlash(output);
    if IsDots(id) {
      OnlySlash(DropSegment(output));
    } else {
      assert "/" + id == "/" + id + "";
      MovesSegment(id, "", output);
    }
  }

  lemma OnlySlash(output: string)
    ensures RemoveDots("/", output) == output + "/"
  {
    assert "/"[1..] == "" && "/"[..1] == "/" && SegmentEnd("/", 1) == 1;
    assert Turn("/", output) == ("", output + "/");
  }

  /** A leading "./" after a directory disappears. */
  lemma DotDisappears(rest: string, output: string)
    ensures RemoveDots("/" + ("./" + rest), output) == RemoveDots("/" + rest, output)
  {
    var s := "/" + ("./" + rest);
    assert s[2..] == "/" + rest;
    assert Turn(s, output) == ("/" + rest, output);
  }

  lemma Regroup(middle: string, id: string)
    ensures "./" + middle + "/" + id == "./" + (middle + "/" + id)
    ensures "/" + (middle + "/" + id) == "/" + middle + ("/" + id)
  {
  }

  /** Below any directory path only the last segment's fate is open. */
  lemma OnlyLastOpen(dir: string, a: string, b: string, c: string, id: string)
    requires IsDirectory(dir) && PlainSegment(a) && PlainSegment(b) && PlainSegment(c) && NoSlash(id)
    ensures RemoveDots(dir + ("./" + Join3(a, b, c) + "/" + id), "") ==
            RemoveDots("/" + id, DirectoryOut(dir, "") + "/" + Join3(a, b, c))
  {
    var out := DirectoryOut(dir, "");
    Regroup(Join3(a, b, c), id);
    DirectoryFirst(dir, "./" + (Join3(a, b, c) + "/" + id), "");
    DotDisappears(Join3(a, b, c) + "/" + id, out);
    MovesThree(a, b, c, "/" + id, out);
  }

  /**
   Below any directory path: the directory's own path, the three segments, then the id, exactly when
   that is no dot segment.
   */
  lemma ResolvesBelow(dir: string, a: string, b: string, c: string, id: string)
    requires IsDirectory(dir) && PlainSegment(a) && PlainSegment(b) && PlainSegment(c) && NoSlash(id)
    ensures (RemoveDots(dir + ("./" + Join3(a, b, c) + "/" + id), "") ==
             RemoveDots(dir, "") + Join3(a, b, c) + "/" + id) <==> !IsDots(id)
  {
    var o := DirectoryOut(dir, "") + "/" + Join3(a, b, c);
    OnlyLastOpen(dir, a, b, c, id);
    LastSegment(id, o);
    DirectoryFirst(dir, "", "");
    assert RemoveDots(dir, "") + Join3(a, b, c) + "/" + id == o + "/" + id;
  }

  lemma BelowNetworks(dir: string, id: string)
    requires IsDirectory(dir) && NoSlash(id)
    ensures RemoveDots(dir + NetworkRef(id), "") == RemoveDots(dir, "") + NETWORKS + "/" + id <==> !IsDots(id)
  {
    ResolvesBelow(dir, "api", "v1alpha1", "networks", id);
  }

  /** Nothing follows the path in the server URL, or the path is already closed by a slash. */
  predicate SlashLandsInPath(u: ServerUrl) {
    (u.query.None? && u.fragment.None?) || HasSlashSuffix(u.path) || u.path == ""
  }

  lemma {:induction false} DirectoryOfSlashed(path: string)
    requires HasSlashSuffix(path)
    ensures Directory(path) == path
  {
  }

  /** With the slash in the path, a relative reference is resolved right below the closed path. */
  lemma RequestBelow(u: ServerUrl, relative: string)
    requires WellFormed(u) && SlashLandsInPath(u)
    ensures RequestPath(u, relative) == RemoveDots(Slashed(u.path) + relative, "")
  {
    var n := Normalised(u).path;
    assert n == Slashed(u.path) || (n == "" && Slashed(u.path) == "/");
    DirectoryOfSlashed(Slashed(u.path));
  }

  /**
   For a server URL without a query or fragment (or with a closed path), the request for a legal
   id goes to the dot-free base path, the collection, and the id unchanged; among segments, "."
   and ".." are the only ids that do not survive.
   */
  lemma RequestPathIff(u: ServerUrl, id: string)
    requires WellFormed(u) && SlashLandsInPath(u) && NoSlash(id)
    ensures RequestPath(u, NetworkRef(id)) == Root(u.path) + NETWORKS + "/" + id <==> !IsDots(id)
  {
    RequestBelow(u, NetworkRef(id));
    BelowNetworks(Slashed(u.path), id);
  }

  /** What follows the last slash of the base path. */
  function LastOf(path: string): string {
    path[|Directory(path)|..]
  }

  /** Closing the base path would change nothing: its last segment is ".", or ".." with nothing left to remove. */
  predicate LastIsVoid(path: string) {
    IsDot(LastOf(path)) || (IsDotDot(LastOf(path)) && RemoveDots(Directory(path), "") == "/")
  }

  /** Closing a base path, by the kind of its last segment. */
  lemma ClosedRoot(dir: string, last: string)
    requires IsDirectory(dir) && NoSlash(last)
    ensures var out := DirectoryOut(dir, "");
            RemoveDots(dir + last + "/", "") ==
            if IsDot(last) then out + "/"
            else if IsDotDot(last) then DropSegment(out) + "/"
            else out + "/" + last + "/"
  {
    var out := DirectoryOut(dir, "");
    if IsDots(last) {
      var s := "/" + (last + "/");
      assert dir + last + "/" == dir + (last + "/");
      DirectoryFirst(dir, last + "/", "");
      assert s[|last|..] == "/" || s[|last| + 1..] == "/";
      assert Turn(s, out) == ("/", if IsDot(last) then out else DropSegment(out));
      OnlySlash(out);
      OnlySlash(DropSegment(out));
    } else {
      RootKeepsSegment(dir, last);
      DirectoryFirst(dir, "", "");
    }
  }

  /** Resolved against an unclosed base path, whether the request still goes below the closed one. */
  lemma UnclosedIff(dir: string, last: string, id: string)
    requires IsDirectory(dir) && NoSlash(last) && last != "" && NoSlash(id) && !IsDots(id)
    ensures RemoveDots(dir + NetworkRef(id), "") == RemoveDots(dir + last + "/", "") + NETWORKS + "/" + id <==>
            IsDot(last) || (IsDotDot(last) && RemoveDots(dir, "") == "/")
  {
    var out := DirectoryOut(dir, "");
    BelowNetworks(dir, id);
    DirectoryFirst(dir, "", "");
    ClosedRoot(dir, last);
    if IsDotDot(last) {
      if out != "" {
        LongerDiffers(DropSegment(out) + "/", out + "/", NETWORKS, id);
      }
    } else if !IsDot(last) {
      LongerDiffers(out + "/", out + "/" + last + "/", NETWORKS, id);
    }
  }

  /** A dot segment in place of the id leaves a path that ends in a slash. */
  lemma DotsEndInSlash(dir: string, id: string)
    requires IsDirectory(dir) && IsDots(id)
    ensures HasSlashSuffix(RemoveDots(dir + NetworkRef(id), ""))
  {
    OnlyLastOpen(dir, "api", "v1alpha1", "networks", id);
    LastSegment(id, DirectoryOut(dir, "") + "/" + Join3("api", "v1alpha1", "networks"));
  }

  /**
   With a query or a fragment the slash lands there instead, and resolution replaces the last
   segment of the base path by the collection. The request still goes where it should exactly when
   that segment stood for nothing.
   */
  lemma QueryLosesLastSegment(u: ServerUrl, id: string)
    requires WellFormed(u) && !SlashLandsInPath(u) && NoSlash(id)
    ensures !IsDots(id) ==>
              RequestPath(u, NetworkRef(id)) == RemoveDots(Directory(u.path), "") + NETWORKS + "/" + id
    ensures RequestPath(u, NetworkRef(id)) == Root(u.path) + NETWORKS + "/" + id <==>
            !IsDots(id) && LastIsVoid(u.path)
  {
    var dir, last := Directory(u.path), LastOf(u.path);
    assert Normalised(u).path == u.path && u.path[0] == '/';
    assert u.path == dir + last && NoSlash(last) && u.path + "/" == dir + last + "/";
    if IsDots(id) {
      DotsEndInSlash(dir, id);
      assert !HasSlashSuffix(Root(u.path) + NETWORKS + "/" + id);
    } else {
      BelowNetworks(dir, id);
      UnclosedIff(dir, last, id);
    }
  }

  /** For every base URL and every segment: exactly when the client's request goes below the closed base path. */
  lemma RequestPathDecided(u: ServerUrl, id: string)
    requires WellFormed(u) && NoSlash(id)
    ensures RequestPath(u, NetworkRef(id)) == Root(u.path) + NETWORKS + "/" + id <==>
            !IsDots(id) && (SlashLandsInPath(u) || LastIsVoid(u.path))
  {
    if SlashLandsInPath(u) {
      RequestPathIff(u, id);
    } else {
      QueryLosesLastSegment(u, id);
    }
  }

  lemma LongerDiffers(short: string, long: string, x: string, y: string)
    requires |short| < |long|
    ensures short + x + "/" + y != long + x + "/" + y
  {
    assert |long + x + "/" + y| > |short + x + "/" + y|;
  }

  lemma RootKeepsSegment(dir: string, seg: string)
    requires IsDirectory(dir) && PlainSegment(seg)
    ensures RemoveDots(dir + seg + "/", "") == RemoveDots(dir, "") + seg + "/"
  {
    var out := DirectoryOut(dir, "");
    assert dir + seg + "/" == dir + (seg + "/") && "/" + (seg + "/") == "/" + seg + "/";
    DirectoryFirst(dir, seg + "/", "");
    MovesSegment(seg, "/", out);
    assert SegmentEnd("/", 1) == 1 && "/"[1..] == "" && "/"[..1] == "/";
    assert RemoveDots("/", out + "/" + seg) == out + "/" + seg + "/";
  }

  // ---- The server's route table ----

  datatype Method = GET | POST | DELETE | OtherMethod

  datatype Route =
    | ListNetworks
    | CreateNetwork
    | GetHealth
    | GetNetwork(id: string)
    | DeleteNetwork(id: string)
    | EmptyId            // the trailing-slash guards of New
    | MethodNotAllowed
    | NotFound

  /**
   HandlerWithOptions and the guards of New: a static segment is tried before the parameter, which
   takes one non-empty segment.
   */
  function Dispatch(verb: Method, path: string): Route {
    var collection := "/" + NETWORKS;
    if path == collection then
      match verb case GET => ListNetworks case POST => CreateNetwork case _ => MethodNotAllowed
    else if !(collection + "/" <= path) then NotFound
    else
      var id := path[|collection| + 1..];
      if id == "" then
        if verb.GET? || verb.DELETE? then EmptyId else MethodNotAllowed
      else if '/' in id then NotFound
      else if id == "health" && verb.GET? then GetHealth
      else match verb case GET => GetNetwork(id) case DELETE => DeleteNetwork(id) case _ => MethodNotAllowed
  }

  lemma DispatchId(verb: Method, id: string)
    requires NoSlash(id) && id != ""
    ensures Dispatch(verb, "/" + NETWORKS + "/" + id) ==
            match verb
            case GET => if id == "health" then GetHealth else GetNetwork(id)
            case DELETE => DeleteNetwork(id)
            case _ => MethodNotAllowed
  {
    var collection := "/" + NETWORKS;
    var path := collection + "/" + id;
    assert path[..|collection| + 1] == collection + "/" && path[|collection| + 1..] == id;
  }

  /** An operation is reached only on the collection's own path, or one non-empty segment below it. */
  lemma OnlyThesePathsReach(verb: Method, path: string)
    ensures var r := Dispatch(verb, path); var collection := "/api/v1alpha1/networks";
            && (r.ListNetworks? <==> verb.GET? && path == collection)
            && (r.CreateNetwork? <==> verb.POST? && path == collection)
            && (r.GetHealth? <==> verb.GET? && path == collection + "/health")
            && (r.GetNetwork? <==>
                  verb.GET? && NetworkAt(collection, path) && path != collection + "/health")
            && (r.DeleteNetwork? <==> verb.DELETE? && NetworkAt(collection, path))
            && (r.GetNetwork? || r.DeleteNetwork? ==> path == collection + "/" + r.id)
            && (r.EmptyId? <==> (verb.GET? || verb.DELETE?) && path == collection + "/")
            && (r.NotFound? <==> path != collection && path != collection + "/" && !NetworkAt(collection, path))
  {
    CollectionIs();
    var collection := "/api/v1alpha1/networks";
    if collection + "/" <= path {
      var id := path[|collection| + 1..];
      assert path == collection + "/" + id;
      assert path == collection + "/health" <==> id == "health" by {
        assert (collection + "/health")[|collection| + 1..] == "health";
        assert collection + "/health" == collection + "/" + "health";
      }
    }
  }

  lemma CollectionIs()
    ensures "/" + NETWORKS == "/api/v1alpha1/networks"
  {
    assert "api" + "/" + "v1alpha1" == "api/v1alpha1";
    assert "/" + ("api/v1alpha1" + "/" + "networks") == "/api/v1alpha1/networks";
  }

  /** One non-empty segment below the collection. */
  predicate NetworkAt(collection: string, path: string) {
    collection + "/" < path && NoSlash(path[|collection| + 1..])
  }

  lemma LegalIdIsSegment(id: string)
    requires LegalId(id)
    ensures NoSlash(id) && !IsDots(id) && id != ""
  {
    assert forall i :: 0 <= i < |id| ==> IsLowerDigitHyphen(id[i]) && id[i] != '/';
  }

  /**
   Client and server agree: at a root base URL, for every id the validators accept, the server
   dispatches the client's request to the operation meant, with the id meant. The one exception
   is a GET of the id "health", which reaches the health check.
   */
  lemma ClientReachesOperation(u: ServerUrl, id: string)
    requires WellFormed(u) && SlashLandsInPath(u) && Root(u.path) == "/" && PathIdAccepted(id)
    ensures Dispatch(GET, RequestPath(u, NetworkRef(id))) == GetNetwork(id) <==> id != "health"
    ensures Dispatch(GET, RequestPath(u, NetworkRef("health"))) == GetHealth
    ensures Dispatch(DELETE, RequestPath(u, NetworkRef(id))) == DeleteNetwork(id)
  {
    IdPatternIsRules(id);
    LegalIdIsSegment(id);
    RequestPathIff(u, id);
    RequestPathIff(u, "health");
    DispatchId(GET, id);
    DispatchId(DELETE, id);
    DispatchId(GET, "health");
    assert "/" + NETWORKS + "/" + id == Root(u.path) + NETWORKS + "/" + id;
  }

  /** List and create requests reach their operations at a root base URL. */
  lemma CollectionReachesOperations(u: ServerUrl)
    requires WellFormed(u) && SlashLandsInPath(u) && Root(u.path) == "/"
    ensures Dispatch(GET, RequestPath(u, "./" + NETWORKS)) == ListNetworks
    ensures Dispatch(POST, RequestPath(u, "./" + NETWORKS)) == CreateNetwork
  {
    CollectionPath(u);
    assert "/" + NETWORKS == Root(u.path) + NETWORKS;
  }

  lemma CollectionPath(u: ServerUrl)
    requires WellFormed(u) && SlashLandsInPath(u)
    ensures RequestPath(u, "./" + NETWORKS) == Root(u.path) + NETWORKS
  {
    RequestBelow(u, "./" + NETWORKS);
    CollectionBelow(Slashed(u.path), "api", "v1alpha1", "networks");
  }

  lemma CollectionBelow(dir: string, a: string, b: string, c: string)
    requires IsDirectory(dir) && PlainSegment(a) && PlainSegment(b) && PlainSegment(c)
    ensures RemoveDots(dir + ("./" + Join3(a, b, c)), "") == RemoveDots(dir, "") + Join3(a, b, c)
  {
    var out := DirectoryOut(dir, "");
    DirectoryFirst(dir, "./" + Join3(a, b, c), "");
    DotDisappears(Join3(a, b, c), out);
    MovesThree(a, b, c, "", out);
    assert "/" + Join3(a, b, c) + "" == "/" + Join3(a, b, c);
    assert out + "/" + Join3(a, b, c) == RemoveDots(dir, "") + Join3(a, b, c);
  }

  /** An empty id never reaches an operation: the guards answer it. */
  lemma EmptyIdIsGuarded(u: ServerUrl)
    requires WellFormed(u) && SlashLandsInPath(u) && Root(u.path) == "/"
    ensures Dispatch(GET, RequestPath(u, NetworkRef(""))) == EmptyId
    ensures Dispatch(DELETE, RequestPath(u, NetworkRef(""))) == EmptyId
  {
    RequestPathIff(u, "");
    var path := "/" + NETWORKS + "/";
    assert RequestPath(u, NetworkRef("")) == path;
    assert path[|"/" + NETWORKS| + 1..] == "";
  }
}
