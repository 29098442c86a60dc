/**
 * The incremental request-header parser of the server (Server/src/request/request.rs).
 *
 * A request is fed text chunks. Until a chunk contains the header terminator
 * CRLFCRLF (section 2.1 of RFC 9112) the chunk is only buffered. The chunk that
 * holds the terminator completes the header: the request line (section 3 of
 * RFC 9112) and the `name:value` field lines (section 5 of RFC 9112) are parsed,
 * and the state moves on to `OnBody` or `Finished`.
 *
 * The class `Request` holds the fields the Rust struct updates in place; its
 * methods are specified by the pure functions on `RequestData` below, about
 * which the properties are proved.
 */
module RequestParser {
  import opened Wrappers
  import opened Numbers
  import opened Strings

  /** The request methods of section 9 of RFC 9110, PATCH (RFC 5789), and two markers. */
  datatype Method = Undefined | Get | Post | Delete | Options | Head | Put | Patch | Trace | Connect | Unknown

  /** `impl From<&str> for Method`: the nine verbs, case-sensitive; anything else is `Unknown`. */
  function MethodFrom(s: string): (m: Method)
    ensures m != Method.Undefined
    ensures m == Unknown <==> s !in Verbs
  {
    match s
    case "GET" => Get
    case "POST" => Post
    case "DELETE" => Delete
    case "OPTIONS" => Options
    case "HEAD" => Head
    case "PUT" => Put
    case "CONNECT" => Connect
    case "PATCH" => Patch
    case "TRACE" => Trace
    case _ => Unknown
  }

  const Verbs: set<string> := {"GET", "POST", "DELETE", "OPTIONS", "HEAD", "PUT", "CONNECT", "PATCH", "TRACE"}

  /** `impl TryInto<&str> for Method`: the verb of a method, no verb for the two markers. */
  function MethodName(m: Method): (r: Result<string, ()>)
    ensures r.Err? <==> m == Method.Undefined || m == Unknown
    ensures r.Ok? ==> r.value in Verbs
  {
    match m
    case Get => Ok("GET")
    case Post => Ok("POST")
    case Delete => Ok("DELETE")
    case Head => Ok("HEAD")
    case Put => Ok("PUT")
    case Connect => Ok("CONNECT")
    case Patch => Ok("PATCH")
    case Trace => Ok("TRACE")
    case Options => Ok("OPTIONS")
    case Undefined => Err(())
    case Unknown => Err(())
  }

  /** `MethodName` inverts `MethodFrom` on the nine verbs, and `MethodFrom` inverts `MethodName`. */
  lemma MethodNameRoundTrip(s: string, m: Method)
    ensures s in Verbs ==> MethodName(MethodFrom(s)) == Ok(s)
    ensures MethodName(m).Ok? ==> MethodFrom(MethodName(m).value) == m
  {
  }

  /**
   * `Method::try_from(&str)`: Rust's blanket `TryFrom` built from `From<&str>`,
   * which cannot fail.
   */
  function MethodTryFrom(s: string): (r: Result<Method, ()>)
    ensures r.Ok? && r.value == MethodFrom(s)
  {
    Ok(MethodFrom(s))
  }

  datatype State = Undefined | OnHeader | OnBody | Finished

  /** `State::is`. */
  function StateIs(s: State, other: State): (r: bool)
    ensures r <==> s == other
  {
    s == other
  }

  /** `State::is_not`, which compares for equality exactly as `is` does. */
  function StateIsNot(s: State, other: State): (r: bool)
    ensures r == StateIs(s, other)
  {
    s == other
  }

  /** `State::is_not` as its name promises: the negation of `is`. */
  function StateDiffers(s: State, other: State): (r: bool)
    ensures r <==> !StateIs(s, other)
    ensures r <==> !StateIsNot(s, other)
  {
    s != other
  }

  /** As written, a state "is not" itself, and is not "not" any other state. */
  lemma IsNotMeansIs()
    ensures StateIsNot(Finished, Finished) && !StateDiffers(Finished, Finished)
    ensures !StateIsNot(OnHeader, Finished) && StateDiffers(OnHeader, Finished)
  {
  }

  /** The statuses the parser reports: 400 Bad Request, 501 Not Implemented. */
  const BadRequest: u16 := 400
  const NotImplemented: u16 := 501

  const Terminator: string := "\r\n\r\n"
  const LineBreak: string := "\r\n"

  /** The fields the header-line loop updates. */
  datatype HeaderFields = HeaderFields(
    host: Option<string>,
    accept: Option<string>,
    keepAlive: bool,
    headers: map<string, string>)

  /** A snapshot of every field of a request. */
  datatype RequestData = RequestData(
    httpMethod: Method,
    httpVersion: string,
    path: string,
    accept: Option<string>,
    host: Option<string>,
    headers: map<string, string>,
    contentLength: Option<u64>,
    rawBody: Option<string>,
    rawHeader: string,
    state: State,
    keepAlive: bool)
  {
    function Fields(): HeaderFields
    {
      HeaderFields(host, accept, keepAlive, headers)
    }

    function WithFields(f: HeaderFields): RequestData
    {
      this.(host := f.host, accept := f.accept, keepAlive := f.keepAlive, headers := f.headers)
    }
  }

  /** The record `Request::try_from` starts from. */
  const Initial: RequestData :=
    RequestData(Method.Undefined, "", "", None, None, map[], None, None, "", State.Undefined, true)

  /**
   * `parse_first_line`: exactly three whitespace-separated tokens, else 400.
   * The 501 branch of the source is unreachable, because `MethodTryFrom` never fails.
   */
  function FirstLine(d: RequestData, line: string): (r: Result<RequestData, u16>)
    ensures r.Ok? <==> |SplitWhitespace(line)| == 3
    ensures r.Err? ==> r.error == BadRequest
    ensures r.Ok? ==> r.value == d.(httpMethod := MethodFrom(SplitWhitespace(line)[0]),
                                    path := SplitWhitespace(line)[1],
                                    httpVersion := SplitWhitespace(line)[2])
  {
    var split := SplitWhitespace(line);
    if |split| != 3 then Err(BadRequest)
    else
      match MethodTryFrom(split[0])
      case Err(_) => Err(NotImplemented)
      case Ok(m) => Ok(d.(httpMethod := m, path := split[1], httpVersion := split[2]))
  }

  /** One non-empty header line: `name:value`, split at the first ':' and not trimmed. */
  function HeaderLine(f: HeaderFields, line: string): (r: Result<HeaderFields, u16>)
    ensures r.Err? <==> ':' !in line || (IsHostLine(line) && f.host.Some?)
    ensures r.Err? ==> r.error == BadRequest
    ensures r.Ok? ==> (r.value.keepAlive ==> f.keepAlive) && (f.host.Some? ==> r.value.host == f.host)
  {
    match SplitAtChar(line, ':')
    case None => Err(BadRequest)
    case Some((name, value)) =>
      if name == "Host" then
        if f.host.None? then Ok(f.(host := Some(value))) else Err(BadRequest)
      else if name == "Connection" then
        Ok(if value == "close" then f.(keepAlive := false) else f)
      else if name == "Accept" then
        Ok(f.(accept := Some(if f.accept.None? then value else f.accept.value + " " + value)))
      else
        Ok(f.(headers := f.headers[name := if name in f.headers then f.headers[name] + "  " + value else value]))
  }

  /** What the header-line loop leaves behind: the fields reached, and the error that stopped it. */
  datatype LinesOutcome = LinesOutcome(fields: HeaderFields, error: Option<u16>)

  /** `parse_other_lines`: the lines up to the first empty one, stopping at the first error. */
  function HeaderLines(f: HeaderFields, lines: seq<string>): (out: LinesOutcome)
    ensures out.error.Some? ==> out.error.value == BadRequest
    ensures out.fields.keepAlive ==> f.keepAlive
    ensures f.host.Some? ==> out.fields.host == f.host
    decreases |lines|
  {
    if lines == [] || lines[0] == "" then LinesOutcome(f, None)
    else
      match HeaderLine(f, lines[0])
      case Err(e) => LinesOutcome(f, Some(e))
      case Ok(g) => HeaderLines(g, lines[1..])
  }

  /** `deserialize`: the buffered header split on CRLF, first line then the others. */
  function DeserializeStep(d: RequestData): (r: (RequestData, Result<(), u16>))
    ensures r.1.Err? ==> r.1.error == BadRequest
    ensures |SplitWhitespace(SplitOn(d.rawHeader, LineBreak)[0])| != 3 ==> r == (d, Err(BadRequest))
    ensures r.1.Ok? ==> |SplitWhitespace(SplitOn(d.rawHeader, LineBreak)[0])| == 3
    ensures r.0.rawHeader == d.rawHeader && r.0.rawBody == d.rawBody && r.0.state == d.state
    ensures r.0.contentLength == d.contentLength
  {
    var lines := SplitOn(d.rawHeader, LineBreak);
    match FirstLine(d, lines[0])
    case Err(e) => (d, Err(e))
    case Ok(d1) =>
      var out := HeaderLines(d1.Fields(), lines[1..]);
      (d1.WithFields(out.fields), if out.error.None? then Ok(()) else Err(out.error.value))
  }

  /**
   * `push`: the terminator is searched for in the new chunk only. Undefined in
   * state `OnBody`, where the source stops with `todo!()`.
   */
  function PushStep(d: RequestData, chunk: string): (r: (RequestData, Result<(), u16>))
    requires d.state != OnBody
    ensures r.0.contentLength == d.contentLength
    ensures r.1.Err? ==> r.1.error == BadRequest && r.0.state == OnHeader
    ensures r.1.Ok? && r.0.state != d.state ==> r.0.rawHeader == "" && (r.0.state == OnBody || r.0.state == Finished)
    ensures r.0.state == d.state && r.1.Ok? ==> r.0.rawHeader == "" || r.0.rawHeader == d.rawHeader + chunk
  {
    match SplitOnce(chunk, Terminator)
    case None => (d.(rawHeader := d.rawHeader + chunk), Ok(()))
    case Some((header, body)) =>
      var d1 := d.(rawHeader := d.rawHeader + header, state := OnHeader,
                   rawBody := if body != "" then Some(body) else d.rawBody);
      var (d2, r) := DeserializeStep(d1);
      if r.Err? then (d2, r)
      else (d2.(rawHeader := "", state := if d2.rawBody.Some? then OnBody else Finished), Ok(()))
  }

  // ---------------------------------------------------------------------------
  // Properties of the header-line loop

  /** The index of the first empty line (where the header section ends), or the number of lines. */
  function HeaderEnd(lines: seq<string>): (n: nat)
    ensures n <= |lines|
    ensures forall i :: 0 <= i < n ==> lines[i] != ""
    ensures n < |lines| ==> lines[n] == ""
  {
    if lines == [] || lines[0] == "" then 0
    else
      var n := 1 + HeaderEnd(lines[1..]);
      assert forall i :: 1 <= i < n ==> lines[i] == lines[1..][i - 1];
      n
  }

  /** The effect of one well-formed line `name:value`, by field name. */
  lemma HeaderLineEffect(f: HeaderFields, name: string, value: string)
    requires ':' !in name
    ensures name == "Host" ==>
      HeaderLine(f, name + ":" + value) == if f.host.None? then Ok(f.(host := Some(value))) else Err(BadRequest)
    ensures name == "Connection" ==>
      HeaderLine(f, name + ":" + value) == Ok(f.(keepAlive := f.keepAlive && value != "close"))
    ensures name == "Accept" && f.accept.None? ==>
      HeaderLine(f, name + ":" + value) == Ok(f.(accept := Some(value)))
    ensures name == "Accept" && f.accept.Some? ==>
      HeaderLine(f, name + ":" + value) == Ok(f.(accept := Some(f.accept.value + " " + value)))
    ensures name != "Host" && name != "Connection" && name != "Accept" && name in f.headers ==>
      HeaderLine(f, name + ":" + value) == Ok(f.(headers := f.headers[name := f.headers[name] + "  " + value]))
    ensures name != "Host" && name != "Connection" && name != "Accept" && name !in f.headers ==>
      HeaderLine(f, name + ":" + value) == Ok(f.(headers := f.headers[name := value]))
  {
    SplitOnceAtChar(name, ':', value);
    SplitAtCharIsSplitOnce(name + ":" + value, ':');
  }

  /** A non-empty line without ':' is rejected with 400. */
  lemma HeaderLineWithoutColon(f: HeaderFields, line: string)
    requires line != "" && ':' !in line
    ensures HeaderLine(f, line) == Err(BadRequest)
  {
  }

  /** Values are kept untrimmed: "Connection: close" (with a space) leaves keep-alive on. */
  lemma ConnectionCloseNeedsExactValue(f: HeaderFields)
    ensures HeaderLine(f, "Connection: close") == Ok(f)
    ensures HeaderLine(f, "Connection:close") == Ok(f.(keepAlive := false))
  {
    assert "Connection: close" == "Connection" + ":" + " close";
    assert "Connection:close" == "Connection" + ":" + "close";
    HeaderLineEffect(f, "Connection", " close");
    HeaderLineEffect(f, "Connection", "close");
  }

  /** When the loop succeeds, every line of the header section had a ':'. */
  lemma {:induction false} HeaderLinesAllHaveColon(f: HeaderFields, lines: seq<string>)
    requires HeaderLines(f, lines).error.None?
    ensures forall i :: 0 <= i < HeaderEnd(lines) ==> SplitAtChar(lines[i], ':').Some?
    decreases |lines|
  {
    if lines != [] && lines[0] != "" {
      var g := HeaderLine(f, lines[0]).value;
      HeaderLinesAllHaveColon(g, lines[1..]);
      assert forall i :: 1 <= i < HeaderEnd(lines) ==> lines[i] == lines[1..][i - 1];
    }
  }

  /** The line is exactly a `Connection` field whose raw value is "close". */
  predicate ClosesConnection(line: string)
  {
    SplitAtChar(line, ':') == Some(("Connection", "close"))
  }

  /**
   * Keep-alive ends up off exactly when it was off already or some line of the
   * header section is `Connection:close`.
   */
  lemma {:induction false} KeepAliveIffNoClose(f: HeaderFields, lines: seq<string>)
    requires HeaderLines(f, lines).error.None?
    ensures HeaderLines(f, lines).fields.keepAlive <==>
      f.keepAlive && forall i :: 0 <= i < HeaderEnd(lines) ==> !ClosesConnection(lines[i])
    decreases |lines|
  {
    if lines != [] && lines[0] != "" {
      var g := HeaderLine(f, lines[0]).value;
      KeepAliveIffNoClose(g, lines[1..]);
      assert g.keepAlive <==> f.keepAlive && !ClosesConnection(lines[0]);
      assert forall i :: 1 <= i < HeaderEnd(lines) ==> lines[i] == lines[1..][i - 1];
    }
  }

  predicate IsHostLine(line: string)
  {
    SplitAtChar(line, ':').Some? && SplitAtChar(line, ':').value.0 == "Host"
  }

  /** A known host is never cleared, and a `Host` line is accepted exactly when no host is known yet. */
  lemma HostLineStep(f: HeaderFields, line: string)
    ensures f.host.Some? && HeaderLine(f, line).Ok? ==> HeaderLine(f, line).value.host.Some?
    ensures IsHostLine(line) && f.host.Some? ==> HeaderLine(f, line) == Err(BadRequest)
    ensures IsHostLine(line) && HeaderLine(f, line).Ok? ==> HeaderLine(f, line).value.host.Some?
  {
  }

  /** Once a host is known, a further `Host` line in the header section is rejected. */
  lemma {:induction false} HostAlreadySet(f: HeaderFields, lines: seq<string>, j: nat)
    requires f.host.Some?
    requires j < HeaderEnd(lines) && IsHostLine(lines[j])
    ensures HeaderLines(f, lines).error == Some(BadRequest)
    decreases j
  {
    var step := HeaderLine(f, lines[0]);
    HostLineStep(f, lines[0]);
    assert HeaderLines(f, lines) == if step.Err? then LinesOutcome(f, Some(step.error)) else HeaderLines(step.value, lines[1..]);
    if step.Ok? {
      assert lines[1..][j - 1] == lines[j];
      HostAlreadySet(step.value, lines[1..], j - 1);
    }
  }

  /** Two `Host` lines in the header section are rejected with 400. */
  lemma {:induction false} DuplicateHostRejected(f: HeaderFields, lines: seq<string>, i: nat, j: nat)
    requires i < j < HeaderEnd(lines)
    requires IsHostLine(lines[i]) && IsHostLine(lines[j])
    ensures HeaderLines(f, lines).error == Some(BadRequest)
    decreases i
  {
    var step := HeaderLine(f, lines[0]);
    HostLineStep(f, lines[0]);
    assert HeaderLines(f, lines) == if step.Err? then LinesOutcome(f, Some(step.error)) else HeaderLines(step.value, lines[1..]);
    if step.Ok? {
      assert lines[1..][j - 1] == lines[j];
      if i == 0 {
        HostAlreadySet(step.value, lines[1..], j - 1);
      } else {
        assert lines[1..][i - 1] == lines[i];
        DuplicateHostRejected(step.value, lines[1..], i - 1, j - 1);
      }
    }
  }

  // ---------------------------------------------------------------------------
  // Properties of push

  /** A chunk without the terminator is only appended to the raw header; nothing else changes. */
  lemma PushWithoutTerminator(d: RequestData, chunk: string)
    requires d.state != OnBody
    requires forall j :: 0 <= j ==> !MatchAt(chunk, Terminator, j)
    ensures PushStep(d, chunk) == (d.(rawHeader := d.rawHeader + chunk), Ok(()))
  {
  }

  /**
   * The terminator is looked for in each chunk alone: two chunks that each lack
   * it leave the state as it was, even when their concatenation holds it.
   */
  lemma SplitTerminatorNotDetected(d: RequestData, c1: string, c2: string)
    requires d.state != OnBody
    requires forall j :: 0 <= j ==> !MatchAt(c1, Terminator, j)
    requires forall j :: 0 <= j ==> !MatchAt(c2, Terminator, j)
    ensures PushStep(d, c1).0.state == d.state
    ensures PushStep(PushStep(d, c1).0, c2) == (d.(rawHeader := d.rawHeader + c1 + c2), Ok(()))
  {
    PushWithoutTerminator(d, c1);
    PushWithoutTerminator(PushStep(d, c1).0, c2);
  }

  /** "\r\n" then "\r\n": a terminator split across two chunks goes unseen. */
  lemma SplitTerminatorExample()
    ensures MatchAt(LineBreak + LineBreak, Terminator, 0)
    ensures PushStep(PushStep(Initial, LineBreak).0, LineBreak).0.state == State.Undefined
  {
    forall j | 0 <= j
      ensures !MatchAt(LineBreak, Terminator, j)
    {
    }
    SplitTerminatorNotDetected(Initial, LineBreak, LineBreak);
  }

  /** No push assigns the content length. */
  lemma PushKeepsContentLength(d: RequestData, chunk: string)
    requires d.state != OnBody
    ensures PushStep(d, chunk).0.contentLength == d.contentLength
  {
  }

  /**
   * A completed header: the raw header is cleared, and the state is `OnBody`
   * exactly when a body is pending (text after the terminator, or a body kept
   * from an earlier failed push), else `Finished`.
   */
  lemma PushCompletes(d: RequestData, chunk: string, header: string, body: string)
    requires d.state != OnBody
    requires SplitOnce(chunk, Terminator) == Some((header, body))
    requires PushStep(d, chunk).1.Ok?
    ensures PushStep(d, chunk).0.rawHeader == ""
    ensures PushStep(d, chunk).0.state == (if body != "" || d.rawBody.Some? then OnBody else Finished)
    ensures d.rawBody.None? ==> (PushStep(d, chunk).0.state == OnBody <==> body != "")
  {
  }

  /** A failed push reports 400 and leaves the request in `OnHeader`, its raw header kept. */
  lemma PushFails(d: RequestData, chunk: string)
    requires d.state != OnBody
    requires PushStep(d, chunk).1.Err?
    ensures PushStep(d, chunk).1.error == BadRequest
    ensures PushStep(d, chunk).0.state == OnHeader
    ensures PushStep(d, chunk).0.rawHeader == d.rawHeader + SplitOnce(chunk, Terminator).value.0
  {
    var (header, body) := SplitOnce(chunk, Terminator).value;
    var d1 := d.(rawHeader := d.rawHeader + header, state := OnHeader,
                 rawBody := if body != "" then Some(body) else d.rawBody);
    var lines := SplitOn(d1.rawHeader, LineBreak);
    match FirstLine(d1, lines[0])
    case Err(e) =>
    case Ok(d2) =>
  }

  /** A chunk made of one line without '\r' and the terminator splits there, and the line is one CRLF part. */
  lemma TerminatedLine(line: string)
    requires '\r' !in line
    ensures SplitOnce(line + Terminator, Terminator) == Some((line, ""))
    ensures SplitOn(line, LineBreak) == [line]
  {
    var chunk := line + Terminator;
    forall j | 0 <= j < |line|
      ensures !MatchAt(chunk, Terminator, j)
    {
      assert chunk[j] == line[j] != '\r';
      if j + |Terminator| <= |chunk| {
        assert chunk[j..j + |Terminator|][0] == chunk[j];
      }
    }
    assert MatchAt(chunk, Terminator, |line|) by {
      assert chunk[|line|..|line| + |Terminator|] == Terminator;
    }
    var split := SplitOnce(chunk, Terminator);
    var before := split.value.0;
    assert chunk == before + Terminator + split.value.1;
    assert chunk[|before|..|before| + |Terminator|] == Terminator;
    assert MatchAt(chunk, Terminator, |before|);
    assert |before| == |line|;
    assert before == chunk[..|line|] == line;
    assert |split.value.1| == 0;
    forall j | 0 <= j
      ensures !MatchAt(line, LineBreak, j)
    {
      if j + |LineBreak| <= |line| {
        assert line[j..j + |LineBreak|][0] == line[j];
      }
    }
    SplitOnNoMatch(line, LineBreak);
  }

  /**
   * `push` refuses only `OnBody`: a `Finished` request takes another chunk.
   * A malformed request line sends it back to `OnHeader` with 400, and a
   * well-formed one finishes it again.
   */
  lemma FinishedRequestReopens(d: RequestData, line: string)
    requires d.state == Finished && d.rawHeader == "" && d.rawBody.None?
    requires '\r' !in line
    ensures PushStep(d, line + Terminator).1.Ok? <==> |SplitWhitespace(line)| == 3
    ensures PushStep(d, line + Terminator).0.state == (if |SplitWhitespace(line)| == 3 then Finished else OnHeader)
  {
    TerminatedLine(line);
    var d1 := d.(rawHeader := d.rawHeader + line, state := OnHeader);
    assert d1.rawHeader == line;
    var lines := SplitOn(d1.rawHeader, LineBreak);
    assert lines[1..] == [];
    var (d2, r) := DeserializeStep(d1);
    assert r.Ok? <==> FirstLine(d1, line).Ok?;
    assert d2.rawBody == None;
    assert PushStep(d, line + Terminator) ==
      (if r.Err? then (d2, r) else (d2.(rawHeader := "", state := Finished), Ok(())));
  }

  /** The chunk "x\r\n\r\n" pushed to a finished request: back to `OnHeader`, with 400. */
  lemma FinishedRequestReopensExample(d: RequestData)
    requires d.state == Finished && d.rawHeader == "" && d.rawBody.None?
    ensures PushStep(d, "x" + Terminator).0.state == OnHeader
    ensures PushStep(d, "x" + Terminator).1 == Err(BadRequest)
  {
    assert RunLength("x") == 1 by {
      assert "x"[1..] == [];
    }
    assert SplitWhitespace("x") == ["x"] by {
      assert "x"[1..] == [] && "x"[..1] == "x";
    }
    FinishedRequestReopens(d, "x");
    PushFails(d, "x" + Terminator);
  }

  // ---------------------------------------------------------------------------
  // The request object

  class Request {
    var httpMethod: Method
    var httpVersion: string
    var path: string
    var accept: Option<string>
    var host: Option<string>
    var headers: map<string, string>
    var contentLength: Option<u64>
    var rawBody: Option<string>
    var rawHeader: string
    var state: State
    var keepConnectionAlive: bool

    function Snapshot(): RequestData
      reads this
    {
      RequestData(httpMethod, httpVersion, path, accept, host, headers, contentLength,
                  rawBody, rawHeader, state, keepConnectionAlive)
    }

    /** The record `try_from` builds before pushing its text. */
    constructor ()
      ensures Snapshot() == Initial
    {
      httpMethod := Method.Undefined;
      path := "";
      httpVersion := "";
      accept := None;
      host := None;
      headers := map[];
      contentLength := None;
      rawBody := None;
      rawHeader := "";
      keepConnectionAlive := true;
      state := State.Undefined;
    }

    /** `Request::try_from`: a fresh request fed with one chunk. */
    static method TryFrom(value: string) returns (r: Result<Request, u16>)
      ensures r.Ok? ==> fresh(r.value) && PushStep(Initial, value) == (r.value.Snapshot(), Ok(()))
      ensures r.Err? ==> PushStep(Initial, value).1 == Err(r.error)
    {
      var request := new Request();
      var pushed := request.Push(value);
      if pushed.Err? {
        return Err(pushed.error);
      }
      return Ok(request);
    }

    method Push(chunk: string) returns (r: Result<(), u16>)
      requires state != OnBody
      modifies this
      ensures (Snapshot(), r) == PushStep(old(Snapshot()), chunk)
    {
      ghost var d := Snapshot();
      var split := SplitOnce(chunk, Terminator);
      if split.None? {
        // header not finished
        rawHeader := rawHeader + chunk;
        return Ok(());
      }
      var (header, body) := split.value;
      rawHeader := rawHeader + header;
      state := OnHeader;
      if body != "" {
        rawBody := Some(body);
      }
      ghost var d1 := Snapshot();
      assert d1 == d.(rawHeader := d.rawHeader + header, state := OnHeader,
                      rawBody := if body != "" then Some(body) else d.rawBody);
      r := Deserialize();
      assert (Snapshot(), r) == DeserializeStep(d1);
      if r.Err? {
        return;
      }
      rawHeader := "";
      state := if rawBody.Some? then OnBody else Finished;
      r := Ok(());
    }

    method Deserialize() returns (r: Result<(), u16>)
      modifies this
      ensures (Snapshot(), r) == DeserializeStep(old(Snapshot()))
    {
      var lines := SplitOn(rawHeader, LineBreak);
      // a split always yields a first part, so the source's "empty header" 400 is never taken
      r := ParseFirstLine(lines[0]);
      if r.Err? {
        return;
      }
      r := ParseOtherLines(lines[1..]);
    }

    method ParseFirstLine(line: string) returns (r: Result<(), u16>)
      modifies this
      ensures r.Err? ==> Snapshot() == old(Snapshot()) && FirstLine(old(Snapshot()), line) == Err(r.error)
      ensures r.Ok? ==> FirstLine(old(Snapshot()), line) == Ok(Snapshot())
    {
      var split := SplitWhitespace(line);
      if |split| != 3 {
        return Err(BadRequest);
      }
      var parsed := MethodTryFrom(split[0]);
      match parsed {
        case Err(_) =>
          return Err(NotImplemented);
        case Ok(m) =>
          httpMethod := m;
      }
      path := split[1];
      httpVersion := split[2];
      r := Ok(());
    }

    method ParseOtherLines(lines: seq<string>) returns (r: Result<(), u16>)
      modifies this
      ensures var out := HeaderLines(old(Snapshot()).Fields(), lines);
        && Snapshot() == old(Snapshot()).WithFields(out.fields)
        && r == if out.error.None? then Ok(()) else Err(out.error.value)
    {
      ghost var start := Snapshot();
      var i := 0;
      while i < |lines|
        invariant 0 <= i <= |lines|
        invariant Snapshot() == start.WithFields(Snapshot().Fields())
        invariant HeaderLines(Snapshot().Fields(), lines[i..]) == HeaderLines(start.Fields(), lines)
      {
        var header := lines[i];
        if header == "" {
          break; // end of header
        }
        assert lines[i..][1..] == lines[i + 1..];
        var split := SplitAtChar(header, ':');
        if split.None? {
          return Err(BadRequest);
        }
        var (name, value) := split.value;
        if name == "Host" {
          if host.None? {
            host := Some(value);
          } else {
            return Err(BadRequest);
          }
        } else if name == "Connection" {
          if value == "close" {
            keepConnectionAlive := false;
          }
        } else if name == "Accept" {
          if accept.None? {
            accept := Some(value);
          } else {
            accept := Some(accept.value + " " + value);
          }
        } else {
          if name in headers {
            headers := headers[name := headers[name] + "  " + value];
          } else {
            headers := headers[name := value];
          }
        }
        i := i + 1;
      }
      r := Ok(());
    }
  }
}
