/**
 * The `Config` trait shared by servers and locations: the validators that turn
 * one directive's tokens into a field value (or an error message), and the two
 * admission checks that answer a request with 405, 501 or 413.
 *
 * The trait's `parse` and `parse_method` read the implementor's allowed
 * methods and body-size limit through getters; here those two values are
 * passed in directly.
 */
module Config {
  import opened Wrappers
  import opened Numbers
  import opened Strings
  import opened Parsing
  import opened RequestParser

  const MethodNotAllowed: u16 := 405
  const PayloadTooLarge: u16 := 413

  /** The redirection status codes a `return` directive may carry a URL with. */
  function IsRedirectStatusCode(code: u16): (r: bool)
    ensures r <==> code in {301, 302, 303, 307}
    ensures r ==> 300 <= code < 400
  {
    code == 301 || code == 302 || code == 303 || code == 307
  }

  /** `root`: one token naming an existing directory. */
  function ExtractRoot(value: seq<string>, fs: FileSystem): (r: Result<string, string>)
    ensures r.Ok? <==> |value| == 1 && fs.IsDir(value[0])
    ensures r.Ok? ==> r.value == value[0]
    ensures |value| != 1 ==> r == Err("invalid field: root")
  {
    if |value| != 1 then Err("invalid field: root")
    else if !fs.IsDir(value[0]) then Err(value[0] + ": invalid root directory")
    else Ok(value[0])
  }

  /** `alias`: one token ending with '/'; the count error reuses the `root` message. */
  function ExtractAlias(value: seq<string>): (r: Result<string, string>)
    ensures r.Ok? <==> |value| == 1 && |value[0]| > 0 && value[0][|value[0]| - 1] == '/'
    ensures r.Ok? ==> r.value == value[0]
    ensures |value| != 1 ==> r == Err("invalid field: root")
  {
    if |value| != 1 then Err("invalid field: root")
    else if value[0] == [] || value[0][|value[0]| - 1] != '/' then Err(value[0] + ": alias must ends with '/'")
    else Ok(value[0])
  }

  /** `client_max_body_size`: one token holding a `u64`. */
  function ExtractMaxBodySize(value: seq<string>): (r: Result<u64, string>)
    ensures r.Ok? <==> |value| == 1 && ParseU64(value[0]).Ok?
    ensures r.Ok? ==> r.value == ParseU64(value[0]).value
  {
    if |value| != 1 then Err("invalid field: client_max_body_size")
    else
      match ParseU64(value[0])
      case Ok(n) => Ok(n)
      case Err(e) => Err("invalid field: client_max_body_size: " + IntErrorMessage(e))
  }

  type Pages = map<u16, string>
  type Redirects = map<u16, (Option<u16>, string)>

  const ErrorPagePrefix: string := "invalid field: error_page: "

  /** The token after a code that starts with '=': an optional status to answer with. */
  function RedirectCode(t: string): (r: Result<Option<u16>, string>)
    requires |t| > 0 && t[0] == '='
    ensures r == Ok(None) <==> t == "="
    ensures r.Ok? && r.value.Some? ==> ParseU16(t[1..]) == Ok(r.value.value)
  {
    if |t| > 1 then
      match ParseU16(t[1..])
      case Ok(n) => Ok(Some(n))
      case Err(e) => Err(ErrorPagePrefix + t + ": " + IntErrorMessage(e))
    else Ok(None)
  }

  /**
   * The records of an `error_page` directive, read from the front: a code, then
   * either a page, or an `=[status]` token followed by a URL. Later records of
   * the same code overwrite earlier ones.
   */
  function ErrorPageRecords(tokens: seq<string>, pages: Pages, redirect: Redirects): (r: Result<(Pages, Redirects), string>)
    decreases |tokens|
  {
    if tokens == [] then Ok((pages, redirect))
    else
      match ParseU16(tokens[0])
      case Err(e) => Err(ErrorPagePrefix + tokens[0] + ": " + IntErrorMessage(e))
      case Ok(code) =>
        if |tokens| < 2 then Err(ErrorPagePrefix + DecimalString(code) + " have no corresponding page")
        else
          var t := tokens[1];
          if |t| > 0 && t[0] == '=' then
            match RedirectCode(t)
            case Err(e) => Err(e)
            case Ok(status) =>
              if |tokens| < 3 then Err(ErrorPagePrefix + DecimalString(code) + " have no corresponding redirect")
              else ErrorPageRecords(tokens[3..], pages, redirect[code := (status, tokens[2])])
          else ErrorPageRecords(tokens[2..], pages[code := t], redirect)
  }

  /** What `extract_error_page` returns: an empty map is reported as `None`. */
  function ErrorPageResult(value: seq<string>): (r: Result<(Option<Pages>, Option<Redirects>), string>)
    ensures value == [] ==> r == Err(ErrorPagePrefix + "empty")
    ensures r.Ok? ==> (r.value.0.Some? ==> |r.value.0.value| > 0) && (r.value.1.Some? ==> |r.value.1.value| > 0)
  {
    if value == [] then Err(ErrorPagePrefix + "empty")
    else
      match ErrorPageRecords(value, map[], map[])
      case Err(e) => Err(e)
      case Ok((pages, redirect)) =>
        Ok((if |pages| == 0 then None else Some(pages), if |redirect| == 0 then None else Some(redirect)))
  }

  /** `extract_error_page`: the `while let` loop over the token iterator, filling two maps. */
  method ExtractErrorPage(value: seq<string>) returns (r: Result<(Option<Pages>, Option<Redirects>), string>)
    ensures r == ErrorPageResult(value)
  {
    if value == [] {
      return Err(ErrorPagePrefix + "empty");
    }
    var pages: Pages := map[];
    var redirect: Redirects := map[];
    var i := 0;
    while i < |value|
      invariant 0 <= i <= |value|
      invariant ErrorPageRecords(value[i..], pages, redirect) == ErrorPageRecords(value, map[], map[])
      decreases |value| - i
    {
      var rest := value[i..];
      var code := ParseU16(value[i]);
      if code.Err? {
        return Err(ErrorPagePrefix + value[i] + ": " + IntErrorMessage(code.error));
      }
      i := i + 1;
      if i == |value| {
        return Err(ErrorPagePrefix + DecimalString(code.value) + " have no corresponding page");
      }
      var t := value[i];
      i := i + 1;
      if |t| > 0 && t[0] == '=' {
        var status := RedirectCode(t);
        if status.Err? {
          return Err(status.error);
        }
        if i == |value| {
          return Err(ErrorPagePrefix + DecimalString(code.value) + " have no corresponding redirect");
        }
        redirect := redirect[code.value := (status.value, value[i])];
        i := i + 1;
        assert rest[3..] == value[i..];
      } else {
        pages := pages[code.value := t];
        assert rest[2..] == value[i..];
      }
    }
    return Ok((if |pages| == 0 then None else Some(pages), if |redirect| == 0 then None else Some(redirect)));
  }

  /** Records are read one after another: a complete prefix leaves the maps the rest continues from. */
  lemma {:induction false} ErrorPageRecordsAppend(ts: seq<string>, rest: seq<string>, pages: Pages, redirect: Redirects)
    requires ErrorPageRecords(ts, pages, redirect).Ok?
    ensures ErrorPageRecords(ts + rest, pages, redirect) ==
            ErrorPageRecords(rest, ErrorPageRecords(ts, pages, redirect).value.0, ErrorPageRecords(ts, pages, redirect).value.1)
    decreases |ts|
  {
    if ts == [] {
      assert ts + rest == rest;
    } else {
      var all := ts + rest;
      assert all[0] == ts[0] && all[1] == ts[1];
      var code := ParseU16(ts[0]).value;
      var t := ts[1];
      if |t| > 0 && t[0] == '=' {
        assert all[2] == ts[2];
        assert all[3..] == ts[3..] + rest;
        ErrorPageRecordsAppend(ts[3..], rest, pages, redirect[code := (RedirectCode(t).value, ts[2])]);
      } else {
        assert all[2..] == ts[2..] + rest;
        ErrorPageRecordsAppend(ts[2..], rest, pages[code := t], redirect);
      }
    }
  }

  /** A later `<code> <page>` record overwrites the page of that code and leaves the redirects alone. */
  lemma LaterPageWins(ts: seq<string>, code: u16, page: string)
    requires ErrorPageRecords(ts, map[], map[]).Ok?
    requires page == [] || page[0] != '='
    ensures ErrorPageRecords(ts + [DecimalString(code), page], map[], map[]) ==
            Ok((ErrorPageRecords(ts, map[], map[]).value.0[code := page], ErrorPageRecords(ts, map[], map[]).value.1))
  {
    ErrorPageRecordsAppend(ts, [DecimalString(code), page], map[], map[]);
    ParseDecimalRoundTrip(code, U16_MAX);
    var rest := [DecimalString(code), page];
    assert rest[2..] == [];
  }

  /** A later `<code> =<status> <url>` record overwrites the redirect of that code. */
  lemma LaterRedirectWins(ts: seq<string>, code: u16, status: u16, url: string)
    requires ErrorPageRecords(ts, map[], map[]).Ok?
    ensures ErrorPageRecords(ts + [DecimalString(code), "=" + DecimalString(status), url], map[], map[]) ==
            Ok((ErrorPageRecords(ts, map[], map[]).value.0, ErrorPageRecords(ts, map[], map[]).value.1[code := (Some(status), url)]))
  {
    var rest := [DecimalString(code), "=" + DecimalString(status), url];
    ErrorPageRecordsAppend(ts, rest, map[], map[]);
    ParseDecimalRoundTrip(code, U16_MAX);
    ParseDecimalRoundTrip(status, U16_MAX);
    assert ("=" + DecimalString(status))[1..] == DecimalString(status);
    assert rest[3..] == [];
  }

  /** A bare `=` gives a redirect with no status. */
  lemma BareRedirect(code: u16, url: string)
    ensures ErrorPageResult([DecimalString(code), "=", url]) == Ok((None, Some(map[code := (None, url)])))
  {
    ParseDecimalRoundTrip(code, U16_MAX);
    var ts := [DecimalString(code), "=", url];
    assert ParseU16(ts[0]) == Ok(code);
    assert RedirectCode(ts[1]) == Ok(None);
    assert ts[3..] == [];
    var m: Redirects := map[code := (None, url)];
    assert ErrorPageRecords(ts, map[], map[]) == Ok((map[], m));
    assert code in m;
  }

  /** A code with nothing after it is an error, however well-formed the records before it. */
  lemma DanglingCodeRejected(ts: seq<string>, code: u16)
    requires ErrorPageRecords(ts, map[], map[]).Ok?
    ensures ErrorPageResult(ts + [DecimalString(code)]).Err?
  {
    ErrorPageRecordsAppend(ts, [DecimalString(code)], map[], map[]);
    ParseDecimalRoundTrip(code, U16_MAX);
  }

  /** A code token that does not parse as `u16` is an error naming the token and the parse error. */
  lemma BadCodeRejected(ts: seq<string>, t: string, rest: seq<string>)
    requires ErrorPageRecords(ts, map[], map[]).Ok?
    requires ParseU16(t).Err?
    ensures ErrorPageResult(ts + [t] + rest) == Err(ErrorPagePrefix + t + ": " + IntErrorMessage(ParseU16(t).error))
  {
    ErrorPageRecordsAppend(ts, [t] + rest, map[], map[]);
    assert ts + [t] + rest == ts + ([t] + rest);
  }

  /** An `=status` token whose status does not parse as `u16` is an error naming the token. */
  lemma BadRedirectStatusRejected(ts: seq<string>, code: u16, status: string, rest: seq<string>)
    requires ErrorPageRecords(ts, map[], map[]).Ok?
    requires status != "" && ParseU16(status).Err?
    ensures ErrorPageResult(ts + [DecimalString(code), "=" + status] + rest) ==
            Err(ErrorPagePrefix + "=" + status + ": " + IntErrorMessage(ParseU16(status).error))
  {
    var tail := [DecimalString(code), "=" + status] + rest;
    ErrorPageRecordsAppend(ts, tail, map[], map[]);
    assert ts + [DecimalString(code), "=" + status] + rest == ts + tail;
    ParseDecimalRoundTrip(code, U16_MAX);
    var t := "=" + status;
    assert t[1..] == status && |t| > 1 && t[0] == '=';
    assert RedirectCode(t) == Err(ErrorPagePrefix + t + ": " + IntErrorMessage(ParseU16(status).error));
    assert tail[0] == DecimalString(code) && tail[1] == t;
    assert ErrorPagePrefix + t == ErrorPagePrefix + "=" + status;
  }

  /** `return`: a status, and a URL kept only with a redirection status. */
  function ExtractReturn(value: seq<string>): (r: Result<(u16, Option<string>), string>)
    ensures r.Ok? <==> 1 <= |value| <= 2 && ParseU16(value[0]).Ok?
    ensures r.Ok? ==> r.value.0 == ParseU16(value[0]).value
    ensures r.Ok? ==> (r.value.1.Some? <==> |value| == 2 && IsRedirectStatusCode(r.value.0))
    ensures r.Ok? && r.value.1.Some? ==> r.value.1.value == value[1]
  {
    if |value| < 1 || |value| > 2 then Err("invalid field: return")
    else
      match ParseU16(value[0])
      case Err(e) => Err("invalid field: return: " + IntErrorMessage(e))
      case Ok(status) =>
        Ok((status, if |value| == 2 && IsRedirectStatusCode(status) then Some(value[1]) else None))
  }

  /** `listen`: a port, and the default-server flag when the second token is exactly `default`. */
  function ExtractListen(value: seq<string>): (r: Result<(Option<u16>, bool), string>)
    ensures r.Ok? <==> 1 <= |value| <= 2 && ParseU16(value[0]).Ok?
    ensures r.Ok? ==> r.value.0 == Some(ParseU16(value[0]).value)
    ensures r.Ok? ==> (r.value.1 <==> |value| == 2 && value[1] == "default")
  {
    if |value| < 1 || |value| > 2 then Err("invalid field: port")
    else
      var isDefault := |value| == 2 && value[1] == "default";
      match ParseU16(value[0])
      case Ok(port) => Ok((Some(port), isDefault))
      case Err(e) => Err("invalid field: port: " + IntErrorMessage(e))
  }

  /** `index`: exactly one token, kept as is. */
  function ExtractIndex(value: seq<string>): (r: Result<string, string>)
    ensures r.Ok? <==> |value| == 1
    ensures r.Ok? ==> r.value == value[0]
  {
    if |value| != 1 then Err("invalid field: index") else Ok(value[0])
  }

  /** `auto_index`: exactly `on` or `off`. */
  function ExtractAutoIndex(value: seq<string>): (r: Result<bool, string>)
    ensures r == Ok(true) <==> value == ["on"]
    ensures r == Ok(false) <==> value == ["off"]
  {
    if |value| != 1 then Err("invalid field: auto_index")
    else if value[0] == "on" then Ok(true)
    else if value[0] == "off" then Ok(false)
    else Err("invalid field: auto_index: expected 'on' or 'off', found " + value[0])
  }

  /** `cgi`: an extension and the path of an existing file. */
  function ExtractCgi(value: seq<string>, fs: FileSystem): (r: Result<(string, string), string>)
    ensures r.Ok? <==> |value| == 2 && fs.IsFile(value[1])
    ensures r.Ok? ==> r.value == (value[0], value[1])
  {
    if |value| != 2 then Err("invalid field: cgi")
    else if !fs.IsFile(value[1]) then Err("invalid field: cgi: invalid path: " + value[1])
    else Ok((value[0], value[1]))
  }

  /** Rust's derived `<` on `Option`: `None` is below every `Some`. */
  predicate OptionLess(a: Option<int>, b: Option<int>)
  {
    match (a, b)
    case (None, Some(_)) => true
    case (Some(x), Some(y)) => x < y
    case _ => false
  }

  /** Whether a method is in the configured list; no list allows nothing. */
  predicate MethodAllowed(methods: Option<seq<Method>>, m: Method)
  {
    methods.Some? && m in methods.value
  }

  /** The trait's `parse_method`: only a listed GET passes; a listed other method is not implemented. */
  function ParseMethod(methods: Option<seq<Method>>, request: RequestData): (r: Result<(), u16>)
    ensures r.Ok? <==> MethodAllowed(methods, request.httpMethod) && request.httpMethod == Get
    ensures r == Err(NotImplemented) <==> MethodAllowed(methods, request.httpMethod) && request.httpMethod != Get
    ensures r == Err(MethodNotAllowed) <==> !MethodAllowed(methods, request.httpMethod)
  {
    if methods.None? then Err(MethodNotAllowed)
    else if request.httpMethod !in methods.value then Err(MethodNotAllowed)
    else if request.httpMethod == Get then Ok(())
    else Err(NotImplemented)
  }

  /** The trait's `parse`: the method check, then the body-size limit under `Option` ordering. */
  function Parse(methods: Option<seq<Method>>, maxBodySize: Option<u64>, request: RequestData): (r: Result<(), u16>)
    ensures ParseMethod(methods, request).Err? ==> r == ParseMethod(methods, request)
    ensures ParseMethod(methods, request).Ok? ==> (r == Err(PayloadTooLarge) <==> OptionLess(maxBodySize, request.contentLength))
    ensures r.Ok? <==> ParseMethod(methods, request).Ok? && !OptionLess(maxBodySize, request.contentLength)
  {
    if ParseMethod(methods, request).Err? then ParseMethod(methods, request)
    else if OptionLess(maxBodySize, request.contentLength) then Err(PayloadTooLarge)
    else Ok(())
  }

  /**
   * The 413 boundary: a body exactly at the limit passes and one byte more does
   * not; no limit with a known length is rejected; an unknown length never is.
   */
  lemma BodySizeBoundary(methods: Option<seq<Method>>, request: RequestData, n: u64)
    requires ParseMethod(methods, request).Ok?
    ensures request.contentLength == Some(n) ==> Parse(methods, Some(n), request).Ok?
    ensures n < U64_MAX && request.contentLength == Some(n + 1) ==> Parse(methods, Some(n), request) == Err(PayloadTooLarge)
    ensures request.contentLength.Some? ==> Parse(methods, None, request) == Err(PayloadTooLarge)
    ensures request.contentLength.None? ==> Parse(methods, Some(n), request).Ok? && Parse(methods, None, request).Ok?
  {
  }

  /** Since no step of the request parser sets a length, a parsed request is never too large. */
  lemma ParsedRequestNeverTooLarge(methods: Option<seq<Method>>, maxBodySize: Option<u64>, d: RequestData, chunk: string)
    requires d.contentLength.None? && d.state != OnBody
    ensures Parse(methods, maxBodySize, PushStep(d, chunk).0) != Err(PayloadTooLarge)
  {
    PushKeepsContentLength(d, chunk);
  }

  const GeneralFields: seq<string> := ["cgi", "index", "auto_index", "allowed_methods", "root", "listen"]

  /** The directive names a location may share with its server. */
  function IsGeneralField(field: string): (r: bool)
    ensures r <==> field in {"cgi", "index", "auto_index", "allowed_methods", "root", "listen"}
  {
    field in GeneralFields
  }
}
