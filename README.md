# Rust learning projects, modelled in Dafny

This project models the core of a set of Rust learning projects and proves properties of the model.

**The HTTP server draft.**
- **Request-header parser** (`RequestParser`). A request is fed text chunks. A chunk that completes the header moves it to `OnHeader`, then to `OnBody` or `Finished` on success; a failed parse leaves it in `OnHeader`. `push` refuses only `OnBody`, so a `Finished` request accepts further chunks and can return to `OnHeader`. It follows a subset of HTTP/1.1 message framing:
  - the CRLFCRLF terminator (section 2.1 of RFC 9112);
  - the three-token request line (section 3 of RFC 9112);
  - `name:value` field lines (section 5 of RFC 9112).

  The method enum covers section 9 of RFC 9110, plus PATCH from RFC 5789.
- **Directive validators and admission checks** (`Config`). The `extract_*` validators and the 405/501/413 checks of the configuration trait. `Numbers` gives Rust's `str::parse` for `u16`/`u64`.
- **Configuration builders, in two drafts.**
  - `Servers` is the current one. Directives either overwrite a field or accumulate; locations are stored by path.
  - `DraftServers` is the earlier one. There, the last directive of a name wins, except for the default flag: a `listen … default` sets it and nothing resets it.
- **Status codes and responses** (`Responses`). These are the reason phrases of section 15 of RFC 9110, as the table spells them.
- **The byte-window search `find_in_u8`** (`Connection`).

**Connect Four** (`ConnectFour`). It covers:
- a 6×7 grid of rows of characters;
- dropping a token;
- counting aligned tokens in four directions;
- scanning for a winner;
- upper-casing the winning line.

**Small exercises.**
- **Two text analysers** (`TextAnalyser`, `DraftTextAnalyser`): character, line, word and phrase counts, average word length and most used words.
- **A phone book** (`PhoneBooks`): contacts with field setters, plus a 10-column formatter.
- **A megaphone** (`Megaphone`): it upper-cases the command-line arguments.

The source updates state in place, and the model follows it:
- request, servers, game grid, phone book and response code are classes;
- their methods are specified by pure step functions of a snapshot of the fields (`PushStep`, `DirectiveStep`, `LocationStep`, `Highlight`, ...);
- the properties are proved about those functions.

Loops in the source are `while`/`for` loops here, with their invariants:
- the `Location::new` directive loops;
- `extract_error_page`;
- `lowest_empty_row`, `is_finished` and `hilight_winner`;
- the `HashMap` counting loops;
- `print_max_10`;
- the megaphone.

Some Rust quirks are kept as written:
- `Option` ordering in the 413 checks (`None` is below every `Some`);
- untrimmed header values;
- the unreachable 501 branch of `parse_first_line`;
- a terminator search that looks only at the newest chunk.

The shared modules:
- `Wrappers` holds `Option`/`Result`.
- `Strings` holds the parts of Rust's `str` API that the core relies on: `split_whitespace`, `split`, `split_once`, `trim`, `join`, and the character classes.
- `Parsing` gives the shape of the configuration blocks that the builders read.

## Model

| member | source | states |
|---|---|---|
| RequestParser.MethodFrom | Server/src/request/request.rs:225-240 | never `UNDEFINED`; `UNKNOWN` exactly for strings that are not one of the nine verbs |
| RequestParser.MethodName | Server/src/request/request.rs:242-259 | fails exactly on `UNDEFINED` and `UNKNOWN`; otherwise yields one of the nine verbs |
| RequestParser.MethodNameRoundTrip | Server/src/request/request.rs:225-259 | `try_into` inverts `from` on the nine verbs, and `from` inverts `try_into` wherever it succeeds |
| RequestParser.MethodTryFrom | Server/src/request/request.rs:146-152 | the blanket `TryFrom` never fails and agrees with `From` |
| RequestParser.StateIs | Server/src/request/request.rs:274-276 | true exactly for equal states |
| RequestParser.StateIsNot | Server/src/request/request.rs:277-279 | as written, answers exactly what `is` answers |
| RequestParser.StateDiffers | Server/src/request/request.rs:277-279 | the intended `is_not`: the negation of `is`, and of `is_not` as written |
| RequestParser.IsNotMeansIs | Server/src/request/request.rs:274-279 | as written, `Finished.is_not(Finished)` holds, and `OnHeader.is_not(Finished)` does not |
| RequestParser.FirstLine | Server/src/request/request.rs:137-157 | Ok exactly for three whitespace tokens, setting method, path and version from them and nothing else; otherwise 400 |
| RequestParser.HeaderEnd | Server/src/request/request.rs:97-98 | the index of the first empty line, before which every line is non-empty |
| RequestParser.HeaderLineEffect | Server/src/request/request.rs:106-130 | the effect of each line, by name. `Host` sets the host or fails 400. `Connection` turns keep-alive off only for `close`. `Accept` values join with one space. Other names are inserted, or get two spaces and the value appended |
| RequestParser.HeaderLineWithoutColon | Server/src/request/request.rs:100-104 | a non-empty line without ':' is rejected with 400 |
| RequestParser.ConnectionCloseNeedsExactValue | Server/src/request/request.rs:118-120 | `Connection: close` (with the space) keeps the connection alive; `Connection:close` does not |
| RequestParser.HeaderLine | Server/src/request/request.rs:99-130 | one line fails exactly when it has no ':' or is a `Host` line while a host is known, always with 400; it never turns keep-alive back on and never changes a known host |
| RequestParser.HeaderLines | Server/src/request/request.rs:95-135 | every error of the header-line loop is 400; keep-alive is never turned back on and a known host is kept |
| RequestParser.HeaderLinesAllHaveColon | Server/src/request/request.rs:97-104 | when the loop succeeds, every line before the first empty one holds a ':' |
| RequestParser.KeepAliveIffNoClose | Server/src/request/request.rs:97-120 | keep-alive ends off exactly when it was off or some line of the header section is `Connection:close` |
| RequestParser.HostLineStep | Server/src/request/request.rs:110-117 | a known host is never cleared; a `Host` line fails exactly when a host is already known |
| RequestParser.HostAlreadySet | Server/src/request/request.rs:110-117 | once a host is known, any later `Host` line in the header section makes the loop fail with 400 |
| RequestParser.DuplicateHostRejected | Server/src/request/request.rs:110-117 | two `Host` lines in the header section are rejected with 400 |
| RequestParser.DeserializeStep | Server/src/request/request.rs:78-93 | every error is 400; a first line without three tokens changes nothing; success needs three tokens; the buffers, state and content length are untouched |
| RequestParser.PushStep | Server/src/request/request.rs:54-76 | the content length is never touched; an error is 400 and leaves `OnHeader`; a successful push that changes the state clears the raw header and gives `OnBody` or `Finished`; one that keeps the state has the raw header cleared or extended by the chunk |
| RequestParser.PushWithoutTerminator | Server/src/request/request.rs:57-61 | a chunk without CRLFCRLF only appends to the raw header; state and every other field are unchanged |
| RequestParser.SplitTerminatorNotDetected | Server/src/request/request.rs:57-61 | two chunks that each lack the terminator leave the state as it was, even when their concatenation holds one |
| RequestParser.SplitTerminatorExample | Server/src/request/request.rs:57-61 | "\r\n" then "\r\n" leaves a fresh request `Undefined` although together they form the terminator |
| RequestParser.PushKeepsContentLength | Server/src/request/request.rs:54-93 | no push assigns the content length |
| RequestParser.PushCompletes | Server/src/request/request.rs:62-73 | a successful completing push clears the raw header. The state is then `OnBody` exactly when a body is pending, else `Finished`. With no earlier body, that is exactly when text follows the terminator |
| RequestParser.PushFails | Server/src/request/request.rs:64-73 | a failed push reports 400, leaves the state `OnHeader` and keeps the raw header: the old raw header followed by the new chunk's header part |
| RequestParser.TerminatedLine | Server/src/request/request.rs:57-62 | a one-line chunk without '\r' splits at its terminator, and its header is a single CRLF part |
| RequestParser.FinishedRequestReopens | Server/src/request/request.rs:54-75 | `push` guards only `OnBody`: a finished request pushed one request line succeeds and finishes again exactly when the line has three tokens, and otherwise returns to `OnHeader` |
| RequestParser.FinishedRequestReopensExample | Server/src/request/request.rs:54-75 | a finished request pushed "x\r\n\r\n" is back in `OnHeader` with 400 |
| RequestParser.Request.constructor | Server/src/request/request.rs:32-44 | the initial record: `Undefined` state, keep-alive on, method `UNDEFINED`, no length, no host, empty buffers |
| RequestParser.Request.TryFrom | Server/src/request/request.rs:29-48 | a fresh request pushed one chunk: Ok with that request, or the push's error |
| RequestParser.Request.Push | Server/src/request/request.rs:54-76 | new fields and result are those of `PushStep`; requires a state other than `OnBody` (`todo!()` there) |
| RequestParser.Request.Deserialize | Server/src/request/request.rs:78-93 | new fields and result are those of `DeserializeStep` (first line, then the other lines) |
| RequestParser.Request.ParseFirstLine | Server/src/request/request.rs:137-157 | on success the fields are `FirstLine`'s result; on error nothing changes |
| RequestParser.Request.ParseOtherLines | Server/src/request/request.rs:95-135 | the header fields are those the loop reached (kept on error, as the source's early return does), with its error |
| Config.IsRedirectStatusCode | Server/src/traits/config.rs:12-14 | true exactly for 301, 302, 303 and 307, all of them 3xx |
| Config.ExtractRoot | Server/src/traits/config.rs:142-153 | Ok exactly for one token naming a directory, returned as is; a wrong count gives the `root` message |
| Config.ExtractAlias | Server/src/traits/config.rs:155-167 | Ok exactly for one token ending in '/'; a wrong count reuses the `root` message |
| Config.ExtractMaxBodySize | Server/src/traits/config.rs:169-180 | Ok exactly for one token that parses as `u64`, with its value |
| Config.RedirectCode | Server/src/traits/config.rs:215-223 | a bare `=` gives no status; otherwise the status is the `u16` after the `=` |
| Config.ErrorPageResult | Server/src/traits/config.rs:182-251 | empty input is an error; an empty map is reported as `None`, never as an empty map |
| Config.ExtractErrorPage | Server/src/traits/config.rs:182-251 | the `while let` loop over the tokens returns exactly `ErrorPageResult` |
| Config.ErrorPageRecordsAppend | Server/src/traits/config.rs:198-241 | records are read left to right: after a complete prefix, the rest continues from the prefix's maps |
| Config.LaterPageWins | Server/src/traits/config.rs:238-240 | a later `<code> <page>` record overwrites that code's page and leaves the redirects alone |
| Config.LaterRedirectWins | Server/src/traits/config.rs:215-237 | a later `<code> =<status> <url>` record overwrites that code's redirect and leaves the pages alone |
| Config.BareRedirect | Server/src/traits/config.rs:216-223 | `<code> = <url>` gives a redirect with no status and no page map |
| Config.DanglingCodeRejected | Server/src/traits/config.rs:205-213 | a code with no following token is an error, however well formed the records before it |
| Config.BadCodeRejected | Server/src/traits/config.rs:199-203 | a code token that is not a `u16` is an error naming the token and the parse error, after any well-formed records |
| Config.BadRedirectStatusRejected | Server/src/traits/config.rs:215-220 | an `=status` token whose status is not a `u16` is an error naming the token, after any well-formed records |
| Config.ExtractReturn | Server/src/traits/config.rs:253-279 | Ok exactly for 1–2 tokens with a `u16` status; the URL is kept exactly when there are 2 tokens and the status is a redirect |
| Config.ExtractListen | Server/src/traits/config.rs:281-294 | Ok exactly for 1–2 tokens with a `u16` port; the default flag holds exactly for a second token `default` |
| Config.ExtractIndex | Server/src/traits/config.rs:296-302 | Ok exactly for one token, returned as is |
| Config.ExtractAutoIndex | Server/src/traits/config.rs:304-317 | true exactly for `["on"]`, false exactly for `["off"]`, an error otherwise |
| Config.ExtractCgi | Server/src/traits/config.rs:319-331 | Ok exactly for two tokens whose second names a file, giving extension and path |
| Config.ParseMethod | Server/src/traits/config.rs:353-369 | Ok exactly for a listed GET; 501 exactly for another listed method; 405 exactly when the method is not listed or there is no list |
| Config.Parse | Server/src/traits/config.rs:132-140 | the method check's error first; then 413 exactly when the limit is below the length under `Option` ordering |
| Config.BodySizeBoundary | Server/src/traits/config.rs:135-137 | a length equal to the limit passes and one more is refused. No limit refuses any length, and no length always passes |
| Config.ParsedRequestNeverTooLarge | Server/src/traits/config.rs:132-140 | a request built by the parser never gets 413, since no step sets a length |
| Config.IsGeneralField | Server/src/traits/config.rs:371-382 | true exactly for the six listed names |
| Numbers.ParseUnsigned | Server/src/traits/config.rs:200-203 | `str::parse` for an unsigned type: a value within the maximum from an optional '+' and digits; `Empty` exactly for "" |
| Numbers.ParseU16 | Server/src/traits/config.rs:258-261 | succeeds exactly when the unsigned parse with maximum 65535 does |
| Numbers.ParseU64 | Server/src/traits/config.rs:174-179 | succeeds exactly when the unsigned parse with maximum 2^64-1 does |
| Numbers.ParseDecimalRoundTrip | Server/src/traits/config.rs:288-293 | every value within range parses back from its decimal numeral, with or without '+' |
| Numbers.ParseOverflow | Server/src/traits/config.rs:288-293 | a numeral above the maximum is a positive overflow |
| Connection.FindInU8 | Server/src/connection/mod.rs:115-119 | the empty pattern is found; otherwise found exactly when some window of `big` equals it |
| Connection.LongerNotFound | Server/src/connection/mod.rs:118 | a non-empty pattern longer than the text is not found |
| Connection.FoundStaysFound | Server/src/connection/mod.rs:115-119 | extending the text on either side keeps a pattern found |
| Responses.HttpCodes | Server/src/response/response.rs:83-160 | every code the table names lies in 100..=511 |
| Responses.KnownPhrases | Server/src/response/response.rs:94-148 | 200, 400, 404, 405, 413 and 501 map to their phrases |
| Responses.ErrorCode | Server/src/response/response.rs:53-65 | 404, 403, 503 and 408 exactly for NotFound, PermissionDenied, ConnectionRefused and TimedOut; 500 exactly for every other kind; always a code of the table |
| Responses.Phrase | Server/src/response/response.rs:67-72 | the table's phrase for a known code, the fallback otherwise |
| Responses.PhraseUnknownIff | Server/src/response/response.rs:67-72 | the fallback is answered exactly for the codes the table lacks |
| Responses.ResponseCode.constructor | Server/src/response/response.rs:49-51 | the code is stored as given |
| Responses.ResponseCode.FromError | Server/src/response/response.rs:53-65 | the code is `ErrorCode` of the error kind |
| Responses.ResponseCode.ToString | Server/src/response/response.rs:67-72 | the table's phrase for the stored code, or the unknown-code fallback when the table lacks it |
| Responses.ResponseCode.Code | Server/src/response/response.rs:74-76 | the stored code |
| Responses.ResponseCode.SetCode | Server/src/response/response.rs:78-80 | the code is replaced |
| Responses.Response.constructor | Server/src/response/response.rs:13-19 | a fresh code holding the given value, no headers and no file |
| Servers.MethodsFrom | Server/src/server/server.rs:371 | one method per token, in order |
| Servers.Classify | Server/src/server/server.rs:346-383 | every directive paired with the kind its name selects, in order |
| Servers.LocationDirective | Server/src/server/server.rs:500-554 | keeps path and exact flag. Validator errors carry the `location (<path>) : ` prefix and `error_page` errors do not. `redirect` needs one token and `allowed_methods` at least one. Methods are appended |
| Servers.LocationDirectives | Server/src/server/server.rs:499-555 | applying the directives in order keeps path and exact flag |
| Servers.BuildLocation | Server/src/server/server.rs:482-558 | the path is the block's; `exact_path` holds exactly for the modifier `=` |
| Servers.NewLocation | Server/src/server/server.rs:482-558 | the directive loop returns exactly `BuildLocation` |
| Servers.LocationMethodsAccumulate | Server/src/server/server.rs:532-536 | repeated `allowed_methods` directives append their methods in order |
| Servers.LocationAllows | Server/src/server/server.rs:476 | true exactly when the location has a method list and some entry of it is the method |
| Servers.LocationAllowsListed | Server/src/server/server.rs:476 | a built location allows exactly the methods its `allowed_methods` directives name |
| Servers.DirectiveStep | Server/src/server/server.rs:345-385 | one directive never touches the stored locations |
| Servers.StepRefusesEmptyLists | Server/src/server/server.rs:351-371 | `server_name` and `allowed_methods` succeed exactly with at least one token |
| Servers.StepKeepsInfos | Server/src/server/server.rs:345-385 | a recognised directive leaves `infos` unchanged |
| Servers.StepAppendsNames | Server/src/server/server.rs:351-357 | `server_name` appends its tokens to the names; no other directive touches them |
| Servers.StepAppendsMethods | Server/src/server/server.rs:367-371 | `allowed_methods` appends its methods; no other directive touches them |
| Servers.ApplyDirectives | Server/src/server/server.rs:280-282 | the directive loop of `new` keeps the stored locations |
| Servers.LocationStep | Server/src/server/server.rs:387-393 | the built location is stored under its path, replacing any earlier one, or its error is returned |
| Servers.ApplyLocations | Server/src/server/server.rs:284-286 | the location loop changes nothing but the stored locations |
| Servers.BuildServer | Server/src/server/server.rs:261-290 | the built server's `cgi` map is the block's, whatever `cgi` directives said |
| Servers.Collect | Server/src/server/server.rs:295-297 | one value per result when all succeed |
| Servers.CollectMeaning | Server/src/server/server.rs:292-300 | Ok exactly when every result is, with those values in order; otherwise the error of the first failing result |
| Servers.CollectErrorPersists | Server/src/server/server.rs:295-297 | an error among the first results is the error of the whole sequence |
| Servers.Builds | Server/src/server/server.rs:295-297 | the build of every block, in order |
| Servers.InitServersMeaning | Server/src/server/server.rs:292-300 | one server per block in order when every block builds; otherwise the error of the first block that fails |
| Servers.GetInfo | Server/src/server/server.rs:424-426 | a value exactly for a stored name, its tokens joined with one space |
| Servers.UnknownDirectiveKept | Server/src/server/server.rs:380-382 | an unrecognised directive succeeds, replaces the earlier value under its name, and `get` returns it joined |
| Servers.NamesAccumulate | Server/src/server/server.rs:351-357 | the names are the tokens of every `server_name` directive, in order |
| Servers.MethodsAccumulate | Server/src/server/server.rs:367-371 | the methods are those of every `allowed_methods` directive, in order |
| Servers.IsMethodAllowed | Server/src/server/server.rs:443 | true exactly when the server has a method list and some entry of it is the method |
| Servers.ServerAllowsListed | Server/src/server/server.rs:443 | a built server allows exactly the methods its own `allowed_methods` directives name |
| Servers.ServerParseMethod | Server/src/server/server.rs:241-249 | Ok exactly for an allowed method. A refused method gets 501 exactly when a list exists and the method is not `UNKNOWN`, and 405 otherwise |
| Servers.ServerParse | Server/src/server/server.rs:231-239 | a refused method gets `parse_method`'s 405 or 501 unchanged; otherwise Ok exactly within the limit under `Option` ordering and 413 exactly above it |
| Servers.ParseMethodDraftsDiffer | Server/src/server/server.rs:241-249 | unlike the trait's check, every listed method passes, and an unlisted GET gets 501 |
| Servers.LocationsKeys | Server/src/server/server.rs:387-393 | the stored paths are the earlier ones plus every block's |
| Servers.LocationsUntouched | Server/src/server/server.rs:387-393 | a path that no block names keeps its location |
| Servers.LocationsLastWins | Server/src/server/server.rs:387-393 | the location stored under a path is the one built from the last block with that path |
| Servers.Server.constructor | Server/src/server/server.rs:262-279 | the initial record: nothing configured |
| Servers.Server.AddDirective | Server/src/server/server.rs:345-385 | new fields are `DirectiveStep`'s result; on error nothing changes |
| Servers.Server.ApplyDirective | Server/src/server/server.rs:346-383 | the match arm of the directive's kind, with the same contract |
| Servers.Server.SetRoot | Server/src/server/server.rs:347-348 | the `root` arm, as `DirectiveStep` |
| Servers.Server.SetListen | Server/src/server/server.rs:349-350 | the `listen` arm, as `DirectiveStep` |
| Servers.Server.AddServerNames | Server/src/server/server.rs:351-357 | the `server_name` arm, as `DirectiveStep` |
| Servers.Server.SetIndex | Server/src/server/server.rs:358-359 | the `index` arm, as `DirectiveStep` |
| Servers.Server.SetAutoIndex | Server/src/server/server.rs:360-361 | the `auto_index` arm, as `DirectiveStep` |
| Servers.Server.SetMaxBodySize | Server/src/server/server.rs:362-363 | the `client_max_body_size` arm, as `DirectiveStep` |
| Servers.Server.AddCgi | Server/src/server/server.rs:364-366 | the `cgi` arm, as `DirectiveStep` |
| Servers.Server.AddMethods | Server/src/server/server.rs:367-371 | the `allowed_methods` arm, as `DirectiveStep` |
| Servers.Server.SetReturn | Server/src/server/server.rs:372-373 | the `return` arm, as `DirectiveStep` |
| Servers.Server.AddErrorPages | Server/src/server/server.rs:374-379 | the `error_page` arm, as `DirectiveStep` |
| Servers.Server.KeepInfo | Server/src/server/server.rs:380-382 | the fallback arm always succeeds, as `DirectiveStep` |
| Servers.Server.AddLocation | Server/src/server/server.rs:387-393 | new fields are `LocationStep`'s result; on error nothing changes |
| Servers.Server.New | Server/src/server/server.rs:261-290 | Ok exactly when `BuildServer` is, with a fresh server holding its result |
| Servers.Server.InitServers | Server/src/server/server.rs:292-300 | Ok exactly when every block builds, one fresh server per block in order; otherwise the first error |
| DraftServers.RootOf | Server/src/Server/server.rs:104-107 | no token clears the root, one token sets it, more are refused |
| DraftServers.LocationDirective | Server/src/Server/server.rs:36-43 | `root` follows the root rule and fails only with more than one token. Any other name is stored verbatim, and the other names are untouched |
| DraftServers.LocationDirectives | Server/src/Server/server.rs:35-45 | the directive loop keeps path and `cgi` map |
| DraftServers.BuildLocation | Server/src/Server/server.rs:27-50 | the path and `cgi` map are the block's |
| DraftServers.NewLocation | Server/src/Server/server.rs:27-50 | the directive loop returns exactly `BuildLocation` |
| DraftServers.LocationRefused | Server/src/Server/server.rs:37-40 | a location fails exactly when one of its `root` directives has more than one token, with the `root` message |
| DraftServers.LocationRootIsLast | Server/src/Server/server.rs:35-40 | the root is set by the last `root` directive; without one it stays as it was |
| DraftServers.LocationInfosLastWins | Server/src/Server/server.rs:41-43 | any other name holds the tokens of its last directive |
| DraftServers.Refusal | Server/src/Server/server.rs:102-123 | only recognised names can be refused |
| DraftServers.DirectiveStep | Server/src/Server/server.rs:102-125 | refused exactly as `Refusal` says. An unrecognised name is stored verbatim and nothing else changes. A recognised one leaves `infos`, locations and `cgi` alone |
| DraftServers.ApplyDirectives | Server/src/Server/server.rs:66-68 | the directive loop keeps locations and `cgi` |
| DraftServers.LocationStep | Server/src/Server/server.rs:127-133 | the built location is stored under its path, replacing any earlier one, or its error is returned |
| DraftServers.ApplyLocations | Server/src/Server/server.rs:70-72 | the location loop changes nothing but the stored locations |
| DraftServers.BuildServer | Server/src/Server/server.rs:55-77 | the built server's `cgi` map is the block's |
| DraftServers.ServerRefused | Server/src/Server/server.rs:66-68 | a server fails exactly when some directive is refused, with the error of the first refused one |
| DraftServers.ServerRootIsLast | Server/src/Server/server.rs:104-107 | the root follows the last `root` directive; without one it stays as it was |
| DraftServers.PortIsLast | Server/src/Server/server.rs:108-115 | the port is the first token of the last `listen`; without one it stays as it was |
| DraftServers.NameIsLast | Server/src/Server/server.rs:117-119 | the name is the single token of the last `server_name`; without one it stays as it was |
| DraftServers.DefaultNeverReset | Server/src/Server/server.rs:116 | the default flag holds exactly when it held already or some two-token `listen` has `default` second |
| DraftServers.ServerInfosLastWins | Server/src/Server/server.rs:120-122 | an unrecognised name holds the tokens of its last directive |
| DraftServers.LocationsLastWins | Server/src/Server/server.rs:127-133 | the location stored under a path is the one built from the last block with that path |
| DraftServers.LocationsUntouched | Server/src/Server/server.rs:127-133 | a path no block names keeps its location |
| DraftServers.Server.constructor | Server/src/Server/server.rs:56-64 | port 0, not default, nothing set |
| DraftServers.Server.AddDirective | Server/src/Server/server.rs:102-125 | new fields are `DirectiveStep`'s result; on error nothing changes |
| DraftServers.Server.AddLocation | Server/src/Server/server.rs:127-133 | new fields are `LocationStep`'s result; on error nothing changes |
| DraftServers.Server.New | Server/src/Server/server.rs:55-77 | Ok exactly when `BuildServer` is, with a fresh server holding its result |
| ConnectFour.SetCell | puissance_4/src/main.rs:64-65 | `remove` then `insert` at a column: only that cell changes, and every row keeps its length |
| ConnectFour.LowestEmptyFrom | puissance_4/src/main.rs:67-79 | -1 exactly when no row from `i` up has an empty cell in the column; otherwise the lowest such row |
| ConnectFour.OutOfRangeColumnIsFull | puissance_4/src/main.rs:73 | a column beyond the row width has no empty cell (-1) |
| ConnectFour.CountAlignedMeaning | puissance_4/src/main.rs:119-163 | the count is the length of the run of `player` cells after the start cell, and the cell after the run is not `player`'s |
| ConnectFour.CountAligned | puissance_4/src/main.rs:119-163 | South ≤ row; Est ≤ width-1-col; SEst ≤ both; SWest ≤ row and ≤ col |
| ConnectFour.PaintMeaning | puissance_4/src/main.rs:166-171 | painting changes exactly the cells of the line and nothing else |
| ConnectFour.Highlight | puissance_4/src/main.rs:164-189 | the grid keeps its shape |
| ConnectFour.FirstDirectionFrom | puissance_4/src/main.rs:97-101 | the first direction with at least three aligned cells: every direction before it in the order has fewer; or none if no remaining direction has three |
| ConnectFour.ScanRow | puissance_4/src/main.rs:86-114 | a win found in a row is valid and by a non-empty cell. With the column advanced past every cell, its start cell is the winner's |
| ConnectFour.ScanRows | puissance_4/src/main.rs:85-116 | the same over the rows from `row` up |
| ConnectFour.FirstWinAsWritten | puissance_4/src/main.rs:85-117 | the scan as written reports only a line that fits the grid and belongs to a player |
| ConnectFour.FirstWin | puissance_4/src/main.rs:85-117 | the corrected scan reports only a line that fits the grid and starts at a cell of its player |
| ConnectFour.FirstWinIsFourInARow | puissance_4/src/main.rs:85-117 | the corrected scan reports only four of the same player's cells in a row |
| ConnectFour.FirstWinAsWrittenSound | puissance_4/src/main.rs:94-113 | the scan as written still reports three cells of the player after its start cell |
| ConnectFour.ThreeTokensWinAsWritten | puissance_4/src/main.rs:94-113 | as written, three red tokens after an empty cell win, from the empty start cell |
| ConnectFour.NextPlayer | puissance_4/src/main.rs:231-235 | always 'r' or 'j'; 'j' exactly after 'r' |
| ConnectFour.Game.constructor | puissance_4/src/main.rs:16-28 | six rows of seven '0' cells: every cell empty |
| ConnectFour.Game.LowestEmptyRow | puissance_4/src/main.rs:67-79 | the row loop returns `LowestEmpty` |
| ConnectFour.Game.AddToken | puissance_4/src/main.rs:53-66 | an out-of-range or full column leaves the grid unchanged; otherwise only the lowest empty cell becomes the player's; the grid stays rectangular |
| ConnectFour.Game.HilightWinner | puissance_4/src/main.rs:164-189 | the grid becomes `Highlight`: exactly the four cells of the line upper-cased |
| ConnectFour.Game.WinningDirection | puissance_4/src/main.rs:97-111 | the direction loop returns `FirstDirectionFrom` |
| ConnectFour.Game.WinInRow | puissance_4/src/main.rs:86-114 | the cell loop of one row returns the scan as written |
| ConnectFour.Game.IsFinished | puissance_4/src/main.rs:80-118 | true exactly when the scan as written finds a win, which is then highlighted; otherwise the grid is unchanged |
| TextAnalyser.Filter | little_projects/text_analyser/src/main.rs:22-27 | keeps exactly the elements that satisfy the predicate, each as many times as it occurs, and drops the others |
| TextAnalyser.CountChars | little_projects/text_analyser/src/main.rs:16-21 | at most the text's length. 0 exactly for blank text, and the whole length exactly when no character is whitespace |
| TextAnalyser.CharsAreTokenChars | little_projects/text_analyser/src/main.rs:16-21 | the count equals the total length of the whitespace-separated tokens |
| TextAnalyser.NonEmptyPartsCount | little_projects/text_analyser/src/main.rs:22-27 | keeping the non-empty parts drops exactly the empty ones |
| TextAnalyser.Lines | little_projects/text_analyser/src/main.rs:22-27 | exactly the non-empty segments between '\n' (each holds no '\n'); at most one more segment than line breaks |
| TextAnalyser.CountLines | little_projects/text_analyser/src/main.rs:22-27 | the number of segments between '\n' less the empty ones; at most one more than the number of '\n' |
| TextAnalyser.CountLinesZero | little_projects/text_analyser/src/main.rs:22-27 | 0 exactly when the text is made of line breaks only |
| TextAnalyser.Phrases | little_projects/text_analyser/src/main.rs:35-41 | exactly the non-blank segments between '.', '?' and '!', none holding a terminator |
| TextAnalyser.CountPhrases | little_projects/text_analyser/src/main.rs:35-41 | at most one more than the number of terminators |
| TextAnalyser.OnePhraseWithoutTerminator | little_projects/text_analyser/src/main.rs:35-41 | text without a terminator is one phrase, or none when blank |
| TextAnalyser.Words | little_projects/text_analyser/src/main.rs:28-34 | exactly the tokens that hold a letter |
| TextAnalyser.CountWords | little_projects/text_analyser/src/main.rs:28-34 | never more than the tokens |
| TextAnalyser.BlankHasNoWord | little_projects/text_analyser/src/main.rs:28-34 | blank text has no word |
| TextAnalyser.WordLen | little_projects/text_analyser/src/main.rs:42-51 | as written: panics (None) exactly when there is no word, otherwise 0 |
| TextAnalyser.AverageLenBetween | little_projects/text_analyser/src/main.rs:42-51 | the integer average lies between the shortest and the longest word |
| TextAnalyser.AverageWordLen | little_projects/text_analyser/src/main.rs:42-51 | the intended average: None exactly without a word, otherwise between the lengths of two words of the text |
| TextAnalyser.WordLenIgnoresWords | little_projects/text_analyser/src/main.rs:46-50 | on "a", `word_len` answers 0 where the average is 1 |
| TextAnalyser.CountTokens | little_projects/text_analyser/src/main.rs:62-67 | the map holds exactly the tokens, each with its number of occurrences |
| TextAnalyser.MaxValue | little_projects/text_analyser/src/main.rs:69 | the largest count, held by some entry |
| TextAnalyser.MostUsedWord | little_projects/text_analyser/src/main.rs:52-80 | None exactly for a text without tokens. Otherwise a non-empty list, without repeats, of exactly the tokens no other token outnumbers |
| DraftTextAnalyser.CountWords | text_analyser/src/main.rs:16-19 | 0 exactly for blank text |
| DraftTextAnalyser.FewerWordsWithLetters | text_analyser/src/main.rs:16-19 | the later analyser's word count never exceeds this one's |
| DraftTextAnalyser.WordLen | text_analyser/src/main.rs:27-33 | as written: panics (None) exactly for blank text, otherwise 0 |
| DraftTextAnalyser.AverageWordLen | text_analyser/src/main.rs:27-33 | the intended average: None exactly for blank text, otherwise between the lengths of two tokens |
| DraftTextAnalyser.WordLenIgnoresTokens | text_analyser/src/main.rs:29-32 | on "ab", `word_len` answers 0 where the average is 2 |
| DraftTextAnalyser.MostUsedWords | text_analyser/src/main.rs:34-56 | never `Err`; `Ok(None)` exactly for blank text; otherwise a token no other outnumbers |
| PhoneBooks.Contact.constructor | m00/ex01/src/class/modules.rs:17-31 | all five fields empty |
| PhoneBooks.Contact.ChangeFirstName | m00/ex01/src/class/modules.rs:32-35 | only the first name is replaced |
| PhoneBooks.Contact.ChangeLastName | m00/ex01/src/class/modules.rs:36-39 | only the last name is replaced |
| PhoneBooks.Contact.ChangeNickname | m00/ex01/src/class/modules.rs:40-43 | only the nickname is replaced |
| PhoneBooks.Contact.ChangePhoneNumber | m00/ex01/src/class/modules.rs:44-47 | only the phone number is replaced |
| PhoneBooks.Contact.ChangeSecret | m00/ex01/src/class/modules.rs:48-51 | only the secret is replaced |
| PhoneBooks.PhoneBook.constructor | m00/ex01/src/class/modules.rs:56-62 | no contact |
| PhoneBooks.PhoneBook.NewContact | m00/ex01/src/class/modules.rs:63-79 | exactly one fresh contact, holding the five answers, is appended; the earlier contacts and their fields are unchanged |
| PhoneBooks.PrintMax10AsWritten | m00/ex01/src/class/modules.rs:103-118 | as written: no result exactly for fewer than 10 characters; longer text becomes 9 characters and '.'; 10 characters come back as they are |
| PhoneBooks.ShortTextNeverReturns | m00/ex01/src/class/modules.rs:110-115 | "Bob" never comes back |
| PhoneBooks.PrintMax10 | m00/ex01/src/class/modules.rs:103-118 | the intended formatter: always 10 characters, either the first 9 and '.', or the text padded with spaces |
| Megaphone.ShoutAppend | little_projects/m00/ex00/src/main.rs:23-25 | one more argument adds its upper-cased text and a space at the end |
| Megaphone.Shout | little_projects/m00/ex00/src/main.rs:23-25 | the output is as long as the arguments together plus one per argument |
| Megaphone.ShoutIsUpper | little_projects/m00/ex00/src/main.rs:23-25 | no lower-case ASCII letter is left in the output |
| Megaphone.Output | little_projects/m00/ex00/src/main.rs:15-27 | with at most the program name, the noise and a newline. Otherwise every argument after the program name, upper-cased and followed by a space, in order |

## Left out

- Network and file I/O. This covers the async tokio handlers: `run`, `handle_client`, `send_response`, `send_get_response`, `send_error_response_to`, `consume_body`, `read_from`, `Response::from_file` and `get_final_path`. Many of them have `todo!()` bodies. It also covers the listener, connection and client modules, and shutdown in `main`.
- Filesystem checks. `is_dir` and `is_file` become a `FileSystem` value parameter of `ExtractRoot`, `ExtractCgi` and the builders. Paths are compared as strings, not as normalised `PathBuf`s.
- The `Parsing` module is not part of this model. `ServerBlock` and `LocationBlock` only give the shape the builders read.
- `RequestParser.Request.Push`: the `OnBody` state is a precondition, because the source stops there with `todo!()`. Reading the body is not modelled.
- The code and content-type tables at the end of request.rs are comments only, and are not modelled.
- `Responses.ErrorCode`: I/O error kinds other than the four with a code of their own are collapsed into one `Other` kind. A response's file is the path of the file, not an open handle.
- `Responses.Phrase` keeps the table's own phrases and the fallback "Unknow Error code" as spelled.
- The earlier draft's `init_servers` is not modelled. It is not among that draft's builders modelled here, and its loop is the current draft's `InitServers`. That draft's `run` and `handle_client` are I/O.
- `ConnectFour.Game.IsFinished` first searches for the win without changing the grid, then highlights it. The source highlights inside the search and returns at once, which has the same effect. Printing the grid and the winner's message is left out.
- `ConnectFour.Game.HilightWinner` computes each next cell with `Cell` instead of the source's per-direction `match` on `row -= 1` and `col += 1`. The cells visited are the same.
- Printing the grid, the stdin loop of the game's `main`, the phone book's command loop, and the `main`s of both text analysers are terminal I/O.
- `PhoneBooks.PhoneBook.NewContact` takes the five answers as parameters in place of `get_input`'s `read_line`. Each answer holds whatever was read, including its newline. The source of `PhoneBook::new` and `new_contact` does not compile as written (`contact::new`, `PhoneBook { Contact }`), so the evident intent is modelled: an empty book, and a contact built with the setters and pushed.
- `search_contact`, `print_book` and `print_contact` are empty or do not compile, and are not modelled.
- `PhoneBooks.PrintMax10`, `PhoneBooks.PrintMax10AsWritten`, `TextAnalyser.WordLen`, `TextAnalyser.AverageWordLen`, `DraftTextAnalyser.WordLen`, `DraftTextAnalyser.AverageWordLen`: lengths are counted in characters, where Rust's `len` and `truncate` count UTF-8 bytes. For non-ASCII text these differ, and `truncate` could panic inside a character.
- `Megaphone.Output`: `to_uppercase` is modelled on ASCII letters only, and the other characters are kept. Rust's full Unicode mapping, such as 'ß' → "SS", is not modelled.
- `TextAnalyser.Words`: `is_alphabetic` is modelled on ASCII letters only. `is_whitespace` follows the Unicode White_Space property.
- `TextAnalyser.MostUsedWord`, `DraftTextAnalyser.MostUsedWords`: a `HashMap`'s iteration order is unspecified. The loops pick keys in an arbitrary order, so the contracts state what holds for every order.
- The `count_chars` and `count_phrases` of text_analyser/src/main.rs are the same pipelines as those of the later analyser, and are modelled once, in `TextAnalyser`.
- The integer widths of the counts (`usize`, `u64`, `u128`) are not modelled. The counts are unbounded naturals, and no count can reach those limits for text that fits in memory.

## Findings

| source | as written | input that shows it | evidently intended | confidence | as-written member | corrected member |
|---|---|---|---|---|---|---|
| puissance_4/src/main.rs:94-113 | `col` is not advanced past empty cells, so `count_aligned` starts from a column left of the token read | bottom row `0rrr000`: three red tokens are reported as a win from the empty cell (0, 0) | `col` is the column of the cell read, so only four tokens in a row win | not executed | ConnectFour.ThreeTokensWinAsWritten | ConnectFour.FirstWinIsFourInARow |
| little_projects/text_analyser/src/main.rs:46-50 | the `map` that adds up word lengths is a lazy iterator that is never consumed, so `len` stays 0 | text "a": `word_len` is 0 | the integer average of the word lengths (1 for "a") | not executed | TextAnalyser.WordLenIgnoresWords | TextAnalyser.AverageWordLen |
| text_analyser/src/main.rs:29-32 | the same unconsumed `map`, over all tokens | text "ab": `word_len` is 0 | the integer average of the token lengths (2 for "ab") | not executed | DraftTextAnalyser.WordLenIgnoresTokens | DraftTextAnalyser.AverageWordLen |
| m00/ex01/src/class/modules.rs:113-115 | the padding loop never increments `i`, so it never ends for text shorter than 10 | "Bob" | pad with spaces to 10 characters | not executed | PhoneBooks.ShortTextNeverReturns | PhoneBooks.PrintMax10 |
| Server/src/request/request.rs:277-279 | `is_not` compares for equality, exactly like `is` | `Finished.is_not(Finished)` is true | the negation of `is` | not executed | RequestParser.IsNotMeansIs | RequestParser.StateDiffers |
