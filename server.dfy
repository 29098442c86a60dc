/**
 * The current server draft: a `Server` is built from a `ServerBlock` by
 * applying its directives in order, then its locations, then taking the
 * block's `cgi` map; each `Location` is built from a `LocationBlock` the same
 * way. Directives either overwrite one field (`root`, `listen`, `index`, ...),
 * accumulate (`server_name`, `allowed_methods`, `error_page`, `cgi`), or are
 * kept verbatim under their name in `infos`.
 *
 * `ServerData` is the value of a server's configuration fields; the class
 * `Server` holds them as mutable fields, and its methods are specified by the
 * pure functions on `ServerData`. The checks `parse` and `parse_method` and
 * the getters only read a server, so they are functions of `ServerData`.
 */
module Servers {
  import opened Wrappers
  import opened Numbers
  import opened Strings
  import opened Parsing
  import opened RequestParser
  import opened Config

  /** A location, built once from its block and then only stored. */
  datatype Location = Location(
    root: Option<string>,
    path: string,
    exactPath: bool,
    returnRule: Option<(u16, Option<string>)>,
    index: Option<string>,
    autoIndex: bool,
    errorPages: Pages,
    errorRedirect: Redirects,
    clientMaxBodySize: Option<u64>,
    infos: map<string, seq<string>>,
    methods: Option<seq<Method>>,
    redirect: Option<string>,
    cgi: map<string, string>)

  function OrEmpty<T>(o: Option<seq<T>>): seq<T>
  {
    if o.Some? then o.value else []
  }

  function MapOrEmpty<K, V>(o: Option<map<K, V>>): map<K, V>
  {
    if o.Some? then o.value else map[]
  }

  /** `Method::from` on every token, in order. */
  function MethodsFrom(tokens: seq<string>): (ms: seq<Method>)
    ensures |ms| == |tokens|
  {
    seq(|tokens|, i requires 0 <= i < |tokens| => MethodFrom(tokens[i]))
  }

  /** The methods the `allowed_methods` directives of `cs` list, in order. */
  function MethodsOf(cs: seq<Classified>): seq<Method>
  {
    if cs == [] then []
    else (if cs[0].0 == AllowedMethods then MethodsFrom(cs[0].1.1) else []) + MethodsOf(cs[1..])
  }

  /** The record a location starts from: only its path and the exact-match flag are set. */
  function EmptyLocation(block: LocationBlock): Location
  {
    Location(None, block.path, block.modifier == Some("="), None, None, false, map[], map[],
             None, map[], None, None, map[])
  }

  /** The prefix every validator error of a location carries. */
  function LocationError(path: string, e: string): string
  {
    "location (" + path + ") : " + e
  }

  /** The directive names the builders recognise; anything else is kept verbatim. */
  datatype DirectiveKind =
    | Root | Listen | ServerName | Index | AutoIndex | MaxBodySize | Cgi
    | AllowedMethods | Redirect | Return | ErrorPage | Other

  function KindOf(name: string): DirectiveKind
  {
    match name
    case "root" => Root
    case "listen" => Listen
    case "server_name" | "server_names" => ServerName
    case "index" => Index
    case "auto_index" => AutoIndex
    case "client_max_body_size" => MaxBodySize
    case "cgi" => Cgi
    case "allowed_methods" => AllowedMethods
    case "redirect" => Redirect
    case "return" => Return
    case "error_page" => ErrorPage
    case _ => Other
  }

  /** A directive together with the kind its name selects. */
  type Classified = (DirectiveKind, Directive)

  /** The builders' dispatch on directive names, done once for a whole list. */
  function Classify(ds: seq<Directive>): (cs: seq<Classified>)
    ensures |cs| == |ds|
    ensures forall i :: 0 <= i < |ds| ==> cs[i] == (KindOf(ds[i].0), ds[i])
  {
    seq(|ds|, i requires 0 <= i < |ds| => (KindOf(ds[i].0), ds[i]))
  }

  /** `Location::new`, one directive: validator errors are prefixed with the location, `error_page` errors are not. */
  function LocationDirective(loc: Location, kind: DirectiveKind, name: string, infos: seq<string>, fs: FileSystem): (r: Result<Location, string>)
    ensures r.Ok? ==> r.value.path == loc.path && r.value.exactPath == loc.exactPath
    ensures r.Err? && kind != ErrorPage ==> exists e :: r.error == LocationError(loc.path, e)
    ensures r.Err? && kind == ErrorPage ==> ErrorPageResult(infos) == Err(r.error)
    ensures kind == Redirect ==> (r.Ok? <==> |infos| == 1)
    ensures kind == AllowedMethods ==> (r.Ok? <==> |infos| >= 1)
    ensures r.Ok? ==> OrEmpty(r.value.methods) == OrEmpty(loc.methods) + (if kind == AllowedMethods then MethodsFrom(infos) else [])
    ensures r.Ok? ==> (r.value.methods.Some? <==> loc.methods.Some? || kind == AllowedMethods)
  {
    match kind
    case Root =>
      (match ExtractRoot(infos, fs)
       case Err(e) => Err(LocationError(loc.path, e))
       case Ok(p) => Ok(loc.(root := Some(p))))
    case Index =>
      (match ExtractIndex(infos)
       case Err(e) => Err(LocationError(loc.path, e))
       case Ok(index) => Ok(loc.(index := Some(index))))
    case AutoIndex =>
      (match ExtractAutoIndex(infos)
       case Err(e) => Err(LocationError(loc.path, e))
       case Ok(on) => Ok(loc.(autoIndex := on)))
    case MaxBodySize =>
      (match ExtractMaxBodySize(infos)
       case Err(e) => Err(LocationError(loc.path, e))
       case Ok(size) => Ok(loc.(clientMaxBodySize := Some(size))))
    case Cgi =>
      (match ExtractCgi(infos, fs)
       case Err(e) => Err(LocationError(loc.path, e))
       case Ok((extension, path)) => Ok(loc.(cgi := loc.cgi[extension := path])))
    case AllowedMethods =>
      if |infos| < 1 then Err(LocationError(loc.path, "invalid field: allowed_methods"))
      else Ok(loc.(methods := Some(OrEmpty(loc.methods) + MethodsFrom(infos))))
    case Redirect =>
      if |infos| != 1 then Err(LocationError(loc.path, "invalid field: redirect"))
      else Ok(loc.(redirect := Some(infos[0])))
    case Return =>
      (match ExtractReturn(infos)
       case Err(e) => Err(LocationError(loc.path, e))
       case Ok(rule) => Ok(loc.(returnRule := Some(rule))))
    case ErrorPage =>
      (match ErrorPageResult(infos)
       case Err(e) => Err(e)
       case Ok((pages, redirect)) =>
         Ok(loc.(errorPages := loc.errorPages + MapOrEmpty(pages),
                 errorRedirect := loc.errorRedirect + MapOrEmpty(redirect))))
    case Listen | ServerName | Other => Ok(loc.(infos := loc.infos[name := infos]))
  }

  /** The directives of a location applied in order; the first error stops the build. */
  function LocationDirectives(loc: Location, cs: seq<Classified>, fs: FileSystem): (r: Result<Location, string>)
    ensures r.Ok? ==> r.value.path == loc.path && r.value.exactPath == loc.exactPath
    decreases |cs|
  {
    if cs == [] then Ok(loc)
    else
      match LocationDirective(loc, cs[0].0, cs[0].1.0, cs[0].1.1, fs)
      case Err(e) => Err(e)
      case Ok(next) => LocationDirectives(next, cs[1..], fs)
  }

  /** What `Location::new` builds from a block. */
  function BuildLocation(block: LocationBlock, fs: FileSystem): (r: Result<Location, string>)
    ensures r.Ok? ==> r.value.path == block.path
    ensures r.Ok? ==> (r.value.exactPath <==> block.modifier == Some("="))
  {
    LocationDirectives(EmptyLocation(block), Classify(block.directives), fs)
  }

  /** `Location::new`: a loop over the block's directives updating the record under construction. */
  method NewLocation(block: LocationBlock, fs: FileSystem) returns (r: Result<Location, string>)
    ensures r == BuildLocation(block, fs)
  {
    ghost var cs := Classify(block.directives);
    var loc := EmptyLocation(block);
    var i := 0;
    while i < |block.directives|
      invariant 0 <= i <= |block.directives|
      invariant LocationDirectives(loc, cs[i..], fs) == BuildLocation(block, fs)
      decreases |block.directives| - i
    {
      var (name, infos) := block.directives[i];
      var next := LocationDirective(loc, KindOf(name), name, infos, fs);
      if next.Err? {
        return Err(next.error);
      }
      loc := next.value;
      i := i + 1;
    }
    return Ok(loc);
  }

  /** Applying directives in order accumulates the `allowed_methods` lists. */
  lemma {:induction false} LocationMethodsAccumulate(loc: Location, cs: seq<Classified>, fs: FileSystem)
    requires LocationDirectives(loc, cs, fs).Ok?
    ensures OrEmpty(LocationDirectives(loc, cs, fs).value.methods) == OrEmpty(loc.methods) + MethodsOf(cs)
    decreases |cs|
  {
    if cs != [] {
      var next := LocationDirective(loc, cs[0].0, cs[0].1.0, cs[0].1.1, fs).value;
      LocationMethodsAccumulate(next, cs[1..], fs);
    }
  }

  /** `Location::is_method_allowed`: whether the location's method list holds `m`. */
  function LocationAllows(loc: Location, m: Method): (r: bool)
    ensures r <==> loc.methods.Some? && exists i :: 0 <= i < |loc.methods.value| && loc.methods.value[i] == m
  {
    MethodAllowed(loc.methods, m)
  }

  /** A built location allows exactly the methods its `allowed_methods` directives name. */
  lemma LocationAllowsListed(block: LocationBlock, fs: FileSystem, m: Method)
    requires BuildLocation(block, fs).Ok?
    ensures LocationAllows(BuildLocation(block, fs).value, m) <==> m in MethodsOf(Classify(block.directives))
  {
    LocationMethodsAccumulate(EmptyLocation(block), Classify(block.directives), fs);
  }

  /** The configuration fields of a server (the socket and client list exist only while it runs). */
  datatype ServerData = ServerData(
    port: Option<u16>,
    clientMaxBodySize: Option<u64>,
    isDefault: bool,
    root: Option<string>,
    name: Option<seq<string>>,
    index: Option<string>,
    returnRule: Option<(u16, Option<string>)>,
    errorPages: Pages,
    errorRedirect: Redirects,
    autoIndex: bool,
    methods: Option<seq<Method>>,
    infos: map<string, seq<string>>,
    locations: map<string, Location>,
    cgi: map<string, string>)

  const EmptyServer: ServerData :=
    ServerData(None, None, false, None, None, None, None, map[], map[], false, None, map[], map[], map[])

  /** The directive names a server recognises (`redirect` is only a location directive). */
  predicate IsServerDirective(name: string)
  {
    KindOf(name) != Redirect && KindOf(name) != Other
  }

  /** `add_directive`: one directive applied to a server; on error nothing changes. */
  function DirectiveStep(s: ServerData, kind: DirectiveKind, name: string, infos: seq<string>, fs: FileSystem): (r: Result<ServerData, string>)
    ensures r.Ok? ==> r.value.locations == s.locations
  {
    match kind
    case Root =>
      var p :- ExtractRoot(infos, fs);
      Ok(s.(root := Some(p)))
    case Listen =>
      var listen :- ExtractListen(infos);
      Ok(s.(port := listen.0, isDefault := listen.1))
    case ServerName =>
      if |infos| < 1 then Err("invalid field: server_name")
      else Ok(s.(name := Some(OrEmpty(s.name) + infos)))
    case Index =>
      var index :- ExtractIndex(infos);
      Ok(s.(index := Some(index)))
    case AutoIndex =>
      var on :- ExtractAutoIndex(infos);
      Ok(s.(autoIndex := on))
    case MaxBodySize =>
      var size :- ExtractMaxBodySize(infos);
      Ok(s.(clientMaxBodySize := Some(size)))
    case Cgi =>
      var cgi :- ExtractCgi(infos, fs);
      Ok(s.(cgi := s.cgi[cgi.0 := cgi.1]))
    case AllowedMethods =>
      if |infos| < 1 then Err("invalid field: allowed_methods")
      else Ok(s.(methods := Some(OrEmpty(s.methods) + MethodsFrom(infos))))
    case Return =>
      var rule :- ExtractReturn(infos);
      Ok(s.(returnRule := Some(rule)))
    case ErrorPage =>
      var pr :- ErrorPageResult(infos);
      Ok(s.(errorPages := s.errorPages + MapOrEmpty(pr.0), errorRedirect := s.errorRedirect + MapOrEmpty(pr.1)))
    case Redirect | Other => Ok(s.(infos := s.infos[name := infos]))
  }

  /** A `server_name` or `allowed_methods` directive needs at least one token. */
  lemma StepRefusesEmptyLists(s: ServerData, kind: DirectiveKind, name: string, infos: seq<string>, fs: FileSystem)
    requires kind == ServerName || kind == AllowedMethods
    ensures DirectiveStep(s, kind, name, infos, fs).Ok? <==> |infos| >= 1
  {
  }

  /** Only a directive the server does not recognise touches `infos`. */
  lemma StepKeepsInfos(s: ServerData, kind: DirectiveKind, name: string, infos: seq<string>, fs: FileSystem)
    requires kind != Redirect && kind != Other
    requires DirectiveStep(s, kind, name, infos, fs).Ok?
    ensures DirectiveStep(s, kind, name, infos, fs).value.infos == s.infos
  {
  }

  /** A `server_name` directive appends its tokens to the names; no other directive touches them. */
  lemma StepAppendsNames(s: ServerData, kind: DirectiveKind, name: string, infos: seq<string>, fs: FileSystem)
    requires DirectiveStep(s, kind, name, infos, fs).Ok?
    ensures OrEmpty(DirectiveStep(s, kind, name, infos, fs).value.name) == OrEmpty(s.name) + (if kind == ServerName then infos else [])
    ensures DirectiveStep(s, kind, name, infos, fs).value.name.Some? <==> s.name.Some? || kind == ServerName
  {
  }

  /** An `allowed_methods` directive appends its methods; no other directive touches them. */
  lemma StepAppendsMethods(s: ServerData, kind: DirectiveKind, name: string, infos: seq<string>, fs: FileSystem)
    requires DirectiveStep(s, kind, name, infos, fs).Ok?
    ensures OrEmpty(DirectiveStep(s, kind, name, infos, fs).value.methods) == OrEmpty(s.methods) + (if kind == AllowedMethods then MethodsFrom(infos) else [])
    ensures DirectiveStep(s, kind, name, infos, fs).value.methods.Some? <==> s.methods.Some? || kind == AllowedMethods
  {
  }

  /** The directives of a server block applied in order; the first error stops the build. */
  function ApplyDirectives(s: ServerData, cs: seq<Classified>, fs: FileSystem): (r: Result<ServerData, string>)
    ensures r.Ok? ==> r.value.locations == s.locations
    decreases |cs|
  {
    if cs == [] then Ok(s)
    else
      match DirectiveStep(s, cs[0].0, cs[0].1.0, cs[0].1.1, fs)
      case Err(e) => Err(e)
      case Ok(next) => ApplyDirectives(next, cs[1..], fs)
  }

  /** `add_location`: the built location is stored under its path, replacing any earlier one. */
  function LocationStep(s: ServerData, block: LocationBlock, fs: FileSystem): (r: Result<ServerData, string>)
    ensures BuildLocation(block, fs).Ok? ==> r == Ok(s.(locations := s.locations[block.path := BuildLocation(block, fs).value]))
    ensures BuildLocation(block, fs).Err? ==> r == Err(BuildLocation(block, fs).error)
  {
    match BuildLocation(block, fs)
    case Err(e) => Err(e)
    case Ok(loc) => Ok(s.(locations := s.locations[loc.path := loc]))
  }

  /** The location blocks of a server applied in order. */
  function ApplyLocations(s: ServerData, ls: seq<(string, LocationBlock)>, fs: FileSystem): (r: Result<ServerData, string>)
    ensures r.Ok? ==> r.value == s.(locations := r.value.locations)
    decreases |ls|
  {
    if ls == [] then Ok(s)
    else
      match LocationStep(s, ls[0].1, fs)
      case Err(e) => Err(e)
      case Ok(next) => ApplyLocations(next, ls[1..], fs)
  }

  /** `Server::new`: directives, then locations, then the block's `cgi` map replaces the server's. */
  function BuildServer(config: ServerBlock, fs: FileSystem): (r: Result<ServerData, string>)
    ensures r.Ok? ==> r.value.cgi == config.cgi
  {
    var s :- ApplyDirectives(EmptyServer, Classify(config.directives), fs);
    var t :- ApplyLocations(s, config.locations, fs);
    Ok(t.(cgi := config.cgi))
  }

  /**
   * Collecting results in order, as a `?` inside a loop does: all values, or
   * the error of the first result that is one.
   */
  function Collect<T, E>(rs: seq<Result<T, E>>): (r: Result<seq<T>, E>)
    ensures r.Ok? ==> |r.value| == |rs|
    decreases |rs|
  {
    if rs == [] then Ok([])
    else
      var prev := Collect(rs[..|rs| - 1]);
      if prev.Err? then prev
      else
        match rs[|rs| - 1]
        case Err(e) => Err(e)
        case Ok(v) => Ok(prev.value + [v])
  }

  /** All values in order when every result is one; otherwise the first error. */
  lemma {:induction false} CollectMeaning<T, E>(rs: seq<Result<T, E>>)
    ensures Collect(rs).Ok? <==> forall i :: 0 <= i < |rs| ==> rs[i].Ok?
    ensures Collect(rs).Ok? ==> forall i :: 0 <= i < |rs| ==> rs[i] == Ok(Collect(rs).value[i])
    ensures Collect(rs).Err? ==> exists i :: 0 <= i < |rs| && rs[i] == Err(Collect(rs).error) && forall j :: 0 <= j < i ==> rs[j].Ok?
    decreases |rs|
  {
    if rs != [] {
      var n := |rs| - 1;
      var init := rs[..n];
      CollectMeaning(init);
      assert forall i :: 0 <= i < n ==> init[i] == rs[i];
      if Collect(init).Err? {
        var i :| 0 <= i < n && init[i] == Err(Collect(init).error) && forall j :: 0 <= j < i ==> init[j].Ok?;
        assert rs[i] == Err(Collect(rs).error);
      } else if rs[n].Err? {
        assert forall j :: 0 <= j < n ==> rs[j].Ok?;
      }
    }
  }

  /** An error among the first `k` results is the error of the whole sequence. */
  lemma {:induction false} CollectErrorPersists<T, E>(rs: seq<Result<T, E>>, k: nat)
    requires k <= |rs|
    requires Collect(rs[..k]).Err?
    ensures Collect(rs) == Collect(rs[..k])
    decreases |rs| - k
  {
    if k < |rs| {
      var c := rs[..k + 1];
      assert c[..|c| - 1] == rs[..k];
      CollectErrorPersists(rs, k + 1);
    } else {
      assert rs[..k] == rs;
    }
  }

  /** The build of every block, in order. */
  function Builds(configs: seq<ServerBlock>, fs: FileSystem): (rs: seq<Result<ServerData, string>>)
    ensures |rs| == |configs| && forall i :: 0 <= i < |configs| ==> rs[i] == BuildServer(configs[i], fs)
  {
    seq(|configs|, i requires 0 <= i < |configs| => BuildServer(configs[i], fs))
  }

  /** `init_servers`: one server per block in order, or the error of the first block that fails. */
  function InitServersSpec(configs: seq<ServerBlock>, fs: FileSystem): Result<seq<ServerData>, string>
  {
    Collect(Builds(configs, fs))
  }

  /** `init_servers` yields one server per block, in order, or the error of the first block that fails. */
  lemma InitServersMeaning(configs: seq<ServerBlock>, fs: FileSystem)
    ensures InitServersSpec(configs, fs).Ok? <==> forall i :: 0 <= i < |configs| ==> BuildServer(configs[i], fs).Ok?
    ensures InitServersSpec(configs, fs).Ok? ==>
              |InitServersSpec(configs, fs).value| == |configs| &&
              forall i :: 0 <= i < |configs| ==> BuildServer(configs[i], fs) == Ok(InitServersSpec(configs, fs).value[i])
    ensures InitServersSpec(configs, fs).Err? ==>
              exists i :: 0 <= i < |configs| && BuildServer(configs[i], fs) == Err(InitServersSpec(configs, fs).error) &&
                          forall j :: 0 <= j < i ==> BuildServer(configs[j], fs).Ok?
  {
    CollectMeaning(Builds(configs, fs));
  }

  /** `Server::get`: a directive kept verbatim, its tokens joined with one space. */
  function GetInfo(s: ServerData, info: string): (r: Option<string>)
    ensures r.Some? <==> info in s.infos
  {
    if info in s.infos then Some(Join(s.infos[info], " ")) else None
  }

  /** An unrecognised directive replaces the earlier value under its name, and `get` returns it joined. */
  lemma UnknownDirectiveKept(s: ServerData, name: string, infos: seq<string>, fs: FileSystem)
    requires !IsServerDirective(name)
    ensures DirectiveStep(s, KindOf(name), name, infos, fs).Ok?
    ensures DirectiveStep(s, KindOf(name), name, infos, fs).value.infos == s.infos[name := infos]
    ensures GetInfo(DirectiveStep(s, KindOf(name), name, infos, fs).value, name) == Some(Join(infos, " "))
  {
  }

  /** The `server_name`/`server_names` tokens of `cs`, in order. */
  function NamesOf(cs: seq<Classified>): seq<string>
  {
    if cs == [] then []
    else (if cs[0].0 == ServerName then cs[0].1.1 else []) + NamesOf(cs[1..])
  }

  /** Server names accumulate across repeated `server_name` directives, in order. */
  lemma {:induction false} NamesAccumulate(s: ServerData, cs: seq<Classified>, fs: FileSystem)
    requires ApplyDirectives(s, cs, fs).Ok?
    ensures OrEmpty(ApplyDirectives(s, cs, fs).value.name) == OrEmpty(s.name) + NamesOf(cs)
    decreases |cs|
  {
    if cs != [] {
      var (kind, (name, infos)) := cs[0];
      var next := DirectiveStep(s, kind, name, infos, fs).value;
      StepAppendsNames(s, kind, name, infos, fs);
      assert ApplyDirectives(s, cs, fs) == ApplyDirectives(next, cs[1..], fs);
      NamesAccumulate(next, cs[1..], fs);
      var added := if kind == ServerName then infos else [];
      assert OrEmpty(next.name) == OrEmpty(s.name) + added;
      assert NamesOf(cs) == added + NamesOf(cs[1..]);
      assert OrEmpty(s.name) + added + NamesOf(cs[1..]) == OrEmpty(s.name) + (added + NamesOf(cs[1..]));
    }
  }

  /** Allowed methods accumulate across repeated `allowed_methods` directives, in order. */
  lemma {:induction false} MethodsAccumulate(s: ServerData, cs: seq<Classified>, fs: FileSystem)
    requires ApplyDirectives(s, cs, fs).Ok?
    ensures OrEmpty(ApplyDirectives(s, cs, fs).value.methods) == OrEmpty(s.methods) + MethodsOf(cs)
    decreases |cs|
  {
    if cs != [] {
      var (kind, (name, infos)) := cs[0];
      var next := DirectiveStep(s, kind, name, infos, fs).value;
      StepAppendsMethods(s, kind, name, infos, fs);
      assert ApplyDirectives(s, cs, fs) == ApplyDirectives(next, cs[1..], fs);
      MethodsAccumulate(next, cs[1..], fs);
      var added := if kind == AllowedMethods then MethodsFrom(infos) else [];
      assert OrEmpty(next.methods) == OrEmpty(s.methods) + added;
      assert MethodsOf(cs) == added + MethodsOf(cs[1..]);
      assert OrEmpty(s.methods) + added + MethodsOf(cs[1..]) == OrEmpty(s.methods) + (added + MethodsOf(cs[1..]));
    }
  }

  /** `Server::is_method_allowed`. */
  function IsMethodAllowed(s: ServerData, m: Method): (r: bool)
    ensures r <==> s.methods.Some? && exists i :: 0 <= i < |s.methods.value| && s.methods.value[i] == m
  {
    MethodAllowed(s.methods, m)
  }

  /** A built server allows exactly the methods its own `allowed_methods` directives name. */
  lemma ServerAllowsListed(config: ServerBlock, fs: FileSystem, m: Method)
    requires BuildServer(config, fs).Ok?
    ensures IsMethodAllowed(BuildServer(config, fs).value, m) <==> m in MethodsOf(Classify(config.directives))
  {
    MethodsAccumulate(EmptyServer, Classify(config.directives), fs);
  }

  /** `Server::parse_method`: an allowed method passes; a refused one is 405 if unknown, else 501. */
  function ServerParseMethod(s: ServerData, request: RequestData): (r: Result<(), u16>)
    ensures r.Ok? <==> IsMethodAllowed(s, request.httpMethod)
    ensures r.Err? ==> (r.error == NotImplemented <==> s.methods.Some? && request.httpMethod != Unknown)
    ensures r.Err? ==> r.error == NotImplemented || r.error == MethodNotAllowed
  {
    if s.methods.None? then Err(MethodNotAllowed)
    else if request.httpMethod in s.methods.value then Ok(())
    else if request.httpMethod == Unknown then Err(MethodNotAllowed)
    else Err(NotImplemented)
  }

  /** `Server::parse`: the method check, then the body-size limit under `Option` ordering. */
  function ServerParse(s: ServerData, request: RequestData): (r: Result<(), u16>)
    ensures r.Ok? <==> IsMethodAllowed(s, request.httpMethod) && !OptionLess(s.clientMaxBodySize, request.contentLength)
    ensures r == Err(PayloadTooLarge) <==> IsMethodAllowed(s, request.httpMethod) && OptionLess(s.clientMaxBodySize, request.contentLength)
    ensures ServerParseMethod(s, request).Err? ==> r == ServerParseMethod(s, request)
  {
    if ServerParseMethod(s, request).Err? then ServerParseMethod(s, request)
    else if OptionLess(s.clientMaxBodySize, request.contentLength) then Err(PayloadTooLarge)
    else Ok(())
  }

  /** Unlike the trait's check, the server lets every listed method through, and refuses an unlisted GET with 501. */
  lemma ParseMethodDraftsDiffer(s: ServerData, request: RequestData)
    requires s.methods.Some?
    ensures request.httpMethod in s.methods.value ==> ServerParseMethod(s, request).Ok?
    ensures request.httpMethod in s.methods.value && request.httpMethod != Get ==>
              Config.ParseMethod(s.methods, request) == Err(NotImplemented)
    ensures request.httpMethod == Get && Get !in s.methods.value ==>
              ServerParseMethod(s, request) == Err(NotImplemented) && Config.ParseMethod(s.methods, request) == Err(MethodNotAllowed)
  {
  }

  /** The paths the location blocks are stored under. */
  function PathsOf(ls: seq<(string, LocationBlock)>): set<string>
  {
    set i | 0 <= i < |ls| :: ls[i].1.path
  }

  /** The paths of a non-empty list of blocks: the first block's, then the rest's. */
  lemma PathsOfCons(ls: seq<(string, LocationBlock)>)
    requires ls != []
    ensures PathsOf(ls) == {ls[0].1.path} + PathsOf(ls[1..])
  {
    var rest := ls[1..];
    forall p | p in PathsOf(ls) ensures p in {ls[0].1.path} + PathsOf(rest) {
      var i :| 0 <= i < |ls| && ls[i].1.path == p;
      if i > 0 {
        assert rest[i - 1].1.path == p;
      }
    }
    forall p | p in PathsOf(rest) ensures p in PathsOf(ls) {
      var i :| 0 <= i < |rest| && rest[i].1.path == p;
      assert ls[i + 1].1.path == p;
    }
  }

  /** The stored paths after the location blocks: the earlier ones and every block's. */
  lemma {:induction false} LocationsKeys(s: ServerData, ls: seq<(string, LocationBlock)>, fs: FileSystem)
    requires ApplyLocations(s, ls, fs).Ok?
    ensures ApplyLocations(s, ls, fs).value.locations.Keys == s.locations.Keys + PathsOf(ls)
    decreases |ls|
  {
    if ls != [] {
      var next := LocationStep(s, ls[0].1, fs).value;
      LocationsKeys(next, ls[1..], fs);
      PathsOfCons(ls);
    }
  }

  /** A path no block names keeps the location stored under it. */
  lemma {:induction false} LocationsUntouched(s: ServerData, ls: seq<(string, LocationBlock)>, fs: FileSystem, p: string)
    requires ApplyLocations(s, ls, fs).Ok?
    requires p in s.locations && p !in PathsOf(ls)
    ensures p in ApplyLocations(s, ls, fs).value.locations
    ensures ApplyLocations(s, ls, fs).value.locations[p] == s.locations[p]
    decreases |ls|
  {
    if ls != [] {
      var next := LocationStep(s, ls[0].1, fs).value;
      PathsOfCons(ls);
      LocationsUntouched(next, ls[1..], fs, p);
    }
  }

  /** The location stored under a path is the one built from the last block with that path. */
  lemma {:induction false} LocationsLastWins(s: ServerData, ls: seq<(string, LocationBlock)>, fs: FileSystem, i: nat)
    requires ApplyLocations(s, ls, fs).Ok?
    requires i < |ls| && forall j :: i < j < |ls| ==> ls[j].1.path != ls[i].1.path
    ensures ls[i].1.path in ApplyLocations(s, ls, fs).value.locations
    ensures BuildLocation(ls[i].1, fs) == Ok(ApplyLocations(s, ls, fs).value.locations[ls[i].1.path])
    decreases |ls|
  {
    var next := LocationStep(s, ls[0].1, fs).value;
    var rest := ls[1..];
    PathsOfCons(ls);
    if i == 0 {
      assert ls[0].1.path !in PathsOf(rest) by {
        forall k | 0 <= k < |rest| ensures rest[k].1.path != ls[0].1.path {
          assert rest[k] == ls[k + 1];
        }
      }
      LocationsUntouched(next, rest, fs, ls[0].1.path);
    } else {
      assert rest[i - 1] == ls[i];
      forall j | i - 1 < j < |rest| ensures rest[j].1.path != rest[i - 1].1.path {
        assert rest[j] == ls[j + 1];
      }
      LocationsLastWins(next, rest, fs, i - 1);
    }
  }

  /** A server whose configuration fields are updated in place by its directives and locations. */
  class Server {
    var port: Option<u16>
    var clientMaxBodySize: Option<u64>
    var isDefault: bool
    var root: Option<string>
    var name: Option<seq<string>>
    var index: Option<string>
    var returnRule: Option<(u16, Option<string>)>
    var errorPages: Pages
    var errorRedirect: Redirects
    var autoIndex: bool
    var methods: Option<seq<Method>>
    var infos: map<string, seq<string>>
    var locations: map<string, Location>
    var cgi: map<string, string>

    function Snapshot(): ServerData
      reads this
    {
      ServerData(port, clientMaxBodySize, isDefault, root, name, index, returnRule, errorPages,
                 errorRedirect, autoIndex, methods, infos, locations, cgi)
    }

    /** The record `Server::new` starts from: nothing configured. */
    constructor ()
      ensures Snapshot() == EmptyServer
    {
      port := None;
      clientMaxBodySize := None;
      isDefault := false;
      root := None;
      name := None;
      index := None;
      returnRule := None;
      errorPages := map[];
      errorRedirect := map[];
      autoIndex := false;
      methods := None;
      infos := map[];
      locations := map[];
      cgi := map[];
    }

    /** `add_directive`: the name is classified, then the matching field is updated. */
    method AddDirective(directive: string, tokens: seq<string>, fs: FileSystem) returns (r: Result<(), string>)
      modifies this
      ensures r.Ok? <==> DirectiveStep(old(Snapshot()), KindOf(directive), directive, tokens, fs).Ok?
      ensures r.Ok? ==> Snapshot() == DirectiveStep(old(Snapshot()), KindOf(directive), directive, tokens, fs).value
      ensures r.Err? ==> Snapshot() == old(Snapshot()) && DirectiveStep(old(Snapshot()), KindOf(directive), directive, tokens, fs) == Err(r.error)
    {
      r := ApplyDirective(KindOf(directive), directive, tokens, fs);
    }

    /** The body of `add_directive`'s `match`, for a directive of the given kind. */
    method ApplyDirective(kind: DirectiveKind, directive: string, tokens: seq<string>, fs: FileSystem) returns (r: Result<(), string>)
      modifies this
      ensures r.Ok? <==> DirectiveStep(old(Snapshot()), kind, directive, tokens, fs).Ok?
      ensures r.Ok? ==> Snapshot() == DirectiveStep(old(Snapshot()), kind, directive, tokens, fs).value
      ensures r.Err? ==> Snapshot() == old(Snapshot()) && DirectiveStep(old(Snapshot()), kind, directive, tokens, fs) == Err(r.error)
    {
      match kind {
      case Root => r := SetRoot(directive, tokens, fs);
      case Listen => r := SetListen(directive, tokens, fs);
      case ServerName => r := AddServerNames(directive, tokens, fs);
      case Index => r := SetIndex(directive, tokens, fs);
      case AutoIndex => r := SetAutoIndex(directive, tokens, fs);
      case MaxBodySize => r := SetMaxBodySize(directive, tokens, fs);
      case Cgi => r := AddCgi(directive, tokens, fs);
      case AllowedMethods => r := AddMethods(directive, tokens, fs);
      case Return => r := SetReturn(directive, tokens, fs);
      case ErrorPage => r := AddErrorPages(directive, tokens, fs);
      case Redirect | Other => r := KeepInfo(kind, directive, tokens);
      }
    }

    /** `root`: overwrites the root directory. */
    method SetRoot(directive: string, tokens: seq<string>, fs: FileSystem) returns (r: Result<(), string>)
      modifies this
      ensures r.Ok? <==> DirectiveStep(old(Snapshot()), Root, directive, tokens, fs).Ok?
      ensures r.Ok? ==> Snapshot() == DirectiveStep(old(Snapshot()), Root, directive, tokens, fs).value
      ensures r.Err? ==> Snapshot() == old(Snapshot()) && DirectiveStep(old(Snapshot()), Root, directive, tokens, fs) == Err(r.error)
    {
      var p :- ExtractRoot(tokens, fs);
      root := Some(p);
      r := Ok(());
    }

    /** `listen`: overwrites the port and the default flag. */
    method SetListen(directive: string, tokens: seq<string>, fs: FileSystem) returns (r: Result<(), string>)
      modifies this
      ensures r.Ok? <==> DirectiveStep(old(Snapshot()), Listen, directive, tokens, fs).Ok?
      ensures r.Ok? ==> Snapshot() == DirectiveStep(old(Snapshot()), Listen, directive, tokens, fs).value
      ensures r.Err? ==> Snapshot() == old(Snapshot()) && DirectiveStep(old(Snapshot()), Listen, directive, tokens, fs) == Err(r.error)
    {
      var listen :- ExtractListen(tokens);
      port, isDefault := listen.0, listen.1;
      r := Ok(());
    }

    /** `server_name`/`server_names`: appends the names. */
    method AddServerNames(directive: string, tokens: seq<string>, fs: FileSystem) returns (r: Result<(), string>)
      modifies this
      ensures r.Ok? <==> DirectiveStep(old(Snapshot()), ServerName, directive, tokens, fs).Ok?
      ensures r.Ok? ==> Snapshot() == DirectiveStep(old(Snapshot()), ServerName, directive, tokens, fs).value
      ensures r.Err? ==> Snapshot() == old(Snapshot()) && DirectiveStep(old(Snapshot()), ServerName, directive, tokens, fs) == Err(r.error)
    {
      if |tokens| < 1 {
        return Err("invalid field: server_name");
      }
      if name.None? {
        name := Some([]);
      }
      name := Some(name.value + tokens);
      r := Ok(());
    }

    /** `index`: overwrites the index file. */
    method SetIndex(directive: string, tokens: seq<string>, fs: FileSystem) returns (r: Result<(), string>)
      modifies this
      ensures r.Ok? <==> DirectiveStep(old(Snapshot()), Index, directive, tokens, fs).Ok?
      ensures r.Ok? ==> Snapshot() == DirectiveStep(old(Snapshot()), Index, directive, tokens, fs).value
      ensures r.Err? ==> Snapshot() == old(Snapshot()) && DirectiveStep(old(Snapshot()), Index, directive, tokens, fs) == Err(r.error)
    {
      var i :- ExtractIndex(tokens);
      index := Some(i);
      r := Ok(());
    }

    /** `auto_index`: overwrites the flag. */
    method SetAutoIndex(directive: string, tokens: seq<string>, fs: FileSystem) returns (r: Result<(), string>)
      modifies this
      ensures r.Ok? <==> DirectiveStep(old(Snapshot()), AutoIndex, directive, tokens, fs).Ok?
      ensures r.Ok? ==> Snapshot() == DirectiveStep(old(Snapshot()), AutoIndex, directive, tokens, fs).value
      ensures r.Err? ==> Snapshot() == old(Snapshot()) && DirectiveStep(old(Snapshot()), AutoIndex, directive, tokens, fs) == Err(r.error)
    {
      var on :- ExtractAutoIndex(tokens);
      autoIndex := on;
      r := Ok(());
    }

    /** `client_max_body_size`: overwrites the limit. */
    method SetMaxBodySize(directive: string, tokens: seq<string>, fs: FileSystem) returns (r: Result<(), string>)
      modifies this
      ensures r.Ok? <==> DirectiveStep(old(Snapshot()), MaxBodySize, directive, tokens, fs).Ok?
      ensures r.Ok? ==> Snapshot() == DirectiveStep(old(Snapshot()), MaxBodySize, directive, tokens, fs).value
      ensures r.Err? ==> Snapshot() == old(Snapshot()) && DirectiveStep(old(Snapshot()), MaxBodySize, directive, tokens, fs) == Err(r.error)
    {
      var size :- ExtractMaxBodySize(tokens);
      clientMaxBodySize := Some(size);
      r := Ok(());
    }

    /** `cgi`: inserts one extension. */
    method AddCgi(directive: string, tokens: seq<string>, fs: FileSystem) returns (r: Result<(), string>)
      modifies this
      ensures r.Ok? <==> DirectiveStep(old(Snapshot()), Cgi, directive, tokens, fs).Ok?
      ensures r.Ok? ==> Snapshot() == DirectiveStep(old(Snapshot()), Cgi, directive, tokens, fs).value
      ensures r.Err? ==> Snapshot() == old(Snapshot()) && DirectiveStep(old(Snapshot()), Cgi, directive, tokens, fs) == Err(r.error)
    {
      var entry :- ExtractCgi(tokens, fs);
      cgi := cgi[entry.0 := entry.1];
      r := Ok(());
    }

    /** `allowed_methods`: appends the methods. */
    method AddMethods(directive: string, tokens: seq<string>, fs: FileSystem) returns (r: Result<(), string>)
      modifies this
      ensures r.Ok? <==> DirectiveStep(old(Snapshot()), AllowedMethods, directive, tokens, fs).Ok?
      ensures r.Ok? ==> Snapshot() == DirectiveStep(old(Snapshot()), AllowedMethods, directive, tokens, fs).value
      ensures r.Err? ==> Snapshot() == old(Snapshot()) && DirectiveStep(old(Snapshot()), AllowedMethods, directive, tokens, fs) == Err(r.error)
    {
      if |tokens| < 1 {
        return Err("invalid field: allowed_methods");
      }
      if methods.None? {
        methods := Some([]);
      }
      methods := Some(methods.value + MethodsFrom(tokens));
      r := Ok(());
    }

    /** `return`: overwrites the return rule. */
    method SetReturn(directive: string, tokens: seq<string>, fs: FileSystem) returns (r: Result<(), string>)
      modifies this
      ensures r.Ok? <==> DirectiveStep(old(Snapshot()), Return, directive, tokens, fs).Ok?
      ensures r.Ok? ==> Snapshot() == DirectiveStep(old(Snapshot()), Return, directive, tokens, fs).value
      ensures r.Err? ==> Snapshot() == old(Snapshot()) && DirectiveStep(old(Snapshot()), Return, directive, tokens, fs) == Err(r.error)
    {
      var rule :- ExtractReturn(tokens);
      returnRule := Some(rule);
      r := Ok(());
    }

    /** `error_page`: inserts every page and redirect of the directive. */
    method AddErrorPages(directive: string, tokens: seq<string>, fs: FileSystem) returns (r: Result<(), string>)
      modifies this
      ensures r.Ok? <==> DirectiveStep(old(Snapshot()), ErrorPage, directive, tokens, fs).Ok?
      ensures r.Ok? ==> Snapshot() == DirectiveStep(old(Snapshot()), ErrorPage, directive, tokens, fs).value
      ensures r.Err? ==> Snapshot() == old(Snapshot()) && DirectiveStep(old(Snapshot()), ErrorPage, directive, tokens, fs) == Err(r.error)
    {
      ghost var s := Snapshot();
      var pr :- ExtractErrorPage(tokens);
      errorPages := errorPages + MapOrEmpty(pr.0);
      errorRedirect := errorRedirect + MapOrEmpty(pr.1);
      assert Snapshot() == s.(errorPages := errorPages, errorRedirect := errorRedirect);
      r := Ok(());
    }

    /**
     * Any other name: the tokens are kept verbatim under it. This arm never
     * consults the file system, so any value serves in its specification.
     */
    method KeepInfo(kind: DirectiveKind, directive: string, tokens: seq<string>) returns (r: Result<(), string>)
      requires kind == Redirect || kind == Other
      modifies this
      ensures r.Ok? && Snapshot() == DirectiveStep(old(Snapshot()), kind, directive, tokens, FileSystem({}, {})).value
    {
      infos := infos[directive := tokens];
      r := Ok(());
    }

    /** `add_location`. */
    method AddLocation(block: LocationBlock, fs: FileSystem) returns (r: Result<(), string>)
      modifies this
      ensures r.Ok? <==> LocationStep(old(Snapshot()), block, fs).Ok?
      ensures r.Ok? ==> Snapshot() == LocationStep(old(Snapshot()), block, fs).value
      ensures r.Err? ==> Snapshot() == old(Snapshot()) && LocationStep(old(Snapshot()), block, fs) == Err(r.error)
    {
      var loc :- NewLocation(block, fs);
      locations := locations[loc.path := loc];
      r := Ok(());
    }

    /** `Server::new`. */
    static method New(config: ServerBlock, fs: FileSystem) returns (r: Result<Server, string>)
      ensures r.Ok? <==> BuildServer(config, fs).Ok?
      ensures r.Ok? ==> fresh(r.value) && r.value.Snapshot() == BuildServer(config, fs).value
      ensures r.Err? ==> BuildServer(config, fs) == Err(r.error)
    {
      ghost var cs := Classify(config.directives);
      var serv := new Server();
      var i := 0;
      while i < |config.directives|
        invariant 0 <= i <= |config.directives|
        invariant fresh(serv)
        invariant ApplyDirectives(serv.Snapshot(), cs[i..], fs) == ApplyDirectives(EmptyServer, cs, fs)
        decreases |config.directives| - i
      {
        var added := serv.AddDirective(config.directives[i].0, config.directives[i].1, fs);
        if added.Err? {
          return Err(added.error);
        }
        i := i + 1;
      }
      var directed := serv.Snapshot();
      i := 0;
      while i < |config.locations|
        invariant 0 <= i <= |config.locations|
        invariant fresh(serv)
        invariant ApplyLocations(serv.Snapshot(), config.locations[i..], fs) == ApplyLocations(directed, config.locations, fs)
        decreases |config.locations| - i
      {
        var added := serv.AddLocation(config.locations[i].1, fs);
        if added.Err? {
          return Err(added.error);
        }
        i := i + 1;
      }
      serv.cgi := config.cgi;
      return Ok(serv);
    }

    /** `init_servers`. */
    static method InitServers(configs: seq<ServerBlock>, fs: FileSystem) returns (r: Result<seq<Server>, string>)
      ensures r.Ok? <==> InitServersSpec(configs, fs).Ok?
      ensures r.Ok? ==> |r.value| == |configs|
      ensures r.Ok? ==> forall i :: 0 <= i < |configs| ==>
                          fresh(r.value[i]) && r.value[i].Snapshot() == InitServersSpec(configs, fs).value[i]
      ensures r.Err? ==> InitServersSpec(configs, fs) == Err(r.error)
    {
      ghost var rs := Builds(configs, fs);
      var servers: seq<Server> := [];
      var i := 0;
      while i < |configs|
        invariant 0 <= i <= |configs|
        invariant Collect(rs[..i]).Ok?
        invariant |servers| == i
        invariant forall k :: 0 <= k < i ==> fresh(servers[k]) && servers[k].Snapshot() == Collect(rs[..i]).value[k]
        decreases |configs| - i
      {
        var built := New(configs[i], fs);
        var c := rs[..i + 1];
        assert c[..|c| - 1] == rs[..i];
        if built.Err? {
          CollectErrorPersists(rs, i + 1);
          return Err(built.error);
        }
        servers := servers + [built.value];
        i := i + 1;
      }
      assert rs[..i] == rs;
      return Ok(servers);
    }
  }
}
