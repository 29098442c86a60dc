/**
 * The earlier server draft. A server keeps a port, a default flag, a root, one
 * name, the directives it does not recognise (verbatim, under their name) and
 * its locations; a location keeps a root and verbatim directives. Only `root`,
 * `listen` and `server_name` are recognised, and a later directive overwrites
 * what an earlier one with the same name set, except the default flag: a
 * `listen … default` sets it and nothing resets it.
 *
 * The class `Server` holds the fields; `ServerData` is their value, and the
 * builders are specified by folds over the directive list. `LastTokens`, the
 * last directive with a given name found from the back of the list, is the
 * independent reference the folds are proved against.
 */
module DraftServers {
  import opened Wrappers
  import opened Numbers
  import opened Parsing

  datatype Location = Location(
    root: Option<string>,
    path: string,
    infos: map<string, seq<string>>,
    cgi: map<string, string>)

  /** The tokens of the last directive named `name`, if there is one. */
  function LastTokens(ds: seq<Directive>, name: string): Option<seq<string>>
    decreases |ds|
  {
    if ds == [] then None
    else if ds[|ds| - 1].0 == name then Some(ds[|ds| - 1].1)
    else LastTokens(ds[..|ds| - 1], name)
  }

  /** `LastTokens` finds the directive with that name that no later directive shares the name of. */
  lemma {:induction false} LastTokensMeaning(ds: seq<Directive>, name: string)
    ensures LastTokens(ds, name).None? <==> forall i :: 0 <= i < |ds| ==> ds[i].0 != name
    ensures LastTokens(ds, name).Some? ==>
              exists i :: 0 <= i < |ds| && ds[i] == (name, LastTokens(ds, name).value) &&
                          forall j :: i < j < |ds| ==> ds[j].0 != name
    decreases |ds|
  {
    if ds != [] && ds[|ds| - 1].0 != name {
      var init := ds[..|ds| - 1];
      LastTokensMeaning(init, name);
      assert forall i :: 0 <= i < |init| ==> init[i] == ds[i];
    }
  }

  /** Looking from the front: the rest's last directive named `name`, or else the first one's. */
  lemma {:induction false} LastTokensCons(ds: seq<Directive>, name: string)
    requires ds != []
    ensures LastTokens(ds, name) ==
              if LastTokens(ds[1..], name).Some? then LastTokens(ds[1..], name)
              else if ds[0].0 == name then Some(ds[0].1)
              else None
    decreases |ds|
  {
    var n := |ds| - 1;
    if n > 0 {
      assert ds[1..][n - 1] == ds[n];
      if ds[n].0 != name {
        var init := ds[..n];
        assert init[1..] == ds[1..][..n - 1];
        LastTokensCons(init, name);
      }
    }
  }

  /** The value stored under `name`, if any. */
  function Lookup(m: map<string, seq<string>>, name: string): (r: Option<seq<string>>)
    ensures r.Some? <==> name in m
  {
    if name in m then Some(m[name]) else None
  }

  /** The `root` rule both builders share: no token clears the root, one token sets it, more are refused (`None`). */
  function RootOf(tokens: seq<string>): (r: Option<Option<string>>)
    ensures r.None? <==> |tokens| > 1
    ensures r == Some(None) <==> tokens == []
    ensures |tokens| == 1 ==> r == Some(Some(tokens[0]))
  {
    if tokens == [] then Some(None)
    else if |tokens| > 1 then None
    else Some(Some(tokens[0]))
  }

  // ---------------------------------------------------------------------------
  // Location::new

  /** One directive of `Location::new`: `root` by the root rule, anything else kept verbatim. */
  function LocationDirective(loc: Location, name: string, tokens: seq<string>): (r: Result<Location, string>)
    ensures r.Err? <==> name == "root" && |tokens| > 1
    ensures r.Err? ==> r.error == "invalid location field: root"
    ensures r.Ok? ==> r.value.path == loc.path && r.value.cgi == loc.cgi
    ensures r.Ok? && name == "root" ==> Some(r.value.root) == RootOf(tokens) && r.value.infos == loc.infos
    ensures r.Ok? && name != "root" ==> r.value.root == loc.root && Lookup(r.value.infos, name) == Some(tokens)
    ensures r.Ok? ==> forall other :: other != name ==> Lookup(r.value.infos, other) == Lookup(loc.infos, other)
  {
    if name == "root" then
      match RootOf(tokens)
      case None => Err("invalid location field: root")
      case Some(root) => Ok(loc.(root := root))
    else Ok(loc.(infos := loc.infos[name := tokens]))
  }

  /** The directives of a location applied in order; the first error stops the build. */
  function LocationDirectives(loc: Location, ds: seq<Directive>): (r: Result<Location, string>)
    ensures r.Ok? ==> r.value.path == loc.path && r.value.cgi == loc.cgi
    decreases |ds|
  {
    if ds == [] then Ok(loc)
    else
      match LocationDirective(loc, ds[0].0, ds[0].1)
      case Err(e) => Err(e)
      case Ok(next) => LocationDirectives(next, ds[1..])
  }

  /** What `Location::new` builds: the directives from an empty location, then the block's `cgi` map. */
  function BuildLocation(block: LocationBlock): (r: Result<Location, string>)
    ensures r.Ok? ==> r.value.path == block.path && r.value.cgi == block.cgi
  {
    var loc :- LocationDirectives(Location(None, block.path, map[], map[]), block.directives);
    Ok(loc.(cgi := block.cgi))
  }

  /** `Location::new`: a loop over the block's directives updating the location under construction. */
  method NewLocation(block: LocationBlock) returns (r: Result<Location, string>)
    ensures r == BuildLocation(block)
  {
    var loc := Location(None, block.path, map[], map[]);
    var i := 0;
    while i < |block.directives|
      invariant 0 <= i <= |block.directives|
      invariant LocationDirectives(loc, block.directives[i..]) ==
                LocationDirectives(Location(None, block.path, map[], map[]), block.directives)
      decreases |block.directives| - i
    {
      var (name, tokens) := block.directives[i];
      assert block.directives[i..][1..] == block.directives[i + 1..];
      if name == "root" {
        if tokens == [] {
          loc := loc.(root := None);
        } else if |tokens| > 1 {
          return Err("invalid location field: root");
        } else {
          loc := loc.(root := Some(tokens[0]));
        }
      } else {
        loc := loc.(infos := loc.infos[name := tokens]);
      }
      i := i + 1;
    }
    loc := loc.(cgi := block.cgi);
    return Ok(loc);
  }

  /** A location is refused exactly when one of its `root` directives has more than one token. */
  lemma {:induction false} LocationRefused(loc: Location, ds: seq<Directive>)
    ensures LocationDirectives(loc, ds).Err? <==> exists i :: 0 <= i < |ds| && ds[i].0 == "root" && |ds[i].1| > 1
    ensures LocationDirectives(loc, ds).Err? ==> LocationDirectives(loc, ds).error == "invalid location field: root"
    decreases |ds|
  {
    if ds != [] {
      var step := LocationDirective(loc, ds[0].0, ds[0].1);
      if step.Ok? {
        LocationRefused(step.value, ds[1..]);
        assert forall i :: 1 <= i < |ds| ==> ds[i] == ds[1..][i - 1];
      }
    }
  }

  /** The root of a location is set by its last `root` directive; without one it stays as it was. */
  lemma {:induction false} LocationRootIsLast(loc: Location, ds: seq<Directive>)
    requires LocationDirectives(loc, ds).Ok?
    ensures LastTokens(ds, "root").None? ==> LocationDirectives(loc, ds).value.root == loc.root
    ensures LastTokens(ds, "root").Some? ==> RootOf(LastTokens(ds, "root").value) == Some(LocationDirectives(loc, ds).value.root)
    decreases |ds|
  {
    if ds != [] {
      LastTokensCons(ds, "root");
      LocationRootIsLast(LocationDirective(loc, ds[0].0, ds[0].1).value, ds[1..]);
    }
  }

  /** Every other directive is kept verbatim under its name, the last one winning. */
  lemma {:induction false} LocationInfosLastWins(loc: Location, ds: seq<Directive>, name: string)
    requires name != "root"
    requires LocationDirectives(loc, ds).Ok?
    ensures Lookup(LocationDirectives(loc, ds).value.infos, name) ==
              if LastTokens(ds, name).Some? then LastTokens(ds, name) else Lookup(loc.infos, name)
    decreases |ds|
  {
    if ds != [] {
      LastTokensCons(ds, name);
      LocationInfosLastWins(LocationDirective(loc, ds[0].0, ds[0].1).value, ds[1..], name);
    }
  }

  // ---------------------------------------------------------------------------
  // Server: add_directive, add_location, new

  /** The configuration fields of a server. */
  datatype ServerData = ServerData(
    port: u16,
    isDefault: bool,
    root: Option<string>,
    name: Option<string>,
    infos: map<string, seq<string>>,
    locations: map<string, Location>,
    cgi: map<string, string>)

  /** The server `Server::new` starts from: port 0, not the default one, nothing set. */
  const EmptyServer: ServerData := ServerData(0, false, None, None, map[], map[], map[])

  /** The directive names the server recognises. */
  predicate IsServerDirective(name: string)
  {
    name == "root" || name == "listen" || name == "server_name"
  }

  /** The error a directive is refused with, whatever the server it is applied to. */
  function Refusal(name: string, tokens: seq<string>): (r: Option<string>)
    ensures r.Some? ==> IsServerDirective(name)
  {
    if name == "root" && |tokens| > 1 then Some("invalid field: root")
    else if name == "listen" && (tokens == [] || |tokens| > 2) then Some("invalid field: listen")
    else if name == "listen" && ParseU16(tokens[0]).Err? then Some("invalid field: listen (0 <= port <= 65535)")
    else if name == "server_name" && |tokens| != 1 then Some("invalid field: server_name")
    else None
  }

  /** `add_directive`: what one directive does to a server. */
  function DirectiveStep(s: ServerData, name: string, tokens: seq<string>): (r: Result<ServerData, string>)
    ensures r.Err? <==> Refusal(name, tokens).Some?
    ensures r.Err? ==> r.error == Refusal(name, tokens).value
    ensures r.Ok? ==> r.value.locations == s.locations && r.value.cgi == s.cgi
    ensures r.Ok? && !IsServerDirective(name) ==> r.value == s.(infos := s.infos[name := tokens])
    ensures r.Ok? && IsServerDirective(name) ==> r.value.infos == s.infos
  {
    if name == "root" then
      match RootOf(tokens)
      case None => Err("invalid field: root")
      case Some(root) => Ok(s.(root := root))
    else if name == "listen" then
      if tokens == [] || |tokens| > 2 then Err("invalid field: listen")
      else
        match ParseU16(tokens[0])
        case Err(_) => Err("invalid field: listen (0 <= port <= 65535)")
        case Ok(port) => Ok(s.(port := port, isDefault := if |tokens| == 2 && tokens[1] == "default" then true else s.isDefault))
    else if name == "server_name" then
      if |tokens| != 1 then Err("invalid field: server_name")
      else Ok(s.(name := Some(tokens[0])))
    else Ok(s.(infos := s.infos[name := tokens]))
  }

  /** The directives of a server block applied in order; the first error stops the build. */
  function ApplyDirectives(s: ServerData, ds: seq<Directive>): (r: Result<ServerData, string>)
    ensures r.Ok? ==> r.value.locations == s.locations && r.value.cgi == s.cgi
    decreases |ds|
  {
    if ds == [] then Ok(s)
    else
      match DirectiveStep(s, ds[0].0, ds[0].1)
      case Err(e) => Err(e)
      case Ok(next) => ApplyDirectives(next, ds[1..])
  }

  /** `add_location`: the built location is stored under its path, replacing any earlier one. */
  function LocationStep(s: ServerData, block: LocationBlock): (r: Result<ServerData, string>)
    ensures BuildLocation(block).Ok? ==> r == Ok(s.(locations := s.locations[block.path := BuildLocation(block).value]))
    ensures BuildLocation(block).Err? ==> r == Err(BuildLocation(block).error)
  {
    var loc :- BuildLocation(block);
    Ok(s.(locations := s.locations[loc.path := loc]))
  }

  /** The location blocks of a server applied in order. */
  function ApplyLocations(s: ServerData, ls: seq<(string, LocationBlock)>): (r: Result<ServerData, string>)
    ensures r.Ok? ==> r.value == s.(locations := r.value.locations)
    decreases |ls|
  {
    if ls == [] then Ok(s)
    else
      match LocationStep(s, ls[0].1)
      case Err(e) => Err(e)
      case Ok(next) => ApplyLocations(next, ls[1..])
  }

  /** `Server::new`: directives, then locations, then the block's `cgi` map. */
  function BuildServer(config: ServerBlock): (r: Result<ServerData, string>)
    ensures r.Ok? ==> r.value.cgi == config.cgi
  {
    var s :- ApplyDirectives(EmptyServer, config.directives);
    var t :- ApplyLocations(s, config.locations);
    Ok(t.(cgi := config.cgi))
  }

  /** A server is refused exactly when some directive is, with the error of the first refused one. */
  lemma {:induction false} ServerRefused(s: ServerData, ds: seq<Directive>)
    ensures ApplyDirectives(s, ds).Err? <==> exists i :: 0 <= i < |ds| && Refusal(ds[i].0, ds[i].1).Some?
    ensures ApplyDirectives(s, ds).Err? ==>
              exists i :: 0 <= i < |ds| && Refusal(ds[i].0, ds[i].1) == Some(ApplyDirectives(s, ds).error) &&
                          forall j :: 0 <= j < i ==> Refusal(ds[j].0, ds[j].1).None?
    decreases |ds|
  {
    if ds != [] {
      var step := DirectiveStep(s, ds[0].0, ds[0].1);
      if step.Ok? {
        ServerRefused(step.value, ds[1..]);
        assert forall i :: 1 <= i < |ds| ==> ds[i] == ds[1..][i - 1];
        if ApplyDirectives(s, ds).Err? {
          var i :| 0 <= i < |ds[1..]| && Refusal(ds[1..][i].0, ds[1..][i].1) == Some(ApplyDirectives(s, ds).error) &&
                   forall j :: 0 <= j < i ==> Refusal(ds[1..][j].0, ds[1..][j].1).None?;
          assert Refusal(ds[i + 1].0, ds[i + 1].1) == Some(ApplyDirectives(s, ds).error);
        }
      }
    }
  }

  /** The root is set by the last `root` directive, by the root rule; without one it stays as it was. */
  lemma {:induction false} ServerRootIsLast(s: ServerData, ds: seq<Directive>)
    requires ApplyDirectives(s, ds).Ok?
    ensures LastTokens(ds, "root").None? ==> ApplyDirectives(s, ds).value.root == s.root
    ensures LastTokens(ds, "root").Some? ==> RootOf(LastTokens(ds, "root").value) == Some(ApplyDirectives(s, ds).value.root)
    decreases |ds|
  {
    if ds != [] {
      LastTokensCons(ds, "root");
      ServerRootIsLast(DirectiveStep(s, ds[0].0, ds[0].1).value, ds[1..]);
    }
  }

  /** The port is the first token of the last `listen` directive; without one it stays as it was. */
  lemma {:induction false} PortIsLast(s: ServerData, ds: seq<Directive>)
    requires ApplyDirectives(s, ds).Ok?
    ensures LastTokens(ds, "listen").None? ==> ApplyDirectives(s, ds).value.port == s.port
    ensures LastTokens(ds, "listen").Some? ==>
              |LastTokens(ds, "listen").value| > 0 &&
              ParseU16(LastTokens(ds, "listen").value[0]) == Ok(ApplyDirectives(s, ds).value.port)
    decreases |ds|
  {
    if ds != [] {
      LastTokensCons(ds, "listen");
      PortIsLast(DirectiveStep(s, ds[0].0, ds[0].1).value, ds[1..]);
    }
  }

  /** The name is the single token of the last `server_name` directive; without one it stays as it was. */
  lemma {:induction false} NameIsLast(s: ServerData, ds: seq<Directive>)
    requires ApplyDirectives(s, ds).Ok?
    ensures LastTokens(ds, "server_name").None? ==> ApplyDirectives(s, ds).value.name == s.name
    ensures LastTokens(ds, "server_name").Some? ==>
              |LastTokens(ds, "server_name").value| == 1 &&
              ApplyDirectives(s, ds).value.name == Some(LastTokens(ds, "server_name").value[0])
    decreases |ds|
  {
    if ds != [] {
      LastTokensCons(ds, "server_name");
      NameIsLast(DirectiveStep(s, ds[0].0, ds[0].1).value, ds[1..]);
    }
  }

  /** The default flag is only ever set: it is on iff it was, or some `listen` has "default" as its second of two tokens. */
  lemma {:induction false} DefaultNeverReset(s: ServerData, ds: seq<Directive>)
    requires ApplyDirectives(s, ds).Ok?
    ensures ApplyDirectives(s, ds).value.isDefault <==>
              s.isDefault || exists i :: 0 <= i < |ds| && ds[i].0 == "listen" && |ds[i].1| == 2 && ds[i].1[1] == "default"
    decreases |ds|
  {
    if ds != [] {
      DefaultNeverReset(DirectiveStep(s, ds[0].0, ds[0].1).value, ds[1..]);
      assert forall i :: 1 <= i < |ds| ==> ds[i] == ds[1..][i - 1];
    }
  }

  /** An unrecognised directive is kept verbatim under its name, the last one winning. */
  lemma {:induction false} ServerInfosLastWins(s: ServerData, ds: seq<Directive>, name: string)
    requires !IsServerDirective(name)
    requires ApplyDirectives(s, ds).Ok?
    ensures Lookup(ApplyDirectives(s, ds).value.infos, name) ==
              if LastTokens(ds, name).Some? then LastTokens(ds, name) else Lookup(s.infos, name)
    decreases |ds|
  {
    if ds != [] {
      LastTokensCons(ds, name);
      ServerInfosLastWins(DirectiveStep(s, ds[0].0, ds[0].1).value, ds[1..], name);
    }
  }

  /** The paths the location blocks are stored under. */
  function PathsOf(ls: seq<(string, LocationBlock)>): set<string>
  {
    set i | 0 <= i < |ls| :: ls[i].1.path
  }

  /** The stored location of a path is the one built from the last block with that path. */
  lemma {:induction false} LocationsLastWins(s: ServerData, ls: seq<(string, LocationBlock)>, i: nat)
    requires ApplyLocations(s, ls).Ok?
    requires i < |ls| && forall j :: i < j < |ls| ==> ls[j].1.path != ls[i].1.path
    ensures ls[i].1.path in ApplyLocations(s, ls).value.locations
    ensures BuildLocation(ls[i].1) == Ok(ApplyLocations(s, ls).value.locations[ls[i].1.path])
    decreases |ls|
  {
    var next := LocationStep(s, ls[0].1).value;
    var rest := ls[1..];
    if i == 0 {
      forall k | 0 <= k < |rest| ensures rest[k].1.path != ls[0].1.path {
        assert rest[k] == ls[k + 1];
      }
      LocationsUntouched(next, rest, ls[0].1.path);
    } else {
      assert rest[i - 1] == ls[i];
      forall j | i - 1 < j < |rest| ensures rest[j].1.path != rest[i - 1].1.path {
        assert rest[j] == ls[j + 1];
      }
      LocationsLastWins(next, rest, i - 1);
    }
  }

  /** A path no block names keeps the location stored under it. */
  lemma {:induction false} LocationsUntouched(s: ServerData, ls: seq<(string, LocationBlock)>, p: string)
    requires ApplyLocations(s, ls).Ok?
    requires p in s.locations && forall k :: 0 <= k < |ls| ==> ls[k].1.path != p
    ensures p in ApplyLocations(s, ls).value.locations
    ensures ApplyLocations(s, ls).value.locations[p] == s.locations[p]
    decreases |ls|
  {
    if ls != [] {
      var next := LocationStep(s, ls[0].1).value;
      assert forall k :: 0 <= k < |ls[1..]| ==> ls[1..][k] == ls[k + 1];
      LocationsUntouched(next, ls[1..], p);
    }
  }

  /** A server of the earlier draft, its fields updated in place by its directives and locations. */
  class Server {
    var port: u16
    var isDefault: bool
    var root: Option<string>
    var name: Option<string>
    var infos: map<string, seq<string>>
    var locations: map<string, Location>
    var cgi: map<string, string>

    function Snapshot(): ServerData
      reads this
    {
      ServerData(port, isDefault, root, name, infos, locations, cgi)
    }

    /** The struct literal `Server::new` starts from. */
    constructor ()
      ensures Snapshot() == EmptyServer
    {
      port := 0;
      isDefault := false;
      root := None;
      name := None;
      infos := map[];
      locations := map[];
      cgi := map[];
    }

    /** `add_directive`. */
    method AddDirective(directive: string, tokens: seq<string>) returns (r: Result<(), string>)
      modifies this
      ensures r.Ok? <==> DirectiveStep(old(Snapshot()), directive, tokens).Ok?
      ensures r.Ok? ==> Snapshot() == DirectiveStep(old(Snapshot()), directive, tokens).value
      ensures r.Err? ==> Snapshot() == old(Snapshot()) && DirectiveStep(old(Snapshot()), directive, tokens) == Err(r.error)
    {
      if directive == "root" {
        if tokens == [] {
          root := None;
        } else if |tokens| > 1 {
          return Err("invalid field: root");
        } else {
          root := Some(tokens[0]);
        }
      } else if directive == "listen" {
        if tokens == [] || |tokens| > 2 {
          return Err("invalid field: listen");
        }
        var parsed := ParseU16(tokens[0]);
        if parsed.Err? {
          return Err("invalid field: listen (0 <= port <= 65535)");
        }
        port := parsed.value;
        if |tokens| == 2 && tokens[1] == "default" {
          isDefault := true;
        }
      } else if directive == "server_name" {
        if |tokens| != 1 {
          return Err("invalid field: server_name");
        }
        name := Some(tokens[0]);
      } else {
        infos := infos[directive := tokens];
      }
      r := Ok(());
    }

    /** `add_location`. */
    method AddLocation(block: LocationBlock) returns (r: Result<(), string>)
      modifies this
      ensures r.Ok? <==> LocationStep(old(Snapshot()), block).Ok?
      ensures r.Ok? ==> Snapshot() == LocationStep(old(Snapshot()), block).value
      ensures r.Err? ==> Snapshot() == old(Snapshot()) && LocationStep(old(Snapshot()), block) == Err(r.error)
    {
      var loc :- NewLocation(block);
      locations := locations[loc.path := loc];
      r := Ok(());
    }

    /** `Server::new`. */
    static method New(config: ServerBlock) returns (r: Result<Server, string>)
      ensures r.Ok? <==> BuildServer(config).Ok?
      ensures r.Ok? ==> fresh(r.value) && r.value.Snapshot() == BuildServer(config).value
      ensures r.Err? ==> BuildServer(config) == Err(r.error)
    {
      var serv := new Server();
      var i := 0;
      while i < |config.directives|
        invariant 0 <= i <= |config.directives|
        invariant fresh(serv)
        invariant ApplyDirectives(serv.Snapshot(), config.directives[i..]) == ApplyDirectives(EmptyServer, config.directives)
        decreases |config.directives| - i
      {
        assert config.directives[i..][1..] == config.directives[i + 1..];
        var added := serv.AddDirective(config.directives[i].0, config.directives[i].1);
        if added.Err? {
          return Err(added.error);
        }
        i := i + 1;
      }
      ghost var directed := serv.Snapshot();
      i := 0;
      while i < |config.locations|
        invariant 0 <= i <= |config.locations|
        invariant fresh(serv)
        invariant ApplyLocations(serv.Snapshot(), config.locations[i..]) == ApplyLocations(directed, config.locations)
        decreases |config.locations| - i
      {
        assert config.locations[i..][1..] == config.locations[i + 1..];
        var added := serv.AddLocation(config.locations[i].1);
        if added.Err? {
          return Err(added.error);
        }
        i := i + 1;
      }
      serv.cgi := config.cgi;
      return Ok(serv);
    }
  }
}
