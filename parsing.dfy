/**
 * The configuration blocks the server is built from. They come from a `Parsing`
 * module that is not part of this model; only their shape is given here, as
 * the two server drafts read it: ordered `(name, tokens)` directives, nested
 * location blocks, and a block-level `cgi` map.
 */
module Parsing {
  import opened Wrappers

  /** One directive: its name and its argument tokens. */
  type Directive = (string, seq<string>)

  datatype LocationBlock = LocationBlock(
    path: string,
    modifier: Option<string>,
    directives: seq<Directive>,
    cgi: map<string, string>)

  datatype ServerBlock = ServerBlock(
    directives: seq<Directive>,
    locations: seq<(string, LocationBlock)>,
    cgi: map<string, string>)

  /** The filesystem facts the validators consult: which paths are directories and which are files. */
  datatype FileSystem = FileSystem(dirs: set<string>, files: set<string>)
  {
    predicate IsDir(path: string) { path in dirs }
    predicate IsFile(path: string) { path in files }
  }
}
