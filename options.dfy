/** The startup step that turns the parsed command-line options into the
    server's configuration, in place on the options object: the `tls` flag
    becomes a protocol, `servn` (the positional document root) becomes
    `docroot`, and the TLS key and certificate, the index page and the extra
    watch paths are resolved to absolute paths. */
module Options {
  import opened Wrappers
  import opened Paths

  /** An option value as the option parser or the environment hands it over. */
  datatype Value = Str(s: string) | Num(n: int) | Bool(b: bool)

  /** JavaScript truthiness of a present option value. */
  predicate Truthy(v: Value)
  {
    match v
    case Str(s) => s != ""
    case Num(n) => n != 0
    case Bool(b) => b
  }

  /** `opts.tls ? 'https' : 'http'`, where a deleted or missing option is
      `undefined` and so falsy. */
  function ProtocolFor(tls: Option<Value>): (r: string)
    ensures r == "https" || r == "http"
    ensures r == "https" <==> tls.Some? && Truthy(tls.value)
  {
    if tls.Some? && Truthy(tls.value) then "https" else "http"
  }

  /** `watchers.map(w => path.resolve(w))`: same number, same order, each
      the normalised absolute path it names from the working directory. */
  function ResolveEach(cwd: string, ws: seq<string>): (r: seq<string>)
    ensures |r| == |ws|
    ensures forall i :: 0 <= i < |ws| ==> r[i] == ResolveFrom(cwd, ws[i]) && IsNormal(r[i])
  {
    if ws == [] then []
    else
      ResolveIsNormal(cwd, "", ws[0]);
      [ResolveFrom(cwd, ws[0])] + ResolveEach(cwd, ws[1..])
  }

  /** The options object. Every declared option has a default, so the
      parser always fills the string-valued ones; the startup step deletes
      `tls`, `_` (here `rest`) and `servn`, an absent property being
      `None`, and adds `protocol` and `docroot`. */
  class Opts {
    var servn: Option<string>
    var tls: Option<Value>
    var rest: Option<seq<string>>
    var protocol: Option<string>
    var docroot: Option<string>
    var host: string
    var port: nat
    var file: string
    var entry: string
    var dir: string
    var key: string
    var cert: string
    var index: string
    var watchers: seq<string>

    /** The object as the option parser returns it. */
    constructor (servn: string, tls: Option<Value>, rest: seq<string>, host: string, port: nat,
                 file: string, entry: string, dir: string, key: string, cert: string,
                 index: string, watchers: seq<string>)
      ensures this.servn == Some(servn) && this.tls == tls && this.rest == Some(rest)
      ensures protocol == None && docroot == None
      ensures this.host == host && this.port == port && this.file == file && this.entry == entry
      ensures this.dir == dir && this.key == key && this.cert == cert && this.index == index
      ensures this.watchers == watchers
    {
      this.servn, this.tls, this.rest := Some(servn), tls, Some(rest);
      protocol, docroot := None, None;
      this.host, this.port, this.file, this.entry := host, port, file, entry;
      this.dir, this.key, this.cert, this.index := dir, key, cert, index;
      this.watchers := watchers;
    }

    /** The startup step, in the order the server performs it: rename the
        `tls`, `_` and `servn` options, then resolve the paths. */
    method Finalize(cwd: string)
      requires servn.Some?
      modifies this`protocol, this`tls, this`rest, this`docroot, this`servn
      modifies this`key, this`cert, this`index, this`watchers
      ensures protocol == Some(ProtocolFor(old(tls)))
      ensures tls == None && rest == None && servn == None
      ensures docroot == old(servn)
      ensures key == Resolve(cwd, dir, old(key)) && IsNormal(key)
      ensures cert == Resolve(cwd, dir, old(cert)) && IsNormal(cert)
      ensures index == Resolve(cwd, old(servn).value, old(index)) && IsNormal(index)
      ensures IsName(old(key)) ==> key == Child(ResolveFrom(cwd, dir), old(key))
      ensures IsName(old(cert)) ==> cert == Child(ResolveFrom(cwd, dir), old(cert))
      ensures IsName(old(index)) ==> index == Child(ResolveFrom(cwd, old(servn).value), old(index))
      ensures watchers == ResolveEach(cwd, old(watchers))
    {
      Rename();
      ResolvePaths(cwd);
      watchers := ResolveEach(cwd, watchers);
    }

    /** Lines 50-54 of the startup code: `protocol` takes the place of
        `tls`, `docroot` that of `servn`, and `_` is dropped. */
    method Rename()
      requires servn.Some?
      modifies this`protocol, this`tls, this`rest, this`docroot, this`servn
      ensures protocol == Some(ProtocolFor(old(tls)))
      ensures tls == None && rest == None && servn == None
      ensures docroot == old(servn)
    {
      protocol := Some(if tls.Some? && Truthy(tls.value) then "https" else "http");
      tls := None;
      rest := None;
      docroot := servn;
      servn := None;
    }

    /** Lines 55-57 of the startup code: the key and certificate are taken
        against `dir`, the index page against the document root. */
    method ResolvePaths(cwd: string)
      requires docroot.Some?
      modifies this`key, this`cert, this`index
      ensures key == Resolve(cwd, dir, old(key)) && IsNormal(key)
      ensures cert == Resolve(cwd, dir, old(cert)) && IsNormal(cert)
      ensures index == Resolve(cwd, docroot.value, old(index)) && IsNormal(index)
      ensures IsName(old(key)) ==> key == Child(ResolveFrom(cwd, dir), old(key))
      ensures IsName(old(cert)) ==> cert == Child(ResolveFrom(cwd, dir), old(cert))
      ensures IsName(old(index)) ==> index == Child(ResolveFrom(cwd, docroot.value), old(index))
    {
      ResolveIsNormal(cwd, dir, key);
      if IsName(key) { ResolveName(cwd, dir, key); }
      key := Resolve(cwd, dir, key);
      ResolveIsNormal(cwd, dir, cert);
      if IsName(cert) { ResolveName(cwd, dir, cert); }
      cert := Resolve(cwd, dir, cert);
      ResolveIsNormal(cwd, docroot.value, index);
      if IsName(index) { ResolveName(cwd, docroot.value, index); }
      index := Resolve(cwd, docroot.value, index);
    }
  }
}
