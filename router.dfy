/** The request handler: `/bundle.js` is answered with the bundle, any
    other URL is mapped to a path under the document root and answered
    with 404 when nothing is there, with the directory's index file when
    it is a directory, with 500 when reading fails, and otherwise with the
    file and the content type of its extension. */
module Router {
  import opened Wrappers
  import opened Paths
  import opened Encoding
  import opened Mime
  import opened Url

  /** What the file system holds at a path. */
  datatype Node = File(data: seq<byte>) | Dir

  /** The file system, keyed by normalised absolute paths: the operating
      system reads `//a/./b` as `/a/b`, so every lookup normalises first. */
  type FileSystem = map<string, Node>

  /** `fs.existsSync(p)` and `fs.statSync(p)` in one. */
  function Stat(fs: FileSystem, p: string): Option<Node>
  {
    var q := Normalize(p);
    if q in fs then Some(fs[q]) else None
  }

  /** Why `fs.readFile` fails. */
  datatype FsError = NoEntry(path: string) | IsDirectory

  /** `fs.readFile(p)`: the contents of a file, an error otherwise. */
  function ReadFile(fs: FileSystem, p: string): (r: Result<seq<byte>, FsError>)
    ensures r.Ok? <==> Stat(fs, p).Some? && Stat(fs, p).value.File?
    ensures r.Ok? ==> r.value == Stat(fs, p).value.data
    ensures r == Err(NoEntry(p)) <==> Stat(fs, p).None?
  {
    match Stat(fs, p)
    case None => Err(NoEntry(p))
    case Some(Dir) => Err(IsDirectory)
    case Some(File(data)) => Ok(data)
  }

  /** `${err}` for the error `fs.readFile` reports. */
  function ErrorText(e: FsError): string
  {
    match e
    case NoEntry(p) => "Error: ENOENT: no such file or directory, open '" + p + "'"
    case IsDirectory => "Error: EISDIR: illegal operation on a directory, read"
  }

  /** `path.parse(p).ext || '.html'`. */
  function ExtOrHtml(p: string): string
  {
    var e := Ext(p);
    if e == "" then ".html" else e
  }

  /** The extension used for a request is a `.` followed by text holding
      neither `.` nor `/`; it is `.html` for a path whose last name has no
      extension. */
  lemma {:induction false} ExtOrHtmlSpec(p: string)
    ensures var e := ExtOrHtml(p);
      && |e| >= 1 && e[0] == '.' && '.' !in e[1..] && '/' !in e
      && (Ext(p) == "" ==> e == ".html")
  {
    ExtShape(p);
    assert ".html"[0] == '.' && ".html"[1..] == "html";
  }

  /** The name of a directory's index file, `index` plus the extension. */
  function IndexName(ext: string): string
  {
    "index" + ext
  }

  /** The index file of a directory is a plain name inside it. */
  lemma {:induction false} IndexFile(pathname: string)
    requires IsNormal(pathname)
    ensures IsName(IndexName(ExtOrHtml(pathname)))
    ensures Normalize(pathname + "/index" + ExtOrHtml(pathname))
         == Child(pathname, IndexName(ExtOrHtml(pathname)))
  {
    var ext := ExtOrHtml(pathname);
    ExtOrHtmlSpec(pathname);
    var name := IndexName(ext);
    assert name[0] == 'i' && name[5..] == ext;
    assert '/' !in name by {
      forall i | 0 <= i < |name| ensures name[i] != '/' {
        if i >= 5 { assert name[i] == ext[i - 5]; }
      }
    }
    assert pathname + "/index" + ext == pathname + "/" + name;
    NormalizeChild(pathname, name);
  }

  /** The body of a 500. */
  function ErrorBody(e: FsError): string
  {
    "Error getting the file: " + ErrorText(e) + "."
  }

  const BundleUrl := "/bundle.js"
  const BundleType := "application/javascript"

  /** Header names as Node keeps them: lower-cased. */
  const ContentTypeHeader := "content-type"

  /** What `res.end` is given: a string, which goes out UTF-8 encoded, the
      bytes of a file or of the bundle, or the fixed not-found page. */
  datatype Chunk = Text(text: string) | Bytes(bytes: seq<byte>) | NotFoundPage

  /** The page sent with a 404, piece by piece: head, style sheet, body. */
  const NotFoundHtml := PageHead + PageStyleReset + PageStyleHtml + PageStyleBody + PageStyleText + PageStyleNarrow + PageBody
  const PageHead := "<!doctype html><html lang=\"en\"><head><meta charset=\"utf-8\"><title>Page Not Found</title> <meta name=\"viewport\" content=\"width=device-width, initial-scale=1\">"
  const PageStyleReset := "<style>*{line-height: 1.2; margin: 0;}"
  const PageStyleHtml := "html{color: #888; display: table; font-family: sans-serif; height: 100%; text-align: center; width: 100%;}"
  const PageStyleBody := "body{display: table-cell; vertical-align: middle; margin: 2em auto;}"
  const PageStyleText := "h1{color: #555; font-size: 2em; font-weight: 400;}p{margin: 0 auto; width: 280px;}"
  const PageStyleNarrow := "@media only screen and (max-width: 280px){body, p{width: 95%;}h1{font-size: 1.5em; margin: 0 0 0.3em;}}"
  const PageBody := "</style></head><body><h1>Page Not Found</h1><p>Sorry, but the page you were trying to view does not exist.</p></body></html>"

  /** The bytes a chunk puts on the wire. */
  function Wire(c: Chunk): (r: seq<byte>)
    ensures c.Bytes? ==> r == c.bytes
    ensures c.Text? && IsAscii(c.text) ==> |r| == |c.text|
  {
    match c
    case Text(s) => Utf8(s)
    case Bytes(b) => b
    case NotFoundPage => Utf8(NotFoundHtml)
  }

  /** A complete response: status, headers by lower-cased name, body. */
  datatype Response = Response(status: int, headers: map<string, string>, body: Chunk)

  /** The response to a request for `url`, with `bundle` the bytes the
      bundler produces. */
  function Route(cwd: string, docroot: string, fs: FileSystem, bundle: seq<byte>, url: string): Response
  {
    var pathname := RequestPath(cwd, docroot, url);
    var ext := ExtOrHtml(pathname);
    if url == BundleUrl then Response(200, map[ContentTypeHeader := BundleType], Bytes(bundle))
    else ServeFile(fs, pathname, ext)
  }

  /** The response for the file system entry at `pathname`, labelled by
      `ext`. */
  function ServeFile(fs: FileSystem, pathname: string, ext: string): Response
  {
    match Stat(fs, pathname)
    case None => Response(404, map[], NotFoundPage)
    case Some(node) =>
      var target := if node.Dir? then pathname + "/index" + ext else pathname;
      match ReadFile(fs, target)
      case Err(e) => Response(500, map[], Text(ErrorBody(e)))
      case Ok(data) => Response(200, map[ContentTypeHeader := ContentType(ext)], Bytes(data))
  }

  /** Every answer is 200, 404 or 500, and only a 200 carries a content type. */
  lemma {:induction false} RouteStatus(cwd: string, docroot: string, fs: FileSystem, bundle: seq<byte>, url: string)
    ensures var r := Route(cwd, docroot, fs, bundle, url);
      && (r.status == 200 || r.status == 404 || r.status == 500)
      && (r.status == 200 <==> ContentTypeHeader in r.headers)
      && r.headers.Keys <= {ContentTypeHeader}
  {
  }

  /** The bundle is served, byte for byte, for the exact URL `/bundle.js`
      (a query string makes it an ordinary file request), and it is the only response
      labelled `application/javascript`. */
  lemma {:induction false} RouteBundle(cwd: string, docroot: string, fs: FileSystem, bundle: seq<byte>, url: string)
    ensures var r := Route(cwd, docroot, fs, bundle, url);
      && (url == BundleUrl ==> r.status == 200 && r.body == Bytes(bundle) && Wire(r.body) == bundle)
      && (ContentTypeHeader in r.headers && r.headers[ContentTypeHeader] == BundleType <==> url == BundleUrl)
  {
    NoFileIsApplicationJavascript(ExtOrHtml(RequestPath(cwd, docroot, url)));
  }

  /** 404 exactly when the URL is not the bundle's and nothing exists at
      its path, with the not-found page as the body. */
  lemma {:induction false} RouteNotFound(cwd: string, docroot: string, fs: FileSystem, bundle: seq<byte>, url: string)
    ensures var r := Route(cwd, docroot, fs, bundle, url);
      && (r.status == 404 <==> url != BundleUrl && Stat(fs, RequestPath(cwd, docroot, url)).None?)
      && (r.status == 404 ==> r.body == NotFoundPage && r.headers == map[])
  {
  }

  /** A file is served as it is, byte for byte, labelled by its extension. */
  lemma {:induction false} RouteFile(cwd: string, docroot: string, fs: FileSystem, bundle: seq<byte>, url: string)
    requires url != BundleUrl
    requires Stat(fs, RequestPath(cwd, docroot, url)).Some?
    requires Stat(fs, RequestPath(cwd, docroot, url)).value.File?
    ensures var pathname := RequestPath(cwd, docroot, url);
      var r := Route(cwd, docroot, fs, bundle, url);
      && r.status == 200
      && r.body == Bytes(Stat(fs, pathname).value.data)
      && Wire(r.body) == Stat(fs, pathname).value.data
      && r.headers == map[ContentTypeHeader := ContentType(ExtOrHtml(pathname))]
  {
  }

  /** A directory is answered from its index file, `index` plus the
      directory's own extension (`.html` when it has none): the file's
      contents when it exists, 500 with the error text otherwise. */
  lemma {:induction false} RouteDirectory(cwd: string, docroot: string, fs: FileSystem, bundle: seq<byte>, url: string)
    requires url != BundleUrl
    requires Stat(fs, RequestPath(cwd, docroot, url)) == Some(Dir)
    ensures var pathname := RequestPath(cwd, docroot, url);
      var ext := ExtOrHtml(pathname);
      var index := Child(pathname, IndexName(ext));
      var r := Route(cwd, docroot, fs, bundle, url);
      && (index in fs && fs[index].File? ==>
            r.status == 200 && r.body == Bytes(fs[index].data)
            && r.headers == map[ContentTypeHeader := ContentType(ext)])
      && (index !in fs ==>
            r.status == 500
            && r.body == Text(ErrorBody(NoEntry(pathname + "/index" + ext))))
      && (index in fs && fs[index].Dir? ==>
            r.status == 500 && r.body == Text(ErrorBody(IsDirectory)))
  {
    var pathname := RequestPath(cwd, docroot, url);
    RequestPathIsNormal(cwd, docroot, url);
    IndexFile(pathname);
  }

  /** The site root, with or without a query, of a document root whose
      own name has no extension is answered from `index.html` in it, as
      `text/html`. */
  lemma {:induction false} RouteRoot(cwd: string, docroot: string, fs: FileSystem, bundle: seq<byte>, url: string)
    requires UrlPathname(url) == "/"
    requires Stat(fs, ResolveFrom(cwd, docroot)) == Some(Dir)
    requires Ext(ResolveFrom(cwd, docroot)) == ""
    ensures var index := Child(ResolveFrom(cwd, docroot), IndexName(".html"));
      var r := Route(cwd, docroot, fs, bundle, url);
      && (index in fs && fs[index].File? ==>
            r.status == 200 && r.body == Bytes(fs[index].data)
            && r.headers == map[ContentTypeHeader := ContentType(".html")])
      && (index !in fs ==> r.status == 500)
  {
    var root := ResolveFrom(cwd, docroot);
    assert RequestPath(cwd, docroot, url) == root by { RootRequest(cwd, docroot, url); }
    assert ExtOrHtml(root) == ".html" by { ExtOrHtmlSpec(root); }
    RootIsNotBundle(url);
    RouteDirectory(cwd, docroot, fs, bundle, url);
  }

  /** ASCII lower case: Node files header names case-insensitively. */
  function LowerChar(c: char): char
  {
    if 'A' <= c <= 'Z' then (c as int - 'A' as int + 'a' as int) as char else c
  }

  function Lower(s: string): (r: string)
  {
    seq(|s|, i requires 0 <= i < |s| => LowerChar(s[i]))
  }

  /** Both spellings of the header the handler sets name the same header. */
  lemma {:induction false} HeaderNames()
    ensures Lower("content-type") == ContentTypeHeader
    ensures Lower("Content-type") == ContentTypeHeader
  {
    assert forall i :: 0 <= i < |ContentTypeHeader| ==> Lower("content-type")[i] == ContentTypeHeader[i];
    assert forall i :: 0 <= i < |ContentTypeHeader| ==> Lower("Content-type")[i] == ContentTypeHeader[i];
  }

  /** The response object the handler writes to. */
  class ServerResponse {
    var statusCode: int
    var headers: map<string, string>
    /** What `end` was given; `None` while the response is still open. */
    var body: Option<Chunk>

    constructor ()
      ensures statusCode == 200 && headers == map[] && body == None
    {
      statusCode := 200;
      headers := map[];
      body := None;
    }

    /** `res.setHeader(name, value)`; headers can no longer change once
        the response has ended. */
    method SetHeader(name: string, value: string)
      requires body.None?
      modifies this`headers
      ensures headers == old(headers)[Lower(name) := value]
    {
      headers := headers[Lower(name) := value];
    }

    /** `res.end(chunk)`. */
    method End(chunk: Chunk)
      requires body.None?
      modifies this`body
      ensures body == Some(chunk)
    {
      body := Some(chunk);
    }
  }

  /** The request listener: it fills a fresh response exactly as `Route`
      describes, and always ends it. */
  method HandleRequest(cwd: string, docroot: string, fs: FileSystem, bundle: seq<byte>, url: string,
                       res: ServerResponse)
    requires res.statusCode == 200 && res.headers == map[] && res.body.None?
    modifies res
    ensures res.body.Some?
    ensures Response(res.statusCode, res.headers, res.body.value) == Route(cwd, docroot, fs, bundle, url)
  {
    var pathname := RequestPath(cwd, docroot, url);
    var ext := ExtOrHtml(pathname);
    if url == BundleUrl {
      ServeBundle(res, bundle);
      return;
    }
    Serve(res, fs, pathname, ext);
  }

  /** The `/bundle.js` branch: the content type, then the bundle piped in. */
  method ServeBundle(res: ServerResponse, bundle: seq<byte>)
    requires res.statusCode == 200 && res.headers == map[] && res.body.None?
    modifies res
    ensures res.statusCode == 200 && res.headers == map[ContentTypeHeader := BundleType]
    ensures res.body == Some(Bytes(bundle))
  {
    HeaderNames();
    res.SetHeader("content-type", BundleType);
    res.End(Bytes(bundle));
  }

  /** The part of the listener after the bundle check: 404, or the file
      (for a directory, its index file) read and handed to the callback. */
  method Serve(res: ServerResponse, fs: FileSystem, pathname: string, ext: string)
    requires res.statusCode == 200 && res.headers == map[] && res.body.None?
    modifies res
    ensures res.body.Some?
    ensures Response(res.statusCode, res.headers, res.body.value) == ServeFile(fs, pathname, ext)
  {
    var target := pathname;
    var node := Stat(fs, target);
    if node.None? {
      res.statusCode := 404;
      res.End(NotFoundPage);
      return;
    }
    if node.value.Dir? {
      target := target + "/index" + ext;
    }
    var contents := ReadFile(fs, target);
    FileRead(res, contents, ext);
  }

  /** The callback `fs.readFile` calls with its outcome: 500 with the
      error text, or the contents labelled by the extension. */
  method FileRead(res: ServerResponse, contents: Result<seq<byte>, FsError>, ext: string)
    requires res.statusCode == 200 && res.headers == map[] && res.body.None?
    modifies res
    ensures contents.Err? ==>
      res.statusCode == 500 && res.headers == map[] && res.body == Some(Text(ErrorBody(contents.error)))
    ensures contents.Ok? ==>
      && res.statusCode == 200 && res.headers == map[ContentTypeHeader := ContentType(ext)]
      && res.body == Some(Bytes(contents.value))
  {
    if contents.Err? {
      res.statusCode := 500;
      res.End(Text(ErrorBody(contents.error)));
    } else {
      HeaderNames();
      res.SetHeader("Content-type", ContentType(ext));
      res.End(Bytes(contents.value));
    }
  }
}
