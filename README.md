# servn: a Dafny model of the live-reload development server

servn serves a document root over HTTP or HTTPS. It answers
`/bundle.js` with a browserify bundle of an entry module, into which a
small socket.io client is injected so that the page reloads whenever the
bundle is rebuilt.

This project models the server's core: the startup step that turns the
parsed options into the configuration, the watch set handed to the
bundler, the table of content types, the transform that injects the
reload client into the entry module, the mapping from a request URL to a
path, and the request handler.

The modules follow the program's pieces:

- `Options`: the options object, a class whose startup method renames
  `tls`, `_` and `servn` and resolves the key, the certificate, the index
  page and the extra watch paths.
- `Watch`: the watch set, the listing of the document root filtered to
  `.js`, `.html` and `.css` names, resolved, without the entry, followed
  by the extra watch paths.
- `Mime`: the content type table and its `text/plain` fallback.
- `Bundle`: the reload snippet and the transform stream, a class whose
  `Write` reports the watch set and prepends the snippet to the entry's
  chunks.
- `Url`: `url.parse(..).pathname` and the three regular-expression
  rewrites that turn a pathname into a relative path.
- `Router`: the response a request gets, as a function (`Route`) and as
  the handler that fills a response object (`HandleRequest`), proved to
  agree.
- `Paths`, `Text`, `Encoding`, `Wrappers`: the pieces of Node these rely
  on. `Paths` holds `path.resolve` with its normalisation and the `ext` of
  `path.parse`. `Text` holds `split`, `join` and `split(..).pop()`.
  `Encoding` holds UTF-8 and the decimal text of a port.

The working directory, the document root's listing, the file system and
the bytes the bundler produces are parameters. The file system is a map
from normalised absolute paths to files and directories.

## Model

| member | source | states |
|---|---|---|
| Options.ProtocolFor | servn.js:50 | the protocol is `https` exactly when `tls` is present and truthy, `http` otherwise |
| Options.ResolveEach | servn.js:58 | each extra watch path becomes its `path.resolve`, normalised, same number and order |
| Options.Opts.constructor | servn.js:46 | the options object as parsed: `servn` and `_` present, `tls` as parsed (possibly absent), no `protocol` or `docroot` yet |
| Options.Opts.Finalize | servn.js:50-58 | the new state: `protocol` from the old `tls`; `tls`, `_` and `servn` deleted; `docroot` is the old `servn`; key and cert resolved against `dir`, the index page against the document root, all normalised (a plain name becomes a child of the directory); watchers resolved |
| Options.Opts.Rename | servn.js:50-54 | `protocol` replaces `tls`, `docroot` replaces `servn`, `_` is removed |
| Options.Opts.ResolvePaths | servn.js:55-57 | key and cert are `path.resolve(dir, ..)`, the index is `path.resolve(docroot, ..)`, each normalised and a child of its directory when it is a plain name |
| Watch.WatchedNameIff | servn.js:60 | a name is watched iff it is `js`, `html` or `css` or ends in `.js`, `.html` or `.css` |
| Watch.LastPieceIs | servn.js:60 | `name.split('.').pop()` is the dot-free `e` iff the name is `e` or ends in `.e` |
| Watch.FilterCount | servn.js:60-62 | a filter keeps every copy of a kept element and no copy of a dropped one |
| Watch.FilterAppend | servn.js:60-62 | filtering commutes with concatenation, so order is kept |
| Watch.ListedPathsAppend | servn.js:59-62 | the listing is processed in order: two parts of it contribute their paths one after the other |
| Watch.CandidatesMembers | servn.js:60-61 | a path is a candidate iff it is the resolution of a watched name of the listing |
| Watch.ListedPathsMembers | servn.js:59-62 | a listed path is exactly a resolved watched name that is not the entry |
| Watch.ListedPathsLength | servn.js:62 | no deduplication: the listed paths number the candidates less every copy of the entry |
| Watch.WatchSetSpec | servn.js:59-63 | the watch set is the listed paths, which never hold the entry, followed by the extra paths unchanged and in order |
| Watch.ListedPathsAreChildren | servn.js:61 | for a listing of plain names, each listed path is a child of the resolved document root |
| Mime.ContentType | servn.js:65-78 | the table entry for a listed extension, non-empty; `text/plain` exactly for unlisted ones |
| Mime.TableKeysAreExtensions | servn.js:65-78 | every key is a `.` followed by a dot-free name, the shape `path.parse` gives |
| Mime.NoFileIsApplicationJavascript | servn.js:74 | no extension is labelled `application/javascript`; `.js` files are `text/javascript` |
| Bundle.AddressPort | servn.js:109 | the port is the decimal text after the last `:` of the client's address, and reads back as the port |
| Bundle.SnippetBytes | servn.js:107-113 | the snippet's bytes are its head, the address and its tail, in order, with the address unescaped |
| Bundle.TransformedSpec | servn.js:102-113 | a chunk of another module passes unchanged; a chunk of the entry is the snippet followed by the chunk |
| Bundle.EntryTransform.constructor | servn.js:101-102 | a new stream for one module: nothing emitted or pushed yet |
| Bundle.EntryTransform.Write | servn.js:102-114 | for the entry, one `file` event per watch path in order, then the snippet and the chunk; for another module, the chunk alone |
| Encoding.Utf8Append | servn.js:113 | the UTF-8 bytes of a concatenation are the concatenated bytes |
| Encoding.DecimalString | servn.js:109 | `${port}` is digits only, with no leading zero |
| Encoding.ParseDecimalString | servn.js:154 | `parseInt` reads back the port's decimal text |
| Text.JoinSplit | servn.js:60 | joining the pieces of a split gives back the string |
| Text.SplitJoin | servn.js:60 | splitting a join of separator-free pieces gives back the pieces |
| Text.SplitAppend | servn.js:60 | the pieces of `a + sep + b` are those of `a` followed by those of `b` |
| Text.LastPieceSpec | servn.js:60 | `split(sep).pop()` is the suffix after the last separator and holds none |
| Paths.NormalizeIdempotent | servn.js:55-61 | normalising a normalised path changes nothing |
| Paths.NormalizeSkip | servn.js:129 | an empty or `.` last segment does not change the normalised path |
| Paths.NormalizeChild | servn.js:55-61 | appending a plain name descends into it |
| Paths.ResolveIsNormal | servn.js:55-61 | every `path.resolve` result is normalised |
| Paths.ResolveDot | servn.js:129 | `path.resolve(base, '.')` is `path.resolve(base)` |
| Paths.ResolveName | servn.js:55-61 | `path.resolve(dir, name)` for a plain name is that name inside `path.resolve(dir)` |
| Paths.ResolveDotName | servn.js:129 | `path.resolve(dir, './' + name)` is that name inside `path.resolve(dir)` |
| Paths.ExtOfNameSpec | servn.js:133 | `ext` is empty or a `.` and dot-free text ending the name; it is non-empty iff the name has a `.` after its first character and is not `..` |
| Paths.ExtShape | servn.js:133 | a path's `ext` is empty or a `.` followed by text holding neither `.` nor `/` |
| Url.UrlPathname | servn.js:128 | the pathname is the longest prefix of the URL without `?` or `#` |
| Url.UrlPathnameOf | servn.js:128 | a pathname followed by a query or fragment parses back to that pathname |
| Url.UnescapeUnchanged | servn.js:130 | text without `%2520` is not changed by the replacement |
| Url.UnescapeFree | servn.js:130 | no `%2520` survives the replacement |
| Url.UnescapeIdempotent | servn.js:130 | replacing twice is replacing once |
| Url.UnescapeAt | servn.js:130 | a `%2520` after `%`-free text becomes `%20`, and the rest is rewritten after it |
| Url.DropDots | servn.js:131 | what remains after the leading dots is a suffix that does not start with a dot, all before it dots |
| Url.RelativeRequestPathShape | servn.js:129-132 | the relative path starts with exactly one `.` and holds no `%2520` |
| Url.RelativeRequestPathPlain | servn.js:129-132 | a plain pathname comes out as `.` in front of it, and `/` as `.` |
| Url.RelativeRequestPathTrailing | servn.js:129-132 | one trailing `/` on a plain pathname is dropped |
| Url.RelativeRequestPathEscaped | servn.js:129-132 | the pathname `/a%2520b` comes out as `./a%20b` |
| Url.RequestPath | servn.js:128-132 | the path a request names is absolute |
| Url.RequestPathIsNormal | servn.js:128-132 | the path a request names is normalised |
| Url.RootRequest | servn.js:128-132 | the site root, with or without a query, names the document root |
| Url.RootIsNotBundle | servn.js:134 | a URL whose pathname is `/` is not `/bundle.js` |
| Url.RequestName | servn.js:128-132 | a request for a plain name, with or without a query or fragment, names that file inside the document root |
| Url.RequestEscapedName | servn.js:128-132 | a request for `/a%2520b`, with or without a query or fragment, names the file `a%20b` inside the document root |
| Router.ReadFile | servn.js:143 | the contents exactly for a file; `ENOENT` with the path exactly when nothing is there; otherwise `EISDIR` |
| Router.ExtOrHtmlSpec | servn.js:133 | the request's extension is a `.` and text without `.` or `/`; `.html` when the path has none |
| Router.IndexFile | servn.js:142 | a directory's index file is the plain name `index` plus the extension, inside the directory |
| Router.Wire | servn.js:140-149 | a byte chunk goes out as is; an ASCII text one byte per character (used by `RouteBundle` and `RouteFile`) |
| Router.RouteStatus | servn.js:133-151 | every answer is 200, 404 or 500; a content type is set exactly on a 200 and no other header |
| Router.RouteBundle | servn.js:134-137 | `/bundle.js` gets 200 and the bundle, byte for byte on the wire; `application/javascript` is sent exactly for it |
| Router.RouteNotFound | servn.js:138-141 | 404 exactly when the URL is not the bundle's and nothing is at its path, with the not-found page and no header |
| Router.RouteFile | servn.js:143-149 | a file is served as it is, byte for byte on the wire, with the content type of its extension |
| Router.RouteDirectory | servn.js:142-151 | a directory is answered from `index` plus its extension: the index file, `ENOENT` when missing, `EISDIR` when it is a directory |
| Router.RouteRoot | servn.js:128-149 | the site root of an extensionless document root is answered from its `index.html` as `text/html`, or 500 when missing |
| Router.HeaderNames | servn.js:135-148 | `content-type` and `Content-type` name the same header |
| Router.ServerResponse.constructor | servn.js:126 | a fresh response: status 200, no headers, not ended |
| Router.ServerResponse.SetHeader | servn.js:135-148 | the header is stored under its lower-cased name, the others kept |
| Router.ServerResponse.End | servn.js:140-149 | the response ends with the given chunk |
| Router.HandleRequest | servn.js:126-151 | the handler ends the response, and its status, headers and body are those `Route` gives |
| Router.ServeBundle | servn.js:134-137 | status 200, the JavaScript content type, the bundle as body |
| Router.Serve | servn.js:138-151 | the response is the one `ServeFile` gives for the path and extension |
| Router.FileRead | servn.js:143-150 | on an error, 500 with the error text and no header; otherwise 200, the content type, the contents |

## Left out

- Option parsing, defaults and help (servn.js:13-48): the parsed options
  object is the constructor's input. Values from the environment are not
  modelled.
- Options.Opts.constructor: `port` is a natural number. A port given as
  text (from the `PORT` variable) is not modelled.
- TLS certificate reading and `server.listen` (servn.js:81-88, 154-155):
  I/O. The parse of the port back from its text is stated as
  `Encoding.ParseDecimalString`.
- socket.io, the browserify instance and its `update`, `data` and `end`
  events (servn.js:88-99, 117-124): these are foreign code and events.
  The bundle's bytes are a parameter of `Route`.
- Logging (servn.js:127).
- The directory listing is a parameter. A failing `readdirSync` and the
  order of the listing are left to the operating system.
- Asynchronous callbacks and concurrency: `readFile`'s callback is
  modelled as a call made at once (`FileRead`).
- The resolved index page `opts.index` is computed (`Opts.Finalize`) but
  the request handler does not use it. A directory is served from `index`
  plus the directory's own extension, so a directory whose name has a dot
  gives `index.<ext>`.
- Url.UrlPathname: models only request targets in origin form. `url.parse`'s
  trimming, backslash conversion, escaping of unsafe characters, absolute
  URLs and an empty pathname are left out.
- Router.Stat: the file system is lexical. Symbolic links and permissions
  are left out.
- Path containment: the model does not state that a request path stays
  under the document root.
- Router.ErrorText: renders only the two errors `readFile` can give on
  this file system, `ENOENT` and `EISDIR`.
