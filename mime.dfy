/** The server's table of content types by file extension, and the lookup
    `mimeTypes[ext] || 'text/plain'` that answers a file request. */
module Mime {

  const MimeTypes: map<string, string> := map[
    ".css" := "text/css",
    ".html" := "text/html",
    ".png" := "image/png",
    ".wav" := "audio/wav",
    ".jpg" := "image/jpeg",
    ".mp3" := "audio/mpeg",
    ".ico" := "image/x-icon",
    ".svg" := "image/svg+xml",
    ".js" := "text/javascript",
    ".pdf" := "application/pdf",
    ".json" := "application/json",
    ".doc" := "application/msword"
  ]

  /** The fallback for an extension outside the table. */
  const DefaultType := "text/plain"

  /** The content type sent with a file whose extension is `ext`: the
      table's entry when there is one (every entry is non-empty, so the
      `||` never falls through on a listed extension), `text/plain` otherwise.
      No entry of the table is `text/plain`, so the fallback is returned
      exactly for unlisted extensions. */
  function ContentType(ext: string): (r: string)
    ensures r != ""
    ensures r == DefaultType <==> ext !in MimeTypes
    ensures ext in MimeTypes ==> r == MimeTypes[ext]
  {
    if ext in MimeTypes && MimeTypes[ext] != "" then MimeTypes[ext] else DefaultType
  }

  /** Every key of the table starts with `.` followed by a name, the shape
      of the `ext` that `path.parse` gives, so every entry can be reached. */
  lemma {:induction false} TableKeysAreExtensions()
    ensures forall ext :: ext in MimeTypes ==> |ext| > 1 && ext[0] == '.' && '.' !in ext[1..]
  {
    assert MimeTypes.Keys == {".css", ".html", ".png", ".wav", ".jpg", ".mp3", ".ico",
                              ".svg", ".js", ".pdf", ".json", ".doc"};
  }

  /** No file is ever labelled `application/javascript`: the table labels
      `.js` files `text/javascript`, so that type is the bundle's alone. */
  lemma {:induction false} NoFileIsApplicationJavascript(ext: string)
    ensures ContentType(ext) != "application/javascript"
    ensures ContentType(".js") == "text/javascript"
  {
  }
}
