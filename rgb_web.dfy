/**
 * The static-file part of the RGB LED controller's web server
 * (commande_led_rgb/software/src/web/web_server.cpp): its own copy of the
 * content-type chain and of the file lookup, with the flash file system
 * given as the set of existing paths.
 */
module RgbWeb {
  import opened Wrappers
  import opened CStrings
  import MimeTypes

  /** `getContentType`, the if-chain as written. */
  function ContentType(filename: string, download: bool): (r: string)
    ensures r == MimeTypes.OCTET_STREAM <==> download
  {
    if download then "application/octet-stream"
    else if EndsWith(filename, ".htm") then "text/html"
    else if EndsWith(filename, ".html") then "text/html"
    else if EndsWith(filename, ".css") then "text/css"
    else if EndsWith(filename, ".js") then "application/javascript"
    else if EndsWith(filename, ".png") then "image/png"
    else if EndsWith(filename, ".gif") then "image/gif"
    else if EndsWith(filename, ".jpg") then "image/jpeg"
    else if EndsWith(filename, ".ico") then "image/x-icon"
    else if EndsWith(filename, ".xml") then "text/xml"
    else if EndsWith(filename, ".pdf") then "application/x-pdf"
    else if EndsWith(filename, ".zip") then "application/x-zip"
    else if EndsWith(filename, ".gz") then "application/x-gzip"
    else "text/plain"
  }

  /**
   * The chain gives the type the suffix table calls for, for every name: the
   * `download` argument first, then the first suffix that matches, then
   * plain text.
   */
  lemma ContentTypeFollowsTable(filename: string, download: bool)
    ensures ContentType(filename, download) == MimeTypes.TypeFor(filename, download)
  {
    MimeTypes.Step(filename, 0); MimeTypes.Step(filename, 1); MimeTypes.Step(filename, 2);
    MimeTypes.Step(filename, 3); MimeTypes.Step(filename, 4); MimeTypes.Step(filename, 5);
    MimeTypes.Step(filename, 6); MimeTypes.Step(filename, 7); MimeTypes.Step(filename, 8);
    MimeTypes.Step(filename, 9); MimeTypes.Step(filename, 10); MimeTypes.Step(filename, 11);
    MimeTypes.Step(filename, 12);
  }

  /** The path `handle_file_read` looks up: a path ending in `/` gets `index.html` appended. */
  function IndexPath(path: string): (p: string)
    ensures EndsWith(path, "/") ==> |p| == |path| + 10 && p[..|path|] == path && EndsWith(p, "/index.html")
    ensures !EndsWith(path, "/") ==> p == path
    ensures !EndsWith(p, "/")
  {
    if EndsWith(path, "/") then
      var p := path + "index.html";
      assert p[|p| - 1] == 'l';
      p
    else path
  }

  /** Rewriting an already rewritten path changes nothing. */
  lemma IndexPathIdempotent(path: string)
    ensures IndexPath(IndexPath(path)) == IndexPath(path)
  {
  }

  /**
   * `handle_file_read`: `Some` with the content type exactly when the
   * rewritten path exists; otherwise nothing is streamed.
   */
  function FileRead(path: string, download: bool, files: set<string>): (r: Option<(string, string)>)
    ensures r.Some? <==> IndexPath(path) in files
    ensures r.Some? ==> r.value == (IndexPath(path), MimeTypes.TypeFor(IndexPath(path), download))
  {
    var p := IndexPath(path);
    var contentType := ContentType(p, download);
    ContentTypeFollowsTable(p, download);
    if p in files then Some((p, contentType)) else None
  }
}
