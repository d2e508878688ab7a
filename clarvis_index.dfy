/**
 * The Clarvis server's static file handler (`serveStatic` in
 * clarvis/server/index.js). The filesystem is given as two predicates over
 * full paths: whether a path exists and whether reading it succeeds;
 * `path.join` with the public directory is a parameter too.
 */
module ClarvisIndex {
  import opened Util

  datatype Response =
    | Forbidden                                    // 403
    | NotFound                                     // 404
    | ServerError                                  // 500
    | Served(fullPath: string, contentType: string) // 200 with the file's bytes

  function Status(r: Response): int {
    match r
    case Forbidden => 403
    case NotFound => 404
    case ServerError => 500
    case Served(_, _) => 200
  }

  const Default := "application/octet-stream"

  const MimeTypes: seq<(string, string)> := [
    (".html", "text/html"), (".css", "text/css"), (".js", "application/javascript"),
    (".json", "application/json"), (".png", "image/png"), (".svg", "image/svg+xml"),
    (".ico", "image/x-icon")
  ]

  const Root := "/"
  const IndexHtml := "/index.html"

  /** The text before the first '?'. */
  function StripQuery(url: string): (r: string)
    ensures '?' !in r && StartsWith(url, r) && (|r| < |url| ==> url[|r|] == '?')
  {
    match IndexOf(url, '?')
    case None => url
    case Some(q) => url[..q]
  }

  /**
   * The path a URL asks for: '/' means the index page, and a query string is
   * dropped (the index page's own name has none to drop).
   */
  function RequestPath(url: string): (r: string)
    ensures url == Root ==> r == IndexHtml
    ensures url != Root ==> '?' !in r && StartsWith(url, r) && (|r| < |url| ==> url[|r|] == '?')
  {
    if url == Root then IndexHtml else StripQuery(url)
  }

  /** `path.extname`: from the last '.' of the last segment, unless that '.' starts it. */
  function Extname(path: string): (r: string)
    ensures r != "" ==> r[0] == '.'
  {
    var base := Basename(path);
    match LastIndexOf(base, '.')
    case None => ""
    case Some(k) =>
      if k == 0 then ""
      else
        base[k..]
  }

  /** `MIME_TYPES[ext] || 'application/octet-stream'`. */
  function ContentType(ext: string): (r: string)
    ensures r != ""
    ensures forall i :: 0 <= i < |MimeTypes| && MimeTypes[i].0 == ext ==> r == MimeTypes[i].1
    ensures (forall i :: 0 <= i < |MimeTypes| ==> MimeTypes[i].0 != ext) ==> r == Default
  {
    MimeKeysDistinct();
    match Lookup(MimeTypes, ext)
    case Some(t) => if t != "" then t else Default
    case None => Default
  }

  /** No extension appears twice in the table. */
  lemma MimeKeysDistinct()
    ensures forall i, j :: 0 <= i < j < |MimeTypes| ==> MimeTypes[i].0 != MimeTypes[j].0
  {
    forall i, j | 0 <= i < j < |MimeTypes|
      ensures MimeTypes[i].0 != MimeTypes[j].0
    {
      var a, b := MimeTypes[i].0, MimeTypes[j].0;
      assert |a| != |b| || a[1] != b[1];
    }
  }

  /**
   * `serveStatic`: a path holding ".." is refused before the filesystem is
   * consulted; a missing file is 404; a file that cannot be read is 500;
   * otherwise it is served with the type its extension names.
   */
  function ServeStatic(url: string, join: string -> string, exists_: string -> bool,
                       readable: string -> bool): (r: Response)
    ensures var path := RequestPath(url);
            && (r == Forbidden <==> Contains(path, ".."))
            && (r == NotFound <==> !Contains(path, "..") && !exists_(join(path)))
            && (r == ServerError <==> !Contains(path, "..") && exists_(join(path)) && !readable(join(path)))
            && (r.Served? ==> r.fullPath == join(path) && r.contentType != "")
  {
    var path := RequestPath(url);
    if Contains(path, "..") then Forbidden
    else
      var full := join(path);
      if !exists_(full) then NotFound
      else if !readable(full) then ServerError
      else Served(full, ContentType(Extname(full)))
  }

  // ---- properties ----

  /** Text without two dots in a row does not contain "..". */
  lemma {:induction false} NoDotDot(s: string)
    requires forall i :: 0 <= i < |s| - 1 ==> !(s[i] == '.' && s[i + 1] == '.')
    ensures !Contains(s, "..")
  {
    if |s| > 0 {
      if |s| >= 2 {
        assert s[..2][0] == s[0] && s[..2][1] == s[1];
      }
      assert !StartsWith(s, "..");
      assert forall i :: 0 <= i < |s[1..]| ==> s[1..][i] == s[i + 1];
      NoDotDot(s[1..]);
    }
  }

  lemma IndexHtmlSafe()
    ensures !Contains(IndexHtml, "..")
  {
    NoDotDot(IndexHtml);
  }

  /** '/' is served as the index page, with the HTML type, whenever that file exists and reads. */
  lemma IndexPage(join: string -> string, exists_: string -> bool, readable: string -> bool)
    requires Extname(join(IndexHtml)) == ".html"
    ensures var r := ServeStatic(Root, join, exists_, readable);
            && (r.Served? <==> exists_(join(IndexHtml)) && readable(join(IndexHtml)))
            && (r.Served? ==> r == Served(join(IndexHtml), "text/html"))
  {
    IndexHtmlSafe();
    assert MimeTypes[0].0 == ".html";
  }

  /** A query string changes nothing about the answer, except on the bare root. */
  lemma QueryIgnored(path: string, query: string, join: string -> string,
                     exists_: string -> bool, readable: string -> bool)
    requires '?' !in path && path != Root
    ensures ServeStatic(path + "?" + query, join, exists_, readable)
            == ServeStatic(path, join, exists_, readable)
  {
    var url := path + "?" + query;
    assert |path| == 0 ==> url[0] == '?';
    assert |path| > 0 ==> |url| >= 2;
    IndexOfAfter(path, '?', query);
    assert url[..|path|] == path;
  }

  /** The root with a query string asks for the public directory itself, not the index page. */
  lemma QueryOnRoot(query: string)
    ensures RequestPath(Root + "?" + query) == Root
  {
    IndexOfAfter(Root, '?', query);
    assert Root + "?" + query == Root + ['?'] + query;
  }

  /**
   * So "/?x" is answered 500: the public directory exists, and reading a
   * directory as a file fails.
   */
  lemma QueryOnRootFails(query: string, join: string -> string, exists_: string -> bool, readable: string -> bool)
    requires exists_(join(Root)) && !readable(join(Root))
    ensures ServeStatic(Root + "?" + query, join, exists_, readable) == ServerError
  {
    QueryOnRoot(query);
    assert !StartsWith(Root, "..") && Root[1..] == "";
  }

  /** A path holding ".." is refused whatever the filesystem holds; nothing else is. */
  lemma TraversalForbidden(url: string, join: string -> string, exists_: string -> bool,
                           readable: string -> bool)
    ensures ServeStatic(url, join, exists_, readable) == Forbidden <==> Contains(RequestPath(url), "..")
  {
  }

  /** A URL without a query string is refused when it holds "..". */
  lemma DotDotForbidden(url: string, join: string -> string, exists_: string -> bool,
                        readable: string -> bool)
    requires '?' !in url && Contains(url, "..")
    ensures ServeStatic(url, join, exists_, readable) == Forbidden
  {
    NoDotDot(Root);
    assert url != Root;
    assert RequestPath(url) == url;
  }

  /** A missing file is 404 exactly when the path passes the traversal check. */
  lemma MissingIsNotFound(url: string, join: string -> string, exists_: string -> bool,
                          readable: string -> bool)
    ensures ServeStatic(url, join, exists_, readable) == NotFound
            <==> !Contains(RequestPath(url), "..") && !exists_(join(RequestPath(url)))
  {
  }

  /** A served file carries one of the table's types, or the default. */
  lemma ServedType(url: string, join: string -> string, exists_: string -> bool,
                   readable: string -> bool)
    ensures var r := ServeStatic(url, join, exists_, readable);
            r.Served? ==> r.contentType == Default
                          || exists i :: 0 <= i < |MimeTypes| && MimeTypes[i] == (Extname(r.fullPath), r.contentType)
  {
  }

  /**
   * The extension of `<dir>/<stem><ext>` is `ext` when the stem is a
   * non-empty name without dots and `ext` is a dot and a name.
   */
  lemma ExtnameOfFile(dir: string, stem: string, ext: string)
    requires |stem| > 0 && '/' !in stem && '.' !in stem
    requires |ext| > 0 && ext[0] == '.' && '/' !in ext && '.' !in ext[1..]
    ensures Extname(dir + "/" + stem + ext) == ext
  {
    var file := stem + ext;
    assert file == stem + ['.'] + ext[1..];
    BasenameOf(dir, file);
    assert dir + "/" + stem + ext == dir + "/" + file;
    LastIndexOfBefore(stem, '.', ext[1..]);
    assert file[|stem|..] == ext;
  }

  /** A stylesheet is served as CSS. */
  lemma CssType(dir: string, stem: string)
    requires |stem| > 0 && '/' !in stem && '.' !in stem
    ensures ContentType(Extname(dir + "/" + stem + ".css")) == "text/css"
  {
    var ext := ".css";
    assert ext[1..] == "css";
    ExtnameOfFile(dir, stem, ext);
    TableEntries();
    TableType(1, ext);
  }

  /** A script is served as JavaScript. */
  lemma JsType(dir: string, stem: string)
    requires |stem| > 0 && '/' !in stem && '.' !in stem
    ensures ContentType(Extname(dir + "/" + stem + ".js")) == "application/javascript"
  {
    var ext := ".js";
    assert ext[1..] == "js";
    ExtnameOfFile(dir, stem, ext);
    TableEntries();
    TableType(2, ext);
  }

  /** The stylesheet and script entries of the table. */
  lemma TableEntries()
    ensures MimeTypes[1] == (".css", "text/css") && MimeTypes[2] == (".js", "application/javascript")
  {
  }

  /** Every extension in the table gets its own type. */
  lemma TableType(i: nat, ext: string)
    requires i < |MimeTypes| && ext == MimeTypes[i].0
    ensures ContentType(ext) == MimeTypes[i].1
  {
  }

  /** A name that only starts with a dot has no extension, so it gets the default type. */
  lemma DotFileType(dir: string, stem: string)
    requires '/' !in stem && '.' !in stem
    ensures ContentType(Extname(dir + "/" + "." + stem)) == Default
  {
    var hidden := "." + stem;
    BasenameOf(dir, hidden);
    assert dir + "/" + "." + stem == dir + "/" + hidden;
    assert hidden == [] + ['.'] + stem;
    LastIndexOfBefore([], '.', stem);
  }
}
