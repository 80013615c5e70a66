/**
 * The request side of the CDN proxy, shared by servers/go/cdn.go and
 * servers/nodejs/cdn-utils.js: from the part of the request after
 * "/cdn/" to the origin URL, the cache key and the MIME type.
 */
module CdnMap {
  import opened Wrappers
  import opened Strs
  import Respond

  const TailwindOrigin: string := "https://cdn.tailwindcss.com"
  const JsDelivr: string := "https://cdn.jsdelivr.net/"
  const CdnPrefix: string := "/cdn/"
  const TailwindPrefix: string := "tailwindcss/"

  /** Where a proxied file comes from and how it is cached and labelled. */
  datatype Target = Target(originUrl: string, cacheKey: string, mime: string)

  /** Tailwind requests all go to the Play CDN host; the rest of the path goes to jsDelivr. */
  function OriginUrl(urlPath: string): (url: string)
    ensures StartsWith(urlPath, TailwindPrefix) ==> url == TailwindOrigin
    ensures !StartsWith(urlPath, TailwindPrefix) ==> url == JsDelivr + urlPath
  {
    if StartsWith(urlPath, TailwindPrefix) then TailwindOrigin else JsDelivr + urlPath
  }

  /** The cache key: every '/' replaced by the platform separator `sep`. */
  function CacheKey(urlPath: string, sep: char): (key: string)
    ensures |key| == |urlPath|
  {
    if urlPath == [] then []
    else [if urlPath[0] == '/' then sep else urlPath[0]] + CacheKey(urlPath[1..], sep)
  }

  /** The extension table of both proxies. */
  function CdnMime(ext: string): (mime: string)
    ensures mime != ""
  {
    if ext == ".css" then "text/css"
    else if ext == ".js" then "application/javascript"
    else if ext == ".map" then "application/json"
    else if ext == ".woff" then "font/woff"
    else if ext == ".woff2" then "font/woff2"
    else if ext == ".ttf" then "font/ttf"
    else if ext == ".eot" then "application/vnd.ms-fontobject"
    else if ext == ".svg" then "image/svg+xml"
    else "application/octet-stream"
  }

  function StripTrailingSlashes(p: string): (r: string)
    ensures r == [] || r[|r| - 1] != '/'
    ensures |r| <= |p| && r == p[..|r|]
  {
    if p != [] && p[|p| - 1] == '/' then StripTrailingSlashes(p[..|p| - 1]) else p
  }

  /**
   * Node's `path.extname`: like Go's, except that trailing slashes are
   * ignored and a dot that starts the last element (".babelrc", "..") does
   * not begin an extension.
   */
  function NodeExtname(path: string): (ext: string)
    ensures ext == [] || ext[0] == '.'
  {
    var base := Basename(StripTrailingSlashes(path));
    match LastIndexOf(base, '.')
    case None => ""
    case Some(d) => if d == 0 || base == ".." then "" else base[d..]
  }

  /** The two extension rules agree unless the last element starts with its only dot or is "..". */
  lemma ExtnameAgreesWithGo(path: string)
    requires path == [] || path[|path| - 1] != '/'
    requires var base := Basename(path);
             LastIndexOf(base, '.').Some? ==> LastIndexOf(base, '.').value > 0 && base != ".."
    ensures NodeExtname(path) == Respond.GoExt(path)
  {
  }

  /** A dot-file is where they part: Go labels "npm/x/.css" as CSS, Node as a byte stream. */
  lemma DotFileExtensionDiffers()
    ensures Respond.GoExt("npm/x/.css") == ".css"
    ensures NodeExtname("npm/x/.css") == ""
  {
    DotFileBase();
    assert ".css"[1..] == "css";
    LastIndexOfAt(".css", 0, '.');
  }

  lemma DotFileBase()
    ensures Basename("npm/x/.css") == ".css"
    ensures StripTrailingSlashes("npm/x/.css") == "npm/x/.css"
  {
    var p := "npm/x/.css";
    assert p[6..] == ".css" && '/' !in p[6..];
    LastIndexOfAt(p, 5, '/');
    assert p[|p| - 1] != '/';
  }

  /** The target Go's `handleCDNProxy` derives from `r.URL.Path`; an empty remainder is a 400. */
  function GoTarget(requestPath: string, sep: char): (r: Result<Target, Respond.Response>)
    ensures r.Failure? <==> TrimPrefix(requestPath, CdnPrefix) == ""
    ensures r.Failure? ==> r.error == Respond.Error(400, "Bad request")
  {
    var urlPath := TrimPrefix(requestPath, CdnPrefix);
    if urlPath == "" then Failure(Respond.Error(400, "Bad request"))
    else Success(Target(OriginUrl(urlPath), CacheKey(urlPath, sep), CdnMime(Respond.GoExt(urlPath))))
  }

  /**
   * The target Node's `handleCDNProxy` derives from `req.url`, which
   * keeps the query string: it reaches the origin URL, the cache key and
   * the extension.
   */
  function NodeTarget(requestUrl: string, sep: char): (r: Result<Target, Respond.Response>)
    ensures r.Failure? <==> TrimPrefix(requestUrl, CdnPrefix) == ""
    ensures r.Failure? ==> r.error == Respond.Error(400, "Bad request")
  {
    var urlPath := TrimPrefix(requestUrl, CdnPrefix);
    if urlPath == "" then Failure(Respond.Error(400, "Bad request"))
    else Success(Target(OriginUrl(urlPath), CacheKey(urlPath, sep), CdnMime(NodeExtname(urlPath))))
  }

  /** Every Tailwind path is fetched from the same URL, whatever follows the prefix. */
  lemma TailwindIgnoresRest(a: string, b: string, sep: char)
    requires StartsWith(a, CdnPrefix + TailwindPrefix) && StartsWith(b, CdnPrefix + TailwindPrefix)
    ensures GoTarget(a, sep).Success? && GoTarget(b, sep).Success?
    ensures GoTarget(a, sep).value.originUrl == GoTarget(b, sep).value.originUrl == TailwindOrigin
  {
    TailwindRemainder(a);
    TailwindRemainder(b);
  }

  lemma TailwindRemainder(a: string)
    requires StartsWith(a, CdnPrefix + TailwindPrefix)
    ensures StartsWith(a, CdnPrefix) && StartsWith(TrimPrefix(a, CdnPrefix), TailwindPrefix)
  {
    assert a[..|CdnPrefix|] == (CdnPrefix + TailwindPrefix)[..|CdnPrefix|];
    assert a[|CdnPrefix|..][..|TailwindPrefix|] == (CdnPrefix + TailwindPrefix)[|CdnPrefix|..];
  }

  /** jsDelivr URLs identify their path: two non-Tailwind paths with one URL are the same path. */
  lemma JsDelivrUrlInjective(a: string, b: string)
    requires !StartsWith(a, TailwindPrefix) && !StartsWith(b, TailwindPrefix)
    requires OriginUrl(a) == OriginUrl(b)
    ensures a == b
  {
    assert a == OriginUrl(a)[|JsDelivr|..];
    assert b == OriginUrl(b)[|JsDelivr|..];
  }

  /** With '/' as the separator the cache key is the path itself. */
  lemma {:induction false} CacheKeyIdentity(urlPath: string)
    ensures CacheKey(urlPath, '/') == urlPath
  {
    if urlPath != [] {
      CacheKeyIdentity(urlPath[1..]);
      assert urlPath == [urlPath[0]] + urlPath[1..];
    }
  }

  /** Different paths never share a cache file when the separator does not occur in them. */
  lemma {:induction false} CacheKeyInjective(a: string, b: string, sep: char)
    requires sep !in a && sep !in b
    requires CacheKey(a, sep) == CacheKey(b, sep)
    ensures a == b
  {
    if a != [] {
      assert CacheKey(a, sep)[0] == CacheKey(b, sep)[0];
      assert CacheKey(a, sep)[1..] == CacheKey(a[1..], sep);
      assert CacheKey(b, sep)[1..] == CacheKey(b[1..], sep);
      CacheKeyInjective(a[1..], b[1..], sep);
      assert a == [a[0]] + a[1..];
      assert b == [b[0]] + b[1..];
    }
  }

  /** Without a query string, and where the extension rules agree, both proxies choose the same target. */
  lemma NodeMatchesGo(requestPath: string, sep: char)
    requires NodeExtname(TrimPrefix(requestPath, CdnPrefix)) == Respond.GoExt(TrimPrefix(requestPath, CdnPrefix))
    ensures NodeTarget(requestPath, sep) == GoTarget(requestPath, sep)
  {
  }

  /** A cache-busting query makes Node label a script as a byte stream and cache it under another key. */
  lemma QueryStringReachesNodeKey()
    ensures GoTarget("/cdn/a.js", '/') == Success(Target(JsDelivr + "a.js", "a.js", "application/javascript"))
    ensures NodeTarget("/cdn/a.js?v=1", '/') == Success(Target(JsDelivr + "a.js?v=1", "a.js?v=1", "application/octet-stream"))
  {
    GoScriptTarget();
    NodeQueryTarget();
  }

  /** A path outside Tailwind keeps its remainder as origin suffix and cache key on both proxies. */
  lemma PlainTarget(u: string)
    requires u != "" && !StartsWith(u, TailwindPrefix)
    ensures GoTarget(CdnPrefix + u, '/') == Success(Target(JsDelivr + u, u, CdnMime(Respond.GoExt(u))))
    ensures NodeTarget(CdnPrefix + u, '/') == Success(Target(JsDelivr + u, u, CdnMime(NodeExtname(u))))
  {
    PrependedPrefix(CdnPrefix, u);
    CacheKeyIdentity(u);
  }

  lemma GoScriptTarget()
    ensures GoTarget("/cdn/a.js", '/') == Success(Target(JsDelivr + "a.js", "a.js", "application/javascript"))
  {
    var u := "a.js";
    assert "/cdn/a.js" == CdnPrefix + u;
    assert |u| < |TailwindPrefix|;
    PlainTarget(u);
    GoScriptExtension();
  }

  lemma GoScriptExtension()
    ensures Respond.GoExt("a.js") == ".js"
  {
    var u := "a.js";
    assert '/' !in u;
    assert u[2..] == "js";
    LastIndexOfAt(u, 1, '.');
    assert u[1..] == ".js";
  }

  lemma NodeQueryTarget()
    ensures NodeTarget("/cdn/a.js?v=1", '/') == Success(Target(JsDelivr + "a.js?v=1", "a.js?v=1", "application/octet-stream"))
  {
    var u := "a.js?v=1";
    assert "/cdn/a.js?v=1" == CdnPrefix + u;
    assert |u| < |TailwindPrefix|;
    PlainTarget(u);
    NodeQueryExtension();
    QueryMime();
  }

  lemma QueryMime()
    ensures CdnMime(".js?v=1") == "application/octet-stream"
  {
    var e := ".js?v=1";
    assert |e| == 7;
    assert e != ".css" && e != ".js" && e != ".map" && e != ".woff";
    assert e != ".woff2" && e != ".ttf" && e != ".eot" && e != ".svg";
  }

  lemma NodeQueryExtension()
    ensures NodeExtname("a.js?v=1") == ".js?v=1"
  {
    var u := "a.js?v=1";
    assert u[|u| - 1] != '/';
    assert StripTrailingSlashes(u) == u;
    assert '/' !in u;
    assert u[2..] == "js?v=1";
    LastIndexOfAt(u, 1, '.');
    assert u[1..] == ".js?v=1";
  }
}
