/**
 * The PHP front controller (servers/php/index.php): the domain map built
 * at start-up, `handleDomainSiteRoute`, the top-level dispatch, and the
 * static-file reply with its dot-less MIME table. Every branch ends the
 * script, so the first rule that applies decides.
 */
module PhpRouter {
  import opened Wrappers
  import opened Strs
  import opened Sites
  import opened Routing
  import Respond

  const NotFoundText: string := "404 Not Found"

  /** `handleDomainSiteRoute($siteName, $subPath)`. */
  function DomainRoute(cfg: SitesConfig, site: string, subPath: string): (o: Outcome)
    ensures site !in cfg.sites ==> o == NotFound("Site not found")
    ensures site in cfg.sites && !cfg.sites[site].enabled ==> o == NotFound(NotEnabledMessage(site))
    ensures o.Render? ==> o.site == site && o.basePath == "/" && PlainPageName(o.page)
                          && Renderable(Php, cfg, site, TemplatePath(o.page))
    ensures o.StaticFile? ==> o.site == site && "/" + o.relPath == subPath && StartsWith(subPath, "/static/")
  {
    if site !in cfg.sites then NotFound("Site not found")
    else if !cfg.sites[site].enabled then NotFound(NotEnabledMessage(site))
    else if StartsWith(subPath, "/static/") then StaticFile(site, subPath[1..])
    else if subPath == "/api/config" then LoadedConfig(Php, cfg, site)
    else if subPath == "" || subPath == "/" || subPath == "/index.html" then
      CheckedRender(Php, cfg, site, "login", "/")
    else if subPath[0] == '/' && HtmlPage(subPath[1..]).Some? then
      CheckedRender(Php, cfg, site, HtmlPage(subPath[1..]).value, "/")
    else NotFound(NotFoundText)
  }

  /** Path mode, `#^/([^/]+)(/(.*))?$#`; a path the pattern rejects reaches the final 404. */
  function PathRoute(cfg: SitesConfig, requestUri: string): (o: Outcome)
    ensures PathSplit(requestUri).None? ==> o == NotFound(NotFoundText)
    ensures PathSplit(requestUri).Some? ==> o == SiteRoute(cfg, PathSplit(requestUri).value.0, PathSplit(requestUri).value.1)
    ensures o.Render? ==> o.basePath == "/" + o.site && PlainPageName(o.page)
                          && Renderable(Php, cfg, o.site, TemplatePath(o.page))
    ensures o.SiteConfig? ==> o.site in cfg.sites && ConfigLoaded(Php, cfg.sites[o.site])
  {
    match PathSplit(requestUri)
    case None => NotFound(NotFoundText)
    case Some((site, subPath)) => SiteRoute(cfg, site, subPath)
  }

  /** The rules of path mode once the pattern has matched `site` and `subPath`. */
  function SiteRoute(cfg: SitesConfig, site: string, subPath: string): (o: Outcome)
    ensures site !in cfg.sites ==> o == NotFound("Site not found")
    ensures site in cfg.sites && StartsWith(subPath, "static/") ==> o == StaticFile(site, subPath)
    ensures o.StaticFile? ==> o == StaticFile(site, subPath) && site in cfg.sites
    ensures site in cfg.sites && subPath == "api/config" ==> o == LoadedConfig(Php, cfg, site)
    ensures o.Render? ==> o.site == site && o.basePath == "/" + site && PlainPageName(o.page)
                          && Renderable(Php, cfg, site, TemplatePath(o.page))
    ensures o.SiteConfig? ==> o.site == site && site in cfg.sites && ConfigLoaded(Php, cfg.sites[site])
  {
    assert "api/config"[6] != '/';
    if site !in cfg.sites then NotFound("Site not found")
    else if StartsWith(subPath, "static/") then StaticFile(site, subPath)
    else if subPath == "api/config" then LoadedConfig(Php, cfg, site)
    else if subPath == "" || subPath == "index.html" then CheckedRender(Php, cfg, site, "login", "/" + site)
    else match HtmlPage(subPath)
      case Some(page) => CheckedRender(Php, cfg, site, page, "/" + site)
      case None => NotFound(NotFoundText)
  }

  /**
   * The top-level dispatch, with the domain map `domains` that the
   * start-up loops build (`BuildDomainMap(Php, cfg)`). `isset` accepts a
   * domain mapped to "", which then fails as an unknown site.
   */
  function Route(cfg: SitesConfig, domains: map<string, string>, host: string, requestUri: string): (o: Outcome)
    ensures HostSite(Php, domains, host).Some? ==> o == DomainRoute(cfg, HostSite(Php, domains, host).value, requestUri)
    ensures o == HomePage <==> HostSite(Php, domains, host).None? && (requestUri == "/" || requestUri == "")
    ensures o.Render? ==> PlainPageName(o.page) && Renderable(Php, cfg, o.site, TemplatePath(o.page))
    ensures o.SiteConfig? ==> o.site in cfg.sites && ConfigLoaded(Php, cfg.sites[o.site])
  {
    match HostSite(Php, domains, host)
    case Some(site) => DomainRoute(cfg, site, requestUri)
    case None => if requestUri == "/" || requestUri == "" then HomePage else PathRoute(cfg, requestUri)
  }

  /** `pathinfo($path, PATHINFO_EXTENSION)`: after the last '.' of the last element, without the dot. */
  function Extension(path: string): (ext: string)
    ensures '.' !in ext && '/' !in ext
    ensures ext != "" ==> EndsWith(Basename(path), "." + ext)
  {
    var base := Basename(path);
    match LastIndexOf(base, '.')
    case None => ""
    case Some(d) =>
      AfterLastDot(base, d);
      base[d + 1..]
  }

  /** The text after the last dot of a path element is a suffix, with no dot or slash in it. */
  lemma AfterLastDot(base: string, d: nat)
    requires d < |base| && base[d] == '.' && '.' !in base[d + 1..] && '/' !in base
    ensures '.' !in base[d + 1..] && '/' !in base[d + 1..]
    ensures EndsWith(base, "." + base[d + 1..])
  {
    var ext := base[d + 1..];
    assert base[d..] == "." + ext;
    assert |base| - |"." + ext| == d;
    forall x | x in ext ensures x in base {
      var k :| 0 <= k < |ext| && ext[k] == x;
      assert base[d + 1 + k] == x;
    }
  }

  /** The static MIME table: keys without the dot, and no entry for html. */
  function Mime(ext: string): (mime: string)
    ensures mime != ""
    ensures ext == "html" ==> mime == "application/octet-stream"
  {
    if ext == "css" then "text/css"
    else if ext == "js" then "application/javascript"
    else if ext == "json" then "application/json"
    else if ext == "png" then "image/png"
    else if ext == "jpg" || ext == "jpeg" then "image/jpeg"
    else if ext == "gif" then "image/gif"
    else if ext == "svg" then "image/svg+xml"
    else "application/octet-stream"
  }

  /** The static reply: the file if it is a regular file, else 404. */
  function ServeStatic(files: map<string, Respond.Bytes>, filePath: string): (r: Result<(string, Respond.Bytes), Respond.Response>)
    ensures r.Success? <==> filePath in files
    ensures r.Success? ==> r.value == (Mime(Extension(filePath)), files[filePath])
    ensures r.Failure? ==> r.error == Respond.Error(404, NotFoundText)
  {
    if filePath in files then Success((Mime(Extension(filePath)), files[filePath]))
    else Failure(Respond.Error(404, NotFoundText))
  }

  /**
   * Where PHP's table has an entry, it gives the Go and Node type for the
   * same file; the tables differ only for html, which PHP serves as
   * application/octet-stream.
   */
  lemma MimeAgreesWithGo(path: string)
    requires Respond.GoExt(path) != ".html"
    ensures Mime(Extension(path)) == Respond.StaticMime(Respond.GoExt(path))
  {
    ExtensionIsGoExtWithoutDot(path);
    if Respond.GoExt(path) != "" {
      TablesAgree(Extension(path));
    }
  }

  lemma ExtensionIsGoExtWithoutDot(path: string)
    ensures Respond.GoExt(path) == "" ==> Extension(path) == ""
    ensures Respond.GoExt(path) != "" ==> Respond.GoExt(path) == "." + Extension(path)
  {
    var base := Basename(path);
    match LastIndexOf(base, '.')
    case None =>
    case Some(d) =>
      assert base[d..] == "." + base[d + 1..];
  }

  lemma TablesAgree(e: string)
    requires "." + e != ".html"
    ensures Mime(e) == Respond.StaticMime("." + e)
  {
    DottedKey(e, "html", ".html");
    DottedKey(e, "css", ".css");
    DottedKey(e, "js", ".js");
    DottedKey(e, "json", ".json");
    DottedKey(e, "png", ".png");
    DottedKey(e, "jpg", ".jpg");
    DottedKey(e, "jpeg", ".jpeg");
    DottedKey(e, "gif", ".gif");
    DottedKey(e, "svg", ".svg");
  }

  lemma DottedKey(e: string, key: string, dotted: string)
    requires dotted == "." + key
    ensures "." + e == dotted <==> e == key
  {
    assert ("." + e)[1..] == e;
    assert dotted[1..] == key;
  }
}
