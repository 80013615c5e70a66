/**
 * The Node server's request handler (servers/nodejs/server.js): the
 * domain map built at start-up, `handleDomainSiteRoute`, the path-mode
 * dispatch of the `http.createServer` callback, and the static-file reply.
 * Node has no CDN route and no rate limit.
 */
module NodeRouter {
  import opened Wrappers
  import opened Strs
  import opened Sites
  import opened Routing
  import Respond
  import Json
  import CdnMap
  import PhpRouter

  const NotFoundText: string := "404 Not Found"

  /**
   * `String(v)` of the value inherited under `name`, as V8 writes it. It
   * holds a space and no inherited name does, so it is never itself an
   * inherited name.
   */
  function InheritedText(name: string): (t: string)
    ensures ' ' in t
    ensures t !in Json.InheritedNames
  {
    var t :=
      if name == "__proto__" then
        assert "[object Object]"[7] == ' ';
        "[object Object]"
      else if name == "constructor" then
        assert "function Object() { [native code] }"[8] == ' ';
        "function Object() { [native code] }"
      else
        assert ("function " + name + "() { [native code] }")[8] == ' ';
        "function " + name + "() { [native code] }";
    assert forall n | n in Json.InheritedNames :: ' ' !in n;
    t
  }

  /** `sitesConfig.sites[site]` is truthy: a configured site, or an inherited name. */
  predicate SiteKnown(cfg: SitesConfig, site: string) {
    site in cfg.sites || site in Json.InheritedNames
  }

  /**
   * `JSON.stringify` of the inherited value sent by `res.end`: "{}" for
   * `Object.prototype`; a function stringifies to undefined, and the body
   * is empty.
   */
  function InheritedJson(name: string): (body: string)
    ensures body == "{}" <==> name == "__proto__"
    ensures body != "{}" ==> body == ""
  {
    if name == "__proto__" then "{}" else ""
  }

  /**
   * The `/api/config` answer of Node: `siteConfigs[site]` holds the loaded
   * configs of enabled sites, and an inherited name finds its inherited
   * value, which is sent with status 200.
   */
  function Config(cfg: SitesConfig, site: string): (o: Outcome)
    ensures o == SiteConfig(site) <==> site in cfg.sites && ConfigLoaded(Node, cfg.sites[site])
    ensures o.ConfigText? <==> site in Json.InheritedNames && !(site in cfg.sites && ConfigLoaded(Node, cfg.sites[site]))
    ensures o.ConfigText? ==> o.body == InheritedJson(site)
    ensures site !in Json.InheritedNames ==> o == LoadedConfig(Node, cfg, site)
  {
    if site in cfg.sites && ConfigLoaded(Node, cfg.sites[site]) then SiteConfig(site)
    else if site in Json.InheritedNames then ConfigText(InheritedJson(site))
    else NotFound("Config not found")
  }

  /**
   * `renderSitePageWithBasePath`: an inherited name passes the existence
   * test and fails the `enabled` test; a configured site goes through the
   * checks Node and PHP share.
   */
  function RenderPage(cfg: SitesConfig, site: string, page: string, basePath: string): (o: Outcome)
    ensures site in cfg.sites ==> o == CheckedRender(Node, cfg, site, page, basePath)
    ensures site !in cfg.sites && site in Json.InheritedNames ==> o == NotFound(NotEnabledMessage(site))
    ensures !SiteKnown(cfg, site) ==> o == NotFound("Site not found")
  {
    if site in cfg.sites then CheckedRender(Node, cfg, site, page, basePath)
    else if site in Json.InheritedNames then NotFound(NotEnabledMessage(site))
    else NotFound("Site not found")
  }

  /** `handleDomainSiteRoute`: a request whose host is mapped to `site`. */
  function DomainRoute(cfg: SitesConfig, site: string, pathname: string): (o: Outcome)
    ensures !SiteKnown(cfg, site) ==> o == NotFound("Site not found")
    ensures site in cfg.sites && !cfg.sites[site].enabled ==> o == NotFound(NotEnabledMessage(site))
    ensures site !in cfg.sites && site in Json.InheritedNames ==> o == NotFound(NotEnabledMessage(site))
    ensures o.Render? ==> o.site == site && o.basePath == "/" && PlainPageName(o.page)
                          && Renderable(Node, cfg, site, TemplatePath(o.page))
    ensures o.StaticFile? ==> o.site == site && "/" + o.relPath == pathname && StartsWith(pathname, "/static/")
    ensures o.SiteConfig? ==> o.site == site && site in cfg.sites && ConfigLoaded(Node, cfg.sites[site])
    ensures !o.HomePage? && !o.Crash?
  {
    if !SiteKnown(cfg, site) then NotFound("Site not found")
    else if site !in cfg.sites || !cfg.sites[site].enabled then NotFound(NotEnabledMessage(site))
    else if StartsWith(pathname, "/static/") then StaticFile(site, pathname[1..])
    else if pathname == "/api/config" then Config(cfg, site)
    else if pathname == "" || pathname == "/" || pathname == "/index.html" then
      CheckedRender(Node, cfg, site, "login", "/")
    else if pathname[0] == '/' && HtmlPage(pathname[1..]).Some? then
      CheckedRender(Node, cfg, site, HtmlPage(pathname[1..]).value, "/")
    else NotFound(NotFoundText)
  }

  /**
   * Path mode, "/site/subPath". No enabled check precedes the static and
   * config rules: a disabled site's static files are served, and its
   * config is absent because only enabled sites' configs are loaded.
   */
  function PathRoute(cfg: SitesConfig, pathname: string): (o: Outcome)
    ensures PathSplit(pathname).None? ==> o == NotFound(NotFoundText)
    ensures PathSplit(pathname).Some? ==> o == SiteRoute(cfg, PathSplit(pathname).value.0, PathSplit(pathname).value.1)
    ensures o.Render? ==> o.basePath == "/" + o.site && PlainPageName(o.page)
                          && Renderable(Node, cfg, o.site, TemplatePath(o.page))
    ensures o.SiteConfig? ==> o.site in cfg.sites && ConfigLoaded(Node, cfg.sites[o.site])
    ensures !o.HomePage? && !o.Crash?
  {
    match PathSplit(pathname)
    case None => NotFound(NotFoundText)
    case Some((site, subPath)) => SiteRoute(cfg, site, subPath)
  }

  /**
   * The rules of path mode once the pattern has matched `site` and
   * `subPath`. An inherited name passes the existence test: its static
   * paths are looked up on disk, its config is the inherited value, and
   * its pages fail the `enabled` test.
   */
  function SiteRoute(cfg: SitesConfig, site: string, subPath: string): (o: Outcome)
    ensures !SiteKnown(cfg, site) ==> o == NotFound("Site not found")
    ensures SiteKnown(cfg, site) && StartsWith(subPath, "static/") ==> o == StaticFile(site, subPath)
    ensures o.StaticFile? ==> o == StaticFile(site, subPath) && SiteKnown(cfg, site)
    ensures SiteKnown(cfg, site) && subPath == "api/config" ==> o == Config(cfg, site)
    ensures o.Render? ==> o.site == site && o.basePath == "/" + site && PlainPageName(o.page)
                          && Renderable(Node, cfg, site, TemplatePath(o.page))
    ensures o.SiteConfig? ==> o.site == site && site in cfg.sites && ConfigLoaded(Node, cfg.sites[site])
    ensures o.ConfigText? ==> site in Json.InheritedNames && subPath == "api/config"
    ensures !o.HomePage? && !o.Crash?
  {
    assert "api/config"[6] != '/';
    if !SiteKnown(cfg, site) then NotFound("Site not found")
    else if StartsWith(subPath, "static/") then StaticFile(site, subPath)
    else if subPath == "api/config" then Config(cfg, site)
    else if subPath == "" || subPath == "index.html" then RenderPage(cfg, site, "login", "/" + site)
    else match HtmlPage(subPath)
      case Some(page) => RenderPage(cfg, site, page, "/" + site)
      case None => NotFound(NotFoundText)
  }

  /** "/name/api/config" for an inherited name no site uses: a 200 with the inherited value's JSON. */
  lemma InheritedConfigRoute(cfg: SitesConfig, site: string)
    requires site in Json.InheritedNames && site !in cfg.sites && '/' !in site
    ensures PathRoute(cfg, "/" + site + "/" + "api/config") == ConfigText(InheritedJson(site))
  {
    assert site != "" by { assert "" !in Json.InheritedNames; }
    PathSplitRoundTrip(site, "api/config");
  }

  /** "/constructor/api/config" is a 200 with an empty body, "/__proto__/api/config" a 200 with "{}". */
  lemma InheritedSiteConfig(cfg: SitesConfig)
    requires "constructor" !in cfg.sites && "__proto__" !in cfg.sites
    ensures PathRoute(cfg, "/" + "constructor" + "/" + "api/config") == ConfigText("")
    ensures PathRoute(cfg, "/" + "__proto__" + "/" + "api/config") == ConfigText("{}")
  {
    InheritedConfigRoute(cfg, "constructor");
    InheritedConfigRoute(cfg, "__proto__");
  }

  /** The host names `domainToSite` answers for: an own entry that is not "", or an inherited name. */
  predicate InheritedHost(domains: map<string, string>, host: string) {
    StripPort(host) !in domains && StripPort(host) in Json.InheritedNames
  }

  /**
   * The `http.createServer` callback once the Host header is known, with
   * the domain map `domains` that the start-up loops build
   * (`BuildDomainMap(Node, cfg)`): a mapped host (by truthiness) first,
   * then the home page, then path mode. An inherited host name is truthy,
   * and its value, turned to text, is looked up as the site.
   */
  function Route(cfg: SitesConfig, domains: map<string, string>, host: string, pathname: string): (o: Outcome)
    ensures HostSite(Node, domains, host).Some? ==> o == DomainRoute(cfg, HostSite(Node, domains, host).value, pathname)
    ensures InheritedHost(domains, host) ==> o == DomainRoute(cfg, InheritedText(StripPort(host)), pathname)
    ensures o == HomePage <==> HostSite(Node, domains, host).None? && !InheritedHost(domains, host)
                               && (pathname == "/" || pathname == "")
    ensures o.Render? ==> PlainPageName(o.page) && Renderable(Node, cfg, o.site, TemplatePath(o.page))
    ensures o.SiteConfig? ==> o.site in cfg.sites && ConfigLoaded(Node, cfg.sites[o.site])
    ensures !o.Crash?
  {
    match HostSite(Node, domains, host)
    case Some(site) => DomainRoute(cfg, site, pathname)
    case None =>
      if InheritedHost(domains, host) then DomainRoute(cfg, InheritedText(StripPort(host)), pathname)
      else if pathname == "/" || pathname == "" then HomePage
      else PathRoute(cfg, pathname)
  }

  /** Host "constructor", which no site claims, answers "Site not found" on every path. */
  lemma InheritedHostNotFound(cfg: SitesConfig, domains: map<string, string>, host: string, pathname: string)
    requires InheritedHost(domains, host)
    requires InheritedText(StripPort(host)) !in cfg.sites
    ensures Route(cfg, domains, host, pathname) == NotFound("Site not found")
  {
  }

  /**
   * The whole callback. Without a Host header, `host.includes` throws
   * inside the callback, nothing catches it, and the process dies.
   */
  function Serve(cfg: SitesConfig, domains: map<string, string>, hostHeader: Option<string>, pathname: string): (o: Outcome)
    ensures o == Crash <==> hostHeader.None?
    ensures hostHeader.Some? ==> o == Route(cfg, domains, hostHeader.value, pathname)
  {
    match hostHeader
    case None => Crash
    case Some(host) => Route(cfg, domains, host, pathname)
  }

  /** The static reply of Node: a file, a 404, or a crash of the whole process. */
  datatype StaticReply =
    | Served(contentType: string, data: Respond.Bytes)
    | Refused(response: Respond.Response)
      /** `writeHead(200)` was sent, then the read stream failed with no 'error' listener. */
    | Crashed(contentType: string)

  /**
   * The static reply as written: `fs.access(filePath, R_OK)` then a read
   * stream piped to the response. `files` are the readable files and
   * `dirs` the readable directories. `fs.access` accepts a readable
   * directory too: the 200 goes out, the stream fails with EISDIR, nothing
   * listens for its 'error', and the server process dies.
   */
  function ServeStatic(files: map<string, Respond.Bytes>, dirs: set<string>, filePath: string): (r: StaticReply)
    ensures r.Served? <==> filePath in files
    ensures r.Served? ==> r.data == files[filePath]
                          && r.contentType == Respond.StaticMime(CdnMap.NodeExtname(filePath))
    ensures r.Crashed? <==> filePath !in files && filePath in dirs
    ensures r.Refused? ==> r.response == Respond.Error(404, NotFoundText)
  {
    if filePath in files then Served(Respond.StaticMime(CdnMap.NodeExtname(filePath)), files[filePath])
    else if filePath in dirs then Crashed(Respond.StaticMime(CdnMap.NodeExtname(filePath)))
    else Refused(Respond.Error(404, NotFoundText))
  }

  /** "GET /aliyun/static/js", where static/js is a directory, takes the server down. */
  lemma StaticDirectoryCrashes(files: map<string, Respond.Bytes>)
    requires "sites/aliyun/static/js" !in files
    ensures ServeStatic(files, {"sites/aliyun/static/js"}, "sites/aliyun/static/js") == Crashed("application/octet-stream")
  {
    assert CdnMap.NodeExtname("sites/aliyun/static/js") == "";
  }

  /**
   * The static reply as evidently intended: only a regular file is
   * served, and a directory is a 404 like a missing file, as PHP's
   * `is_file` and Go's `os.ReadFile` make it.
   */
  function ServeStaticChecked(files: map<string, Respond.Bytes>, dirs: set<string>, filePath: string): (r: StaticReply)
    ensures !r.Crashed?
    ensures r.Served? <==> filePath in files
    ensures r.Served? ==> r.data == files[filePath]
                          && r.contentType == Respond.StaticMime(CdnMap.NodeExtname(filePath))
    ensures r.Refused? ==> r.response == Respond.Error(404, NotFoundText)
  {
    if filePath in files then Served(Respond.StaticMime(CdnMap.NodeExtname(filePath)), files[filePath])
    else Refused(Respond.Error(404, NotFoundText))
  }

  /** The corrected reply serves exactly the files PHP serves, and only a directory sets it apart from the one as written. */
  lemma CheckedMatchesPhpAndWritten(files: map<string, Respond.Bytes>, dirs: set<string>, filePath: string)
    ensures ServeStaticChecked(files, dirs, filePath).Served? <==> PhpRouter.ServeStatic(files, filePath).Success?
    ensures filePath !in dirs ==> ServeStaticChecked(files, dirs, filePath) == ServeStatic(files, dirs, filePath)
  {
  }
}
