/**
 * The Go server's request dispatch (`handleAllRoutes`,
 * `handleDomainSiteRoute`, `handleSiteAPIConfig` and the checks of
 * `renderSitePageWithBasePath` in servers/go/main.go), and its start-up
 * state: the sites configuration, the domain map and the rate limiter.
 */
module GoRouter {
  import opened Wrappers
  import opened Strs
  import opened Sites
  import opened Routing
  import RateLimit
  import Respond

  /** The body `http.NotFound` writes. */
  const NotFoundText: string := "404 page not found"

  /**
   * Go renders a page when the site's config and template set were loaded
   * at start-up (enabled sites whose config parsed) and the template file
   * exists; every failure is a plain 404.
   */
  function Render(cfg: SitesConfig, site: string, page: string, basePath: string): (o: Outcome)
    requires WellFormed(cfg)
    ensures o.Render? <==> Renderable(Go, cfg, site, TemplatePath(page))
    ensures o.Render? ==> o == Outcome.Render(site, page, basePath)
    ensures !o.Render? ==> o == NotFound(NotFoundText)
  {
    if site in cfg.sites && ConfigLoaded(Go, cfg.sites[site]) && TemplatePath(page) in cfg.sites[site].templates
    then Outcome.Render(site, page, basePath)
    else NotFound(NotFoundText)
  }

  /**
   * `handleSiteAPIConfig`: the config loaded at start-up, or 404. Only a
   * config.json that decodes into the typed struct was loaded, and what is
   * sent is that struct re-encoded (`GoConfig.Encoded`), not the file.
   */
  function Config(cfg: SitesConfig, site: string): (o: Outcome)
    ensures o == SiteConfig(site) <==> site in cfg.sites && ConfigLoaded(Go, cfg.sites[site])
    ensures o != SiteConfig(site) ==> o == NotFound(NotFoundText)
  {
    if site in cfg.sites && ConfigLoaded(Go, cfg.sites[site]) then SiteConfig(site) else NotFound(NotFoundText)
  }

  /** `handleDomainSiteRoute`: a request whose host is mapped to `site`. */
  function DomainRoute(cfg: SitesConfig, site: string, path: string): (o: Outcome)
    requires WellFormed(cfg)
    ensures site !in cfg.sites || !cfg.sites[site].enabled ==> o == NotFound("Site not found")
    ensures o.Render? ==> o.site == site && o.basePath == "/" && Renderable(Go, cfg, site, TemplatePath(o.page))
    ensures o.StaticFile? ==> o.site == site && "/" + o.relPath == path && StartsWith(path, "/static/")
    ensures o.SiteConfig? ==> o.site in cfg.sites && ConfigLoaded(Go, cfg.sites[o.site])
    ensures !o.HomePage? && !o.CdnProxy?
  {
    if site !in cfg.sites || !cfg.sites[site].enabled then NotFound("Site not found")
    else if StartsWith(path, "/static/") then StaticFile(site, TrimPrefix(path, "/"))
    else if StartsWith(path, "/api/config") then Config(cfg, site)
    else if path == "/" || path == "" || path == "/index.html" then Render(cfg, site, "login", "/")
    else if EndsWith(path, ".html") then Render(cfg, site, TrimSuffix(TrimPrefix(path, "/"), ".html"), "/")
    else NotFound(NotFoundText)
  }

  /** The path-mode part of `handleAllRoutes` on the '/'-separated parts of "/site/...". */
  function SegmentsRoute(cfg: SitesConfig, parts: seq<string>): (o: Outcome)
    requires WellFormed(cfg) && |parts| >= 1
    ensures parts[0] !in cfg.sites ==> o == NotFound(NotFoundText)
    ensures parts[0] in cfg.sites && !cfg.sites[parts[0]].enabled ==> o == NotFound("Site not enabled")
    ensures o.Render? ==> Renderable(Go, cfg, o.site, TemplatePath(o.page)) && o.basePath == "/" + o.site
    ensures o.StaticFile? ==> o.site in cfg.sites && cfg.sites[o.site].enabled && StartsWith(o.relPath, "static")
    ensures o.SiteConfig? ==> o.site in cfg.sites && ConfigLoaded(Go, cfg.sites[o.site])
    ensures !o.HomePage? && !o.CdnProxy?
  {
    var site := parts[0];
    if site !in cfg.sites then NotFound(NotFoundText)
    else if !cfg.sites[site].enabled then NotFound("Site not enabled")
    else if |parts| >= 2 && parts[1] == "static" then
      StaticFile(site, Join(parts[1..], "/"))
    else if |parts| >= 3 && parts[1] == "api" && parts[2] == "config" then Config(cfg, site)
    else if |parts| == 1 || (|parts| == 2 && (parts[1] == "" || parts[1] == "index.html")) then
      Render(cfg, site, "login", "/" + site)
    else if |parts| == 2 && EndsWith(parts[1], ".html") then
      Render(cfg, site, TrimSuffix(parts[1], ".html"), "/" + site)
    else NotFound(NotFoundText)
  }

  /** Path mode: the parts of the path after its leading '/'. */
  function PathRoute(cfg: SitesConfig, path: string): (o: Outcome)
    requires WellFormed(cfg)
    ensures o.Render? ==> Renderable(Go, cfg, o.site, TemplatePath(o.page))
    ensures o.SiteConfig? ==> o.site in cfg.sites && ConfigLoaded(Go, cfg.sites[o.site])
    ensures o.StaticFile? ==> o.site in cfg.sites && cfg.sites[o.site].enabled
    ensures !o.HomePage? && !o.CdnProxy?
  {
    SegmentsRoute(cfg, Split(TrimPrefix(path, "/"), '/'))
  }

  /** The parts of "/site/rest". */
  lemma PathParts(site: string, rest: string)
    requires '/' !in site
    ensures Split(TrimPrefix("/" + site + "/" + rest, "/"), '/') == [site] + Split(rest, '/')
    ensures Split(TrimPrefix("/" + site, "/"), '/') == [site]
  {
    assert "/" + site + "/" + rest == "/" + (site + ['/'] + rest);
    TrimSlash(site + ['/'] + rest);
    SplitFirst(site, '/', rest);
    TrimSlash(site);
  }

  /**
   * `handleAllRoutes` after the rate check, with the domain map `domains`
   * built at start-up: the CDN prefix first, then a mapped host, then the
   * home page, then path mode.
   */
  function Route(cfg: SitesConfig, domains: map<string, string>, host: string, path: string): (o: Outcome)
    requires WellFormed(cfg)
    ensures StartsWith(path, "/cdn/") ==> o == CdnProxy(path)
    ensures !StartsWith(path, "/cdn/") && HostSite(Go, domains, host).Some? ==>
              o == DomainRoute(cfg, HostSite(Go, domains, host).value, path)
    ensures o == HomePage <==> !StartsWith(path, "/cdn/") && HostSite(Go, domains, host).None? && path == "/"
    ensures o.Render? ==> Renderable(Go, cfg, o.site, TemplatePath(o.page))
    ensures o.SiteConfig? ==> o.site in cfg.sites && ConfigLoaded(Go, cfg.sites[o.site])
    ensures o.StaticFile? ==> o.site in cfg.sites && cfg.sites[o.site].enabled
  {
    if StartsWith(path, "/cdn/") then CdnProxy(path)
    else match HostSite(Go, domains, host)
      case Some(site) => DomainRoute(cfg, site, path)
      case None => if path == "/" then HomePage else PathRoute(cfg, path)
  }

  lemma TrimSlash(x: string)
    ensures TrimPrefix("/" + x, "/") == x
  {
    assert ("/" + x)[..1] == "/";
  }

  /** "/site", "/site/" and "/site/index.html" all render the login page with base "/site". */
  lemma SiteIndexAliases(cfg: SitesConfig, site: string)
    requires WellFormed(cfg)
    requires site != "" && '/' !in site
    ensures PathRoute(cfg, "/" + site) == PathRoute(cfg, "/" + site + "/")
    ensures PathRoute(cfg, "/" + site) == PathRoute(cfg, "/" + site + "/index.html")
    ensures site in cfg.sites && cfg.sites[site].enabled ==>
              PathRoute(cfg, "/" + site) == Render(cfg, site, "login", "/" + site)
  {
    SingleSegmentPath(cfg, site);
    SegmentPath(cfg, site, "");
    assert "/" + site + "/" == "/" + site + "/" + "";
    assert '/' !in "index.html";
    SegmentPath(cfg, site, "index.html");
    IndexSuffix("/" + site);
    LoginSegments(cfg, site);
  }

  lemma IndexSuffix(p: string)
    ensures p + "/index.html" == p + "/" + "index.html"
  {
    assert "/index.html" == "/" + "index.html";
  }

  lemma SingleSegmentPath(cfg: SitesConfig, site: string)
    requires WellFormed(cfg)
    requires '/' !in site
    ensures PathRoute(cfg, "/" + site) == SegmentsRoute(cfg, [site])
  {
    PathParts(site, "");
  }

  /** "/site/seg", for a segment without '/', has the parts [site, seg]. */
  lemma SegmentPath(cfg: SitesConfig, site: string, seg: string)
    requires WellFormed(cfg)
    requires '/' !in site && '/' !in seg
    ensures PathRoute(cfg, "/" + site + "/" + seg) == SegmentsRoute(cfg, [site, seg])
  {
    PathParts(site, seg);
    SplitNoSeparator(seg, '/');
  }

  lemma LoginSegments(cfg: SitesConfig, site: string)
    requires WellFormed(cfg)
    ensures SegmentsRoute(cfg, [site]) == SegmentsRoute(cfg, [site, ""]) == SegmentsRoute(cfg, [site, "index.html"])
    ensures site in cfg.sites && cfg.sites[site].enabled ==>
              SegmentsRoute(cfg, [site]) == Render(cfg, site, "login", "/" + site)
  {
  }

  /** Domain mode leaves "/p.html" to the page rule when `p` has no '/'. */
  lemma DomainPagePath(page: string)
    requires '/' !in page
    ensures var d := "/" + page + ".html";
      && !StartsWith(d, "/static/") && !StartsWith(d, "/api/config") && EndsWith(d, ".html")
      && TrimSuffix(TrimPrefix(d, "/"), ".html") == page
      && (d == "/index.html" <==> page == "index")
  {
    var file := page + ".html";
    var d := "/" + file;
    assert d == "/" + page + ".html";
    assert d[1..] == file && '/' !in ".html";
    NotReserved(d);
    AppendedSuffix(page, ".html");
    EndsWithAfter("/", file, ".html");
    TrimSlash(file);
    IndexPage(page);
  }

  /** A path with no '/' after the first character is neither under "/static/" nor "/api/config". */
  lemma NotReserved(d: string)
    requires |d| >= 1 && '/' !in d[1..]
    ensures !StartsWith(d, "/static/") && !StartsWith(d, "/api/config")
  {
    if |d| >= 8 {
      assert d[1..][6] == d[7];
    }
    if |d| >= 11 {
      assert d[1..][3] == d[4];
    }
  }

  lemma IndexPage(page: string)
    ensures "/" + page + ".html" == "/index.html" <==> page == "index"
  {
    var d := "/" + page + ".html";
    if d == "/index.html" {
      assert |page| == 5;
      assert page == d[1..6];
    }
  }

  /**
   * A page reached in path mode and through the site's domain renders the
   * same template; only the base path differs ("/site" against "/"). The
   * name "index" means the login page in both.
   */
  lemma PathAndDomainAgree(cfg: SitesConfig, site: string, page: string)
    requires WellFormed(cfg)
    requires site in cfg.sites && cfg.sites[site].enabled
    requires site != "" && '/' !in site && '/' !in page
    ensures var name := if page == "index" then "login" else page;
      && PathRoute(cfg, "/" + site + "/" + page + ".html") == Render(cfg, site, name, "/" + site)
      && DomainRoute(cfg, site, "/" + page + ".html") == Render(cfg, site, name, "/")
  {
    var file := page + ".html";
    assert "/" + site + "/" + page + ".html" == "/" + site + "/" + file;
    assert '/' !in file;
    SegmentPath(cfg, site, file);
    PageSegments(cfg, site, page);
    DomainPagePath(page);
  }

  lemma PageSegments(cfg: SitesConfig, site: string, page: string)
    requires WellFormed(cfg)
    requires site in cfg.sites && cfg.sites[site].enabled
    ensures SegmentsRoute(cfg, [site, page + ".html"])
            == Render(cfg, site, if page == "index" then "login" else page, "/" + site)
  {
    var file := page + ".html";
    assert file[|file| - 5..] == ".html";
    assert file[..|file| - 5] == page;
    assert file == "index.html" <==> page == "index" by {
      if file == "index.html" {
        assert page == file[..5];
      }
    }
    assert file != "" && file != "static";
  }

  /**
   * The Go server's state: the sites configuration, the domain map built
   * at start-up, and the limiter every request passes.
   */
  class Server {
    const cfg: SitesConfig
    const domains: map<string, string>
    const limiter: RateLimit.RateLimiter

    ghost predicate Valid()
      reads this, limiter
    {
      WellFormed(cfg) && domains == DomainMap(Go, cfg) && limiter.Valid()
    }

    /**
     * `main`: load the configuration and build the domain map. Every
     * enabled site whose config loads must have a templates directory,
     * since `MustNewLocalFileSystemLoader` panics without one.
     */
    constructor (cfg: SitesConfig)
      requires WellFormed(cfg)
      requires forall n | n in cfg.sites && ConfigLoaded(Go, cfg.sites[n]) :: cfg.sites[n].hasTemplateDir
      ensures Valid() && this.cfg == cfg && fresh(limiter)
      ensures limiter.requests == map[] && limiter.traffic == map[]
    {
      this.cfg := cfg;
      var m := BuildDomainMap(Go, cfg);
      domains := m;
      limiter := new RateLimit.RateLimiter();
    }

    /** `handleAllRoutes`: the request-rate check comes before any routing. */
    method HandleAllRoutes(remoteAddr: string, host: string, path: string, now: int) returns (o: Outcome)
      requires Valid()
      modifies limiter
      ensures Valid()
      ensures var ip := Respond.ClientIp(remoteAddr);
        && (RateLimit.AdmitsRequest(RateLimit.Lookup(old(limiter.requests), ip), now) ==>
              o == Route(cfg, domains, host, path)
              && RateLimit.Registered(old(limiter.requests), limiter.requests, ip,
                                      RateLimit.Recent(RateLimit.Lookup(old(limiter.requests), ip), now) + [now]))
        && (!RateLimit.AdmitsRequest(RateLimit.Lookup(old(limiter.requests), ip), now) ==>
              o == TooManyRequests && limiter.requests == old(limiter.requests))
      ensures limiter.traffic == old(limiter.traffic)
    {
      var ok := limiter.Check(Respond.ClientIp(remoteAddr), now);
      if !ok {
        return TooManyRequests;
      }
      if StartsWith(path, "/cdn/") {
        return CdnProxy(path);
      }
      var host' := StripPort(host);
      if host' in domains {
        return DomainRoute(cfg, domains[host'], path);
      }
      if path == "/" {
        return HomePage;
      }
      o := PathRoute(cfg, path);
    }
  }
}
