/**
 * Where the four servers, meant to be interchangeable, answer the same
 * request differently. Each lemma fixes one request and states every
 * server's answer to it.
 */
module Compare {
  import opened Wrappers
  import opened Strs
  import opened Sites
  import opened Routing
  import GoRouter
  import NodeRouter
  import PhpRouter
  import PythonRouter
  import Respond
  import GoConfig
  import Json

  /**
   * A static file of a disabled site: Go refuses it, the other three serve
   * it, because their path mode checks only that the site exists.
   */
  lemma DisabledSiteStatic(cfg: SitesConfig, site: string, file: string)
    requires WellFormed(cfg)
    requires site in cfg.sites && !cfg.sites[site].enabled
    requires site != "" && '/' !in site
    requires file != "" && file[0] != '/'
    ensures var path := "/" + site + "/" + ("static/" + file);
      && GoRouter.PathRoute(cfg, path) == NotFound("Site not enabled")
      && NodeRouter.PathRoute(cfg, path) == StaticFile(site, "static/" + file)
      && PhpRouter.PathRoute(cfg, path) == StaticFile(site, "static/" + file)
      && PythonRouter.PathRoute(cfg, path) == StaticFile(site, "static/" + file)
  {
    var rest := "static/" + file;
    assert rest[..7] == "static/";
    assert rest[7] == file[0];
    GoDisabledSite(cfg, site, rest);
    SubPathRule(cfg, site, rest);
    PythonSubPathRule(cfg, site, rest);
  }

  /**
   * A readable directory under a site's static/: Go's `os.ReadFile` fails
   * and PHP's `is_file` is false, so both answer 404, while Node's
   * `fs.access` accepts it and the process dies after sending the 200.
   */
  lemma StaticDirectory(files: map<string, Respond.Bytes>, dir: string, absPath: string, sitesAbs: string)
    requires dir !in files
    requires StartsWith(absPath, sitesAbs)
    ensures Respond.StaticFile(dir, Some(absPath), Some(sitesAbs), files) == Failure(Respond.Error(404, "404 page not found"))
    ensures PhpRouter.ServeStatic(files, dir) == Failure(Respond.Error(404, PhpRouter.NotFoundText))
    ensures NodeRouter.ServeStatic(files, {dir}, dir).Crashed?
    ensures NodeRouter.ServeStaticChecked(files, {dir}, dir) == NodeRouter.Refused(Respond.Error(404, NodeRouter.NotFoundText))
  {
  }

  /** Go turns away every path under a disabled site. */
  lemma GoDisabledSite(cfg: SitesConfig, site: string, rest: string)
    requires WellFormed(cfg)
    requires site in cfg.sites && !cfg.sites[site].enabled
    requires '/' !in site
    ensures GoRouter.PathRoute(cfg, "/" + site + "/" + rest) == NotFound("Site not enabled")
  {
    GoRouter.PathParts(site, rest);
  }

  /** Node and PHP route "/site/rest" by the rules for `rest` under `site`. */
  lemma SubPathRule(cfg: SitesConfig, site: string, rest: string)
    requires site != "" && '/' !in site
    ensures NodeRouter.PathRoute(cfg, "/" + site + "/" + rest) == NodeRouter.SiteRoute(cfg, site, rest)
    ensures PhpRouter.PathRoute(cfg, "/" + site + "/" + rest) == PhpRouter.SiteRoute(cfg, site, rest)
  {
    PathSplitRoundTrip(site, rest);
  }

  /** So does Flask, once the path is longer than "/site". */
  lemma PythonSubPathRule(cfg: SitesConfig, site: string, rest: string)
    requires site != "" && '/' !in site
    ensures PythonRouter.PathRoute(cfg, "/" + site + "/" + rest) == PythonRouter.SiteRule(cfg, site, rest)
  {
    var path := "/" + site + "/" + rest;
    PathSplitRoundTrip(site, rest);
    assert path != "/" + site by { assert |path| > |"/" + site|; }
  }

  /** Go splits "/site/a/b" into the site and the two parts. */
  lemma GoTwoParts(cfg: SitesConfig, site: string, a: string, b: string)
    requires WellFormed(cfg)
    requires '/' !in site && '/' !in a && '/' !in b
    ensures GoRouter.PathRoute(cfg, "/" + site + "/" + (a + "/" + b)) == GoRouter.SegmentsRoute(cfg, [site, a, b])
  {
    var path := "/" + site + "/" + (a + "/" + b);
    GoRouter.PathParts(site, a + "/" + b);
    SplitTwo(a, b);
    var parts := Split(TrimPrefix(path, "/"), '/');
    assert parts == [site, a, b];
    assert GoRouter.PathRoute(cfg, path) == GoRouter.SegmentsRoute(cfg, parts);
  }

  /** "a/b", for parts without '/', splits into the two parts. */
  lemma SplitTwo(a: string, b: string)
    requires '/' !in a && '/' !in b
    ensures Split(a + "/" + b, '/') == [a, b]
  {
    assert a + "/" + b == a + ['/'] + b;
    SplitFirst(a, '/', b);
    SplitNoSeparator(b, '/');
  }

  /**
   * The config of an enabled site whose config.json is the empty object:
   * Go and Node answer it, PHP and Python treat it as missing (an empty
   * array and an empty dict are false). Node sends `{}`; Go sends its
   * zero struct, every field present (`GoConfig.EmptyIsZeroStruct`).
   */
  lemma EmptyConfigObject(cfg: SitesConfig, site: string)
    requires WellFormed(cfg)
    requires site in cfg.sites && cfg.sites[site].enabled && cfg.sites[site].config == Parsed(map[])
    requires site != "" && '/' !in site
    ensures var path := "/" + site + "/" + ("api" + "/" + "config");
      && GoRouter.PathRoute(cfg, path) == SiteConfig(site)
      && NodeRouter.PathRoute(cfg, path) == SiteConfig(site)
      && PhpRouter.PathRoute(cfg, path) == NotFound("Config not found")
      && PythonRouter.PathRoute(cfg, path) == NotFound(PythonRouter.AbortText)
  {
    EmptyConfigAnswers(cfg, site);
    ConfigRoutes(cfg, site);
  }

  /** What each config handler answers for a config.json holding `{}`. */
  lemma EmptyConfigAnswers(cfg: SitesConfig, site: string)
    requires site in cfg.sites && cfg.sites[site].enabled && cfg.sites[site].config == Parsed(map[])
    ensures GoRouter.Config(cfg, site) == SiteConfig(site)
    ensures NodeRouter.Config(cfg, site) == SiteConfig(site)
    ensures LoadedConfig(Php, cfg, site) == NotFound("Config not found")
    ensures PythonRouter.Config(cfg, site) == NotFound(PythonRouter.AbortText)
  {
    assert cfg.sites[site].config != Malformed;
  }

  /**
   * The config of an enabled site whose non-empty config.json does not fit
   * Go's struct (a number in `api.ecs`, say): Go's load fails, so it
   * answers 404 and leaves the site's domains out of its map, while the
   * other three send the document.
   */
  lemma MistypedConfig(cfg: SitesConfig, site: string)
    requires WellFormed(cfg)
    requires site in cfg.sites && cfg.sites[site].enabled && cfg.sites[site].config.Parsed?
    requires !GoConfig.Decodes(cfg.sites[site].config.doc) && cfg.sites[site].config.doc != map[]
    requires site != "" && '/' !in site
    ensures var path := "/" + site + "/" + ("api" + "/" + "config");
      && GoRouter.PathRoute(cfg, path) == NotFound(GoRouter.NotFoundText)
      && NodeRouter.PathRoute(cfg, path) == SiteConfig(site)
      && PhpRouter.PathRoute(cfg, path) == SiteConfig(site)
      && PythonRouter.PathRoute(cfg, path) == SiteConfig(site)
    ensures !ContributesDomains(Go, cfg.sites[site]) && ContributesDomains(Node, cfg.sites[site])
  {
    ConfigRoutes(cfg, site);
  }

  /**
   * "/site/api/config" of an enabled site reaches each server's config
   * handler.
   */
  lemma ConfigRoutes(cfg: SitesConfig, site: string)
    requires WellFormed(cfg)
    requires site in cfg.sites && cfg.sites[site].enabled
    requires site != "" && '/' !in site
    ensures GoRouter.PathRoute(cfg, "/" + site + "/" + ("api" + "/" + "config")) == GoRouter.Config(cfg, site)
    ensures NodeRouter.PathRoute(cfg, "/" + site + "/" + ("api" + "/" + "config")) == NodeRouter.Config(cfg, site)
    ensures PhpRouter.PathRoute(cfg, "/" + site + "/" + ("api" + "/" + "config")) == LoadedConfig(Php, cfg, site)
    ensures PythonRouter.PathRoute(cfg, "/" + site + "/" + ("api" + "/" + "config")) == PythonRouter.Config(cfg, site)
  {
    GoTwoParts(cfg, site, "api", "config");
    GoConfigSegments(cfg, site);
    ConfigSubPath(cfg, site);
  }

  lemma GoConfigSegments(cfg: SitesConfig, site: string)
    requires WellFormed(cfg)
    requires site in cfg.sites && cfg.sites[site].enabled && site != ""
    ensures GoRouter.SegmentsRoute(cfg, [site, "api", "config"]) == GoRouter.Config(cfg, site)
  {
  }

  lemma ConfigSubPath(cfg: SitesConfig, site: string)
    requires site in cfg.sites && site != "" && '/' !in site
    ensures var path := "/" + site + "/" + ("api" + "/" + "config");
      && NodeRouter.PathRoute(cfg, path) == NodeRouter.Config(cfg, site)
      && PhpRouter.PathRoute(cfg, path) == LoadedConfig(Php, cfg, site)
      && PythonRouter.PathRoute(cfg, path) == PythonRouter.Config(cfg, site)
  {
    var rest := "api" + "/" + "config";
    assert rest == "api/config";
    SubPathRule(cfg, site, rest);
    PythonSubPathRule(cfg, site, rest);
  }

  /**
   * "/site" without the trailing slash: Go, Node and PHP render the login
   * page with base "/site"; Flask redirects to "/site/".
   */
  lemma SiteWithoutSlash(cfg: SitesConfig, site: string)
    requires WellFormed(cfg)
    requires site in cfg.sites && cfg.sites[site].enabled
    requires site != "" && '/' !in site
    ensures GoRouter.PathRoute(cfg, "/" + site) == GoRouter.Render(cfg, site, "login", "/" + site)
    ensures NodeRouter.PathRoute(cfg, "/" + site) == CheckedRender(Node, cfg, site, "login", "/" + site)
    ensures PhpRouter.PathRoute(cfg, "/" + site) == CheckedRender(Php, cfg, site, "login", "/" + site)
    ensures PythonRouter.PathRoute(cfg, "/" + site) == Redirect("/" + site + "/")
  {
    GoRouter.SiteIndexAliases(cfg, site);
    PathSplitRoundTrip(site, "");
    PythonRouter.RedirectThenLogin(cfg, site);
  }

  /**
   * "/cdn/..." on a host that is not mapped: Go proxies it, Node reads
   * "cdn" as a site name (the other two have no CDN route either).
   */
  lemma CdnOnlyInGo(cfg: SitesConfig, domains: map<string, string>, host: string, rest: string)
    requires WellFormed(cfg)
    requires StripPort(host) !in domains && StripPort(host) !in Json.InheritedNames
    ensures GoRouter.Route(cfg, domains, host, "/cdn/" + rest) == CdnProxy("/cdn/" + rest)
    ensures NodeRouter.Route(cfg, domains, host, "/cdn/" + rest) == NodeRouter.SiteRoute(cfg, "cdn", rest)
  {
    assert ("/cdn/" + rest)[..5] == "/cdn/";
    assert "/cdn/" + rest == "/" + "cdn" + "/" + rest;
    PathSplitRoundTrip("cdn", rest);
  }

  /**
   * A domain mapped to the empty site name: Node's truthiness test treats
   * the host as unmapped and routes the path; PHP and Python look the
   * empty name up and answer 404.
   */
  lemma DomainMappedToEmpty(cfg: SitesConfig, domains: map<string, string>, host: string, path: string)
    requires StripPort(host) in domains && domains[StripPort(host)] == ""
    requires "" !in cfg.sites
    requires path != "/" && path != ""
    ensures NodeRouter.Route(cfg, domains, host, path) == NodeRouter.PathRoute(cfg, path)
    ensures PhpRouter.Route(cfg, domains, host, path) == NotFound("Site not found")
    ensures PythonRouter.Route(cfg, domains, host, path) == NotFound(PythonRouter.AbortText)
  {
  }

  /**
   * "/dir/page.html" on a host mapped to an enabled site: Go renders the
   * nested template "pages/dir/page.html", Node and PHP answer 404 (a page
   * name is `[a-z_]+`), and Flask passes the request to path mode, which
   * renders page `page` of the site named `dir`.
   */
  lemma NestedDomainPage(cfg: SitesConfig, site: string, dir: string, page: string)
    requires WellFormed(cfg)
    requires site in cfg.sites && cfg.sites[site].enabled
    requires dir != "" && '/' !in dir && dir != "static" && dir != "api"
    requires page != "" && '/' !in page && page != "index"
    ensures var path := "/" + dir + "/" + (page + ".html");
      && GoRouter.DomainRoute(cfg, site, path) == GoRouter.Render(cfg, site, dir + "/" + page, "/")
      && NodeRouter.DomainRoute(cfg, site, path) == NotFound(NodeRouter.NotFoundText)
      && PhpRouter.DomainRoute(cfg, site, path) == NotFound(PhpRouter.NotFoundText)
      && PythonRouter.DomainHook(cfg, site, path) == None
      && PythonRouter.PathRoute(cfg, path) == PythonRouter.Render(cfg, dir, page, "/" + dir)
  {
    var rest := page + ".html";
    assert rest[|rest| - 5..] == ".html";
    NestedPathShape(dir, page);
    GoNestedPage(cfg, site, dir, page);
    PythonRouter.HookPassesOver(cfg, site, dir, rest);
    PythonRouter.PageRule(cfg, dir, page);
  }

  /** Go's domain rule strips the leading '/' and ".html" and keeps the rest, '/' included. */
  lemma GoNestedPage(cfg: SitesConfig, site: string, dir: string, page: string)
    requires WellFormed(cfg)
    requires site in cfg.sites && cfg.sites[site].enabled
    requires dir != "" && '/' !in dir && dir != "static" && dir != "api"
    ensures GoRouter.DomainRoute(cfg, site, "/" + dir + "/" + (page + ".html"))
            == GoRouter.Render(cfg, site, dir + "/" + page, "/")
  {
    NestedPathShape(dir, page);
  }

  /** What the routers test of "/dir/page.html". */
  lemma NestedPathShape(dir: string, page: string)
    requires dir != "" && '/' !in dir && dir != "static" && dir != "api"
    ensures var path := "/" + dir + "/" + (page + ".html");
      && !StartsWith(path, "/static/") && !StartsWith(path, "/api/config")
      && path != "/" && path != "" && path != "/index.html" && path != "/api/config"
      && EndsWith(path, ".html")
      && TrimSuffix(TrimPrefix(path, "/"), ".html") == dir + "/" + page
      && path[0] == '/' && HtmlPage(path[1..]) == None
  {
    var rest := page + ".html";
    var path := "/" + dir + "/" + rest;
    PythonRouter.NotUnderStatic(dir, rest);
    assert path[..|dir| + 2] == "/" + dir + "/";
    NotApiConfig(path, dir);
    NestedPageName(dir, page);
    TwoSegments(dir, rest);
  }

  /** Go's page name for "/dir/page.html" keeps the directory. */
  lemma NestedPageName(dir: string, page: string)
    ensures var path := "/" + dir + "/" + (page + ".html");
      && EndsWith(path, ".html")
      && TrimSuffix(TrimPrefix(path, "/"), ".html") == dir + "/" + page
  {
    var name := dir + "/" + page;
    var file := name + ".html";
    assert "/" + dir + "/" + (page + ".html") == "/" + file;
    AppendedSuffix(name, ".html");
    EndsWithAfter("/", file, ".html");
    GoRouter.TrimSlash(file);
  }

  /** A path of two segments is none of the one-segment paths, nor a page name. */
  lemma TwoSegments(dir: string, rest: string)
    requires dir != "" && '/' !in dir
    requires EndsWith(rest, ".html")
    ensures var path := "/" + dir + "/" + rest;
      && path != "/" && path != "" && path != "/index.html" && path != "/api/config"
      && path[0] == '/' && HtmlPage(path[1..]) == None
  {
    var path := "/" + dir + "/" + rest;
    assert path[1..] == dir + "/" + rest;
    assert path[1..][|dir|] == '/';
    NotPageName(path[1..], |dir|);
    assert path[|path| - 5..] == ".html";
    assert path[|dir| + 1] == '/';
    assert '/' !in "index.html";
    assert "/api/config"[|"/api/config"| - 5..] != ".html";
  }

  /** A path whose first segment is not "api" does not start with "/api/config". */
  lemma NotApiConfig(path: string, dir: string)
    requires dir != "" && '/' !in dir
    requires StartsWith(path, "/" + dir + "/")
    requires dir != "api"
    ensures !StartsWith(path, "/api/config")
  {
    var p := "/api/config";
    var k := |dir|;
    if |path| >= |p| {
      assert path[..k + 2][k + 1] == '/';
      if k < 3 {
        assert path[..|p|][k + 1] == path[k + 1];
        assert p[k + 1] != '/';
      } else if k > 3 {
        assert path[..|p|][4] == path[4] == dir[3];
        assert p[4] == '/';
      } else {
        assert path[..|p|][1..4] == path[1..4] == dir;
        assert p[1..4] == "api";
      }
    }
  }

  /** A string with a '/' is not `[a-z_]+\.html`. */
  lemma NotPageName(s: string, k: nat)
    requires k < |s| && s[k] == '/'
    ensures HtmlPage(s) == None
  {
    assert !IsPageChar(s[k]);
  }
}
