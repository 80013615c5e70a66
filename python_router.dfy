/**
 * The Flask server (servers/python/app.py): the `before_request` hook that
 * serves mapped domains, the URL rules of path mode, and
 * `render_site_page_with_base_path`. Unlike the other servers it reads a
 * site's config.json on every request, so an unreadable file is a 500,
 * and a hook that returns nothing lets the request fall through to the
 * URL rules.
 */
module PythonRouter {
  import opened Wrappers
  import opened Strs
  import opened Sites
  import opened Routing

  /** The body of `abort(404)` without a description. */
  const AbortText: string := "Not Found"
  /** The body of the 500 a config.json that is not JSON raises. */
  const ErrorText: string := "Internal Server Error"

  /** `render_site_page_with_base_path`. */
  function Render(cfg: SitesConfig, site: string, page: string, basePath: string): (o: Outcome)
    ensures o.Render? <==> Renderable(Python, cfg, site, TemplatePath(page))
    ensures o.Render? ==> o == Outcome.Render(site, page, basePath)
    ensures o.ServerError? <==> site in cfg.sites && cfg.sites[site].enabled && cfg.sites[site].config == Malformed
    ensures !o.Render? && !o.ServerError? ==> o.NotFound?
    ensures site in cfg.sites && !cfg.sites[site].enabled ==> o == NotFound(NotEnabledMessage(site))
  {
    if site !in cfg.sites then NotFound(AbortText)
    else if !cfg.sites[site].enabled then NotFound(NotEnabledMessage(site))
    else if cfg.sites[site].config == Malformed then ServerError(ErrorText)
    else if !ConfigLoaded(Python, cfg.sites[site]) then NotFound("站点 " + site + " 配置不存在")
    else if !cfg.sites[site].hasTemplateDir then NotFound("站点 " + site + " 模板目录不存在")
    else if TemplatePath(page) !in cfg.sites[site].templates then NotFound("模板不存在: " + TemplatePath(page))
    else Outcome.Render(site, page, basePath)
  }

  /** `site_api_config`: the site must exist; whether it is enabled is not asked. */
  function Config(cfg: SitesConfig, site: string): (o: Outcome)
    ensures o == SiteConfig(site) <==> site in cfg.sites && ConfigLoaded(Python, cfg.sites[site])
    ensures o.ServerError? <==> site in cfg.sites && cfg.sites[site].config == Malformed
    ensures o != SiteConfig(site) && !o.ServerError? ==> o == NotFound(AbortText)
  {
    if site !in cfg.sites then NotFound(AbortText)
    else if cfg.sites[site].config == Malformed then ServerError(ErrorText)
    else if ConfigLoaded(Python, cfg.sites[site]) then SiteConfig(site)
    else NotFound(AbortText)
  }

  /**
   * `handle_domain_mapping` for a host mapped to `site`: an answer, or
   * None when no rule applies and the URL rules take over.
   */
  function DomainHook(cfg: SitesConfig, site: string, path: string): (r: Option<Outcome>)
    ensures (site !in cfg.sites || !cfg.sites[site].enabled) ==> r == Some(NotFound(AbortText))
    ensures r.None? ==> site in cfg.sites && cfg.sites[site].enabled && !StartsWith(path, "/static/")
                        && path != "/api/config" && path != "/" && path != "" && path != "/index.html"
                        && !(EndsWith(path, ".html") && Count(path, '/') == 1)
    ensures r.Some? && r.value.StaticFile? ==> StartsWith(path, "/static/") && r.value == StaticFile(site, path[1..])
    ensures r.Some? && r.value.Render? ==> r.value.site == site && r.value.basePath == "/"
                                           && Renderable(Python, cfg, site, TemplatePath(r.value.page))
  {
    if site !in cfg.sites || !cfg.sites[site].enabled then Some(NotFound(AbortText))
    else if StartsWith(path, "/static/") then Some(StaticFile(site, path[1..]))
    else if path == "/api/config" then Some(Config(cfg, site))
    else if path == "/" || path == "" || path == "/index.html" then Some(Render(cfg, site, "login", "/"))
    else if EndsWith(path, ".html") && Count(path, '/') == 1 then Some(Render(cfg, site, HookPage(path), "/"))
    else None
  }

  /** `path[1:-5]`: the Count test rules out ".html" itself, so the slice is in range. */
  function HookPage(path: string): (page: string)
    requires EndsWith(path, ".html") && Count(path, '/') == 1
    ensures [path[0]] + page + ".html" == path
  {
    assert |path| > 5 by {
      assert |path| == 5 ==> path == ".html";
      assert '/' !in ".html";
    }
    assert path == [path[0]] + path[1..|path| - 5] + ".html";
    path[1..|path| - 5]
  }

  /**
   * The URL rules of path mode: `/`, `/<site_name>/`,
   * `/<site_name>/index.html`, `/<site_name>/<page_name>.html`,
   * `/<site_name>/api/config` and `/<site_name>/static/<path:filename>`.
   * A segment matches `[^/]+`, a `path` variable `[^/].*`; "/site" is
   * redirected (308) to the rule with the trailing slash.
   */
  function PathRoute(cfg: SitesConfig, path: string): (o: Outcome)
    ensures path == "/" ==> o == HomePage
    ensures o.Redirect? <==> PathSplit(path).Some? && path == "/" + PathSplit(path).value.0
    ensures o.Redirect? ==> o.location == path + "/"
    ensures o.Render? ==> o.basePath == "/" + o.site && '/' !in o.page && o.page != ""
                          && Renderable(Python, cfg, o.site, TemplatePath(o.page))
    ensures o.StaticFile? ==> path == "/" + o.site + "/" + o.relPath && StartsWith(o.relPath, "static/")
                              && |o.relPath| > 7 && o.relPath[7] != '/'
  {
    if path == "/" then HomePage
    else match PathSplit(path)
      case None => NotFound(AbortText)
      case Some((site, rest)) =>
        if path == "/" + site then Redirect(path + "/")
        else SiteRule(cfg, site, rest)
  }

  /** The rules under "/site/", once the site segment is matched. */
  function SiteRule(cfg: SitesConfig, site: string, rest: string): (o: Outcome)
    ensures rest == "" || rest == "index.html" ==> o == Render(cfg, site, "login", "/" + site)
    ensures rest == "api/config" ==> o == Config(cfg, site)
    ensures o.Render? ==> o.site == site && o.basePath == "/" + site && '/' !in o.page && o.page != ""
                          && Renderable(Python, cfg, site, TemplatePath(o.page))
    ensures o.StaticFile? <==> StartsWith(rest, "static/") && |rest| > 7 && rest[7] != '/'
    ensures o.StaticFile? ==> o == StaticFile(site, rest)
    ensures !o.Render? && !o.StaticFile? && !o.SiteConfig? ==> o.NotFound? || o.ServerError?
  {
    assert "index.html"[6] != '/' && "api/config"[6] != '/';
    if rest == "" || rest == "index.html" then Render(cfg, site, "login", "/" + site)
    else if rest == "api/config" then Config(cfg, site)
    else if StartsWith(rest, "static/") && |rest| > 7 && rest[7] != '/' then StaticFile(site, rest)
    else if '/' !in rest && |rest| > 5 && EndsWith(rest, ".html") then
      Render(cfg, site, rest[..|rest| - 5], "/" + site)
    else NotFound(AbortText)
  }

  /**
   * A request: a mapped host goes through the hook first (`request.host`
   * cut at the first ':'), then the URL rules.
   */
  function Route(cfg: SitesConfig, domains: map<string, string>, host: string, path: string): (o: Outcome)
    ensures HostSite(Python, domains, host).None? ==> o == PathRoute(cfg, path)
    ensures HostSite(Python, domains, host).Some? ==>
              var hook := DomainHook(cfg, HostSite(Python, domains, host).value, path);
              o == if hook.Some? then hook.value else PathRoute(cfg, path)
    ensures o.Render? ==> Renderable(Python, cfg, o.site, TemplatePath(o.page))
  {
    match HostSite(Python, domains, host)
    case None => PathRoute(cfg, path)
    case Some(site) =>
      match DomainHook(cfg, site, path)
      case Some(o) => o
      case None => PathRoute(cfg, path)
  }

  /** "/site" is sent to "/site/", which renders the login page with base "/site". */
  lemma RedirectThenLogin(cfg: SitesConfig, site: string)
    requires site != "" && '/' !in site
    ensures PathRoute(cfg, "/" + site) == Redirect("/" + site + "/")
    ensures PathRoute(cfg, "/" + site + "/") == Render(cfg, site, "login", "/" + site)
  {
    PathSplitRoundTrip(site, "");
    assert "/" + site + "/" == "/" + site + "/" + "";
  }

  /**
   * On a mapped host, a path the hook passes over is routed as if no host
   * were mapped: "/other/page.html" renders page `page` of site `other`,
   * with base "/other".
   */
  lemma NestedPathFallsThrough(cfg: SitesConfig, domains: map<string, string>, host: string,
                               other: string, page: string)
    requires HostSite(Python, domains, host).Some?
    requires HostSite(Python, domains, host).value in cfg.sites
    requires cfg.sites[HostSite(Python, domains, host).value].enabled
    requires other != "" && '/' !in other && other != "static"
    requires page != "" && '/' !in page && page != "index"
    ensures Route(cfg, domains, host, "/" + other + "/" + page + ".html")
            == Render(cfg, other, page, "/" + other)
  {
    var path := "/" + other + "/" + (page + ".html");
    assert path == "/" + other + "/" + page + ".html";
    assert (page + ".html")[|page|..] == ".html";
    HookPassesOver(cfg, HostSite(Python, domains, host).value, other, page + ".html");
    PageRule(cfg, other, page);
  }

  /** The hook answers nothing for a page two segments deep that is not under /static/. */
  lemma HookPassesOver(cfg: SitesConfig, site: string, other: string, rest: string)
    requires site in cfg.sites && cfg.sites[site].enabled
    requires other != "" && '/' !in other && other != "static"
    requires EndsWith(rest, ".html")
    ensures DomainHook(cfg, site, "/" + other + "/" + rest) == None
  {
    var path := "/" + other + "/" + rest;
    assert path[1..] == other + "/" + rest;
    assert path[1..][|other|] == '/';
    assert Count(path, '/') == 1 + Count(path[1..], '/');
    NotUnderStatic(other, rest);
    assert path[|path| - 5..] == rest[|rest| - 5..];
    assert "/api/config"[|"/api/config"| - 5..] != ".html";
    assert "/index.html"[1..] == "index.html" && '/' !in "index.html";
  }

  /** A path whose first segment is not "static" is not under /static/. */
  lemma NotUnderStatic(other: string, rest: string)
    requires other != "" && '/' !in other && other != "static"
    ensures !StartsWith("/" + other + "/" + rest, "/static/")
  {
    var path := "/" + other + "/" + rest;
    var p := "/static/";
    var k := |other|;
    if |path| >= 8 {
      assert path[k + 1] == '/';
      if k < 6 {
        assert path[..8][k + 1] == path[k + 1];
        assert p[k + 1] != '/';
      } else if k > 6 {
        assert path[..8][7] == path[7] == other[6];
        assert p[7] == '/';
      } else {
        assert path[..8][1..7] == path[1..7] == other;
        assert p[1..7] == "static";
      }
    }
  }

  /** "/other/page.html" renders `page` of `other`, whichever host it came on. */
  lemma PageRule(cfg: SitesConfig, other: string, page: string)
    requires other != "" && '/' !in other
    requires page != "" && '/' !in page && page != "index"
    ensures PathRoute(cfg, "/" + other + "/" + (page + ".html")) == Render(cfg, other, page, "/" + other)
  {
    var rest := page + ".html";
    var path := "/" + other + "/" + rest;
    PathSplitRoundTrip(other, rest);
    assert path != "/" + other by { assert |path| > |"/" + other|; }
    assert PathRoute(cfg, path) == SiteRule(cfg, other, rest);
    PageRuleInSite(cfg, other, page);
  }

  /** Under a matched site, "page.html" is the page rule. */
  lemma PageRuleInSite(cfg: SitesConfig, site: string, page: string)
    requires page != "" && '/' !in page && page != "index"
    ensures SiteRule(cfg, site, page + ".html") == Render(cfg, site, page, "/" + site)
  {
    var rest := page + ".html";
    AppendedSuffix(page, ".html");
    assert '/' !in ".html";
    assert !StartsWith(rest, "static/") by {
      assert |rest| < 7 || rest[6] != '/';
      assert "static/"[6] == '/';
    }
    assert rest != "index.html" by {
      assert "index.html"[..5] == "index";
    }
    assert rest != "api/config" && rest != "";
  }
}
