/**
 * What the four interchangeable servers (Go, Node, PHP, Python) decide for
 * a request, and the pieces of that decision they share: the path-mode
 * pattern `^/([^/]+)(/(.*))?$`, the page pattern `[a-z_]+\.html`, and the
 * checks Node and PHP make before rendering a page.
 */
module Routing {
  import opened Wrappers
  import opened Strs
  import opened Sites

  /** A route decision; the body writing and template engines are not modelled. */
  datatype Outcome =
    | TooManyRequests
    | CdnProxy(path: string)
    | HomePage
      /** A file of the site, as a path relative to the site's directory. */
    | StaticFile(site: string, relPath: string)
      /** The site's config as the server holds it, sent as JSON: for Go, its struct re-encoded (`GoConfig.Encoded`). */
    | SiteConfig(site: string)
      /** Render the page `page`, whose template is `TemplatePath(page)`. */
    | Render(site: string, page: string, basePath: string)
    | Redirect(location: string)
    | NotFound(message: string)
    | ServerError(message: string)
      /** 200 with this text as the JSON body. */
    | ConfigText(body: string)
      /** An exception escapes the request callback and the server process dies. */
    | Crash

  /** Everything the server needs to render `templatePath` of `site`. */
  predicate Renderable(server: Server, cfg: SitesConfig, site: string, templatePath: string) {
    && site in cfg.sites
    && cfg.sites[site].enabled
    && ConfigLoaded(server, cfg.sites[site])
    && cfg.sites[site].hasTemplateDir
    && templatePath in cfg.sites[site].templates
  }

  predicate IsPageChar(c: char) {
    ('a' <= c <= 'z') || c == '_'
  }

  /** A page name `[a-z_]+`: its template stays directly under pages/. */
  predicate PlainPageName(name: string) {
    name != "" && forall i | 0 <= i < |name| :: IsPageChar(name[i])
  }

  /** `^([a-z_]+)\.html$`: the page name, if `s` matches. */
  function HtmlPage(s: string): (r: Option<string>)
    ensures r.Some? <==> |s| > 5 && EndsWith(s, ".html") && forall i | 0 <= i < |s| - 5 :: IsPageChar(s[i])
    ensures r.Some? ==> r.value + ".html" == s && PlainPageName(r.value)
  {
    if |s| > 5 && EndsWith(s, ".html") && forall i | 0 <= i < |s| - 5 :: IsPageChar(s[i]) then
      assert s == s[..|s| - 5] + ".html";
      Some(s[..|s| - 5])
    else None
  }

  /** A page name of lower-case letters and underscores is matched back. */
  lemma HtmlPageOfName(name: string)
    requires PlainPageName(name)
    ensures HtmlPage(name + ".html") == Some(name)
  {
    var s := name + ".html";
    assert s[|s| - 5..] == ".html";
    assert forall i | 0 <= i < |s| - 5 :: s[i] == name[i];
    assert s[..|s| - 5] == name;
  }

  /**
   * `^/([^/]+)(/(.*))?$`: the site segment and the rest after its '/', or
   * "" when there is none.
   */
  function PathSplit(path: string): (r: Option<(string, string)>)
    ensures r.Some? ==> r.value.0 != "" && '/' !in r.value.0
    ensures r.Some? ==> path == "/" + r.value.0 || path == "/" + r.value.0 + "/" + r.value.1
    ensures r.None? <==> |path| < 2 || path[0] != '/' || path[1] == '/'
  {
    if |path| >= 2 && path[0] == '/' && path[1] != '/' then
      var rest := path[1..];
      match IndexOf(rest, '/')
      case None => Some((rest, ""))
      case Some(i) =>
        assert rest == rest[..i] + "/" + rest[i + 1..];
        Some((rest[..i], rest[i + 1..]))
    else None
  }

  /** The pattern gives back the site and the rest it was built from. */
  lemma PathSplitRoundTrip(site: string, rest: string)
    requires site != "" && '/' !in site
    ensures PathSplit("/" + site) == Some((site, ""))
    ensures PathSplit("/" + site + "/" + rest) == Some((site, rest))
  {
    var p := "/" + site + "/" + rest;
    assert p[1..] == site + "/" + rest;
    assert (site + "/" + rest)[|site|] == '/';
    assert (site + "/" + rest)[..|site|] == site;
    assert IndexOf(site + "/" + rest, '/') == Some(|site|);
    assert (site + "/" + rest)[|site| + 1..] == rest;
    assert ("/" + site)[1..] == site;
  }

  function NotEnabledMessage(site: string): string {
    "站点 " + site + " 尚未启用"
  }

  /**
   * `renderSitePageWithBasePath` of Node (server.js) and PHP (index.php):
   * the site must exist, be enabled, have its config loaded and its
   * templates directory, and the template must exist.
   */
  function CheckedRender(server: Server, cfg: SitesConfig, site: string, page: string, basePath: string): (o: Outcome)
    requires server == Node || server == Php
    ensures o.Render? <==> Renderable(server, cfg, site, TemplatePath(page))
    ensures o.Render? ==> o == Render(site, page, basePath)
    ensures !o.Render? ==> o.NotFound?
    ensures site in cfg.sites && !cfg.sites[site].enabled ==> o == NotFound(NotEnabledMessage(site))
  {
    if site !in cfg.sites then NotFound("Site not found")
    else if !cfg.sites[site].enabled then NotFound(NotEnabledMessage(site))
    else if !ConfigLoaded(server, cfg.sites[site]) then NotFound("站点 " + site + " 配置不存在")
    else if !cfg.sites[site].hasTemplateDir then NotFound("站点 " + site + " 模板目录不存在")
    else if TemplatePath(page) !in cfg.sites[site].templates then NotFound("模板不存在: " + TemplatePath(page))
    else Render(site, page, basePath)
  }

  /** The `/api/config` answer of Node and PHP: the config loaded at start-up, or 404. */
  function LoadedConfig(server: Server, cfg: SitesConfig, site: string): (o: Outcome)
    requires server == Node || server == Php
    ensures o == SiteConfig(site) <==> site in cfg.sites && ConfigLoaded(server, cfg.sites[site])
    ensures o != SiteConfig(site) ==> o == NotFound("Config not found")
  {
    if site in cfg.sites && ConfigLoaded(server, cfg.sites[site]) then SiteConfig(site)
    else NotFound("Config not found")
  }
}
