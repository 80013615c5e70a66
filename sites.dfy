/**
 * The sites configuration the four servers share (sites/sites.json and
 * each site's config.json), the domain map they build from it at start-up,
 * the Host-header lookup, and the template-path choice of
 * `renderSitePageWithBasePath`.
 */
module Sites {
  import opened Wrappers
  import opened Strs
  import Json
  import GoConfig

  /**
   * The state of a site's config.json on disk: absent, not JSON, or a
   * JSON object with these members.
   */
  datatype ConfigFile = Missing | Malformed | Parsed(doc: map<string, Json.Value>)

  /**
   * One entry of `sites` in sites.json, with what the servers find on disk
   * for it: its config file, whether its templates directory exists, and
   * the template files under it (as paths relative to that directory).
   */
  datatype Site = Site(
    enabled: bool,
    domains: seq<string>,
    order: Option<int>,
    config: ConfigFile,
    pageKeys: seq<string>,
    hasTemplateDir: bool,
    templates: set<string>)

  /**
   * sites.json: the sites, the order in which the server's map iteration
   * visits them, and the `domain_mapping` entries in file order.
   */
  datatype SitesConfig = SitesConfig(
    sites: map<string, Site>,
    siteOrder: seq<string>,
    domainMapping: seq<(string, string)>)

  /**
   * The iteration order lists the sites, and a site without a templates
   * directory has no template files.
   */
  predicate WellFormed(cfg: SitesConfig) {
    && (forall i | 0 <= i < |cfg.siteOrder| :: cfg.siteOrder[i] in cfg.sites)
    && (forall n | n in cfg.sites :: n in cfg.siteOrder)
    && (forall n | n in cfg.sites && !cfg.sites[n].hasTemplateDir :: cfg.sites[n].templates == {})
  }

  datatype Server = Go | Node | Php | Python

  /**
   * Whether the server holds the site's configuration after start-up. Go
   * keeps it if it decodes into its typed `Config` struct; Node keeps any
   * object (a malformed file aborts start-up, which is not modelled); PHP
   * only a non-empty array. Python reads the file on each request instead,
   * and an empty dict counts as missing.
   */
  predicate ConfigLoaded(server: Server, site: Site) {
    match server
    case Go => site.enabled && site.config.Parsed? && GoConfig.Decodes(site.config.doc)
    case Node => site.enabled && site.config.Parsed?
    case Php => site.enabled && site.config.Parsed? && site.config.doc != map[]
    case Python => site.config.Parsed? && site.config.doc != map[]
  }

  /** Whose `domains` enter the domain map: Go also skips a site whose config failed to load. */
  predicate ContributesDomains(server: Server, site: Site) {
    if server == Go then ConfigLoaded(Go, site) else site.enabled
  }

  /** `m` with each domain of `ds` mapped to `name`, in order. */
  function AddDomains(m: map<string, string>, ds: seq<string>, name: string): map<string, string> {
    if ds == [] then m else AddDomains(m, ds[..|ds| - 1], name)[ds[|ds| - 1] := name]
  }

  /** The domain map after the loop over the sites visited in `order`. */
  function SiteDomains(server: Server, sites: map<string, Site>, order: seq<string>): map<string, string>
    requires forall i | 0 <= i < |order| :: order[i] in sites
  {
    if order == [] then map[]
    else
      var prev := SiteDomains(server, sites, order[..|order| - 1]);
      var name := order[|order| - 1];
      if ContributesDomains(server, sites[name]) then AddDomains(prev, sites[name].domains, name) else prev
  }

  /** `m` overridden by the `domain_mapping` entries, later entries winning. */
  function Overlay(m: map<string, string>, mapping: seq<(string, string)>): map<string, string> {
    if mapping == [] then m
    else Overlay(m, mapping[..|mapping| - 1])[mapping[|mapping| - 1].0 := mapping[|mapping| - 1].1]
  }

  /** The domain map each server builds at start-up. */
  function DomainMap(server: Server, cfg: SitesConfig): map<string, string>
    requires WellFormed(cfg)
  {
    Overlay(SiteDomains(server, cfg.sites, cfg.siteOrder), cfg.domainMapping)
  }

  /** The start-up loops that fill the domain map. */
  method BuildDomainMap(server: Server, cfg: SitesConfig) returns (m: map<string, string>)
    requires WellFormed(cfg)
    ensures m == DomainMap(server, cfg)
  {
    m := map[];
    var i := 0;
    while i < |cfg.siteOrder|
      invariant 0 <= i <= |cfg.siteOrder|
      invariant m == SiteDomains(server, cfg.sites, cfg.siteOrder[..i])
    {
      assert cfg.siteOrder[..i + 1][..i] == cfg.siteOrder[..i];
      var name := cfg.siteOrder[i];
      var site := cfg.sites[name];
      if ContributesDomains(server, site) {
        ghost var base := m;
        var j := 0;
        while j < |site.domains|
          invariant 0 <= j <= |site.domains|
          invariant m == AddDomains(base, site.domains[..j], name)
        {
          assert site.domains[..j + 1][..j] == site.domains[..j];
          m := m[site.domains[j] := name];
          j := j + 1;
        }
        assert site.domains[..|site.domains|] == site.domains;
      }
      i := i + 1;
    }
    assert cfg.siteOrder[..|cfg.siteOrder|] == cfg.siteOrder;
    var k := 0;
    ghost var sitesPart := m;
    while k < |cfg.domainMapping|
      invariant 0 <= k <= |cfg.domainMapping|
      invariant m == Overlay(sitesPart, cfg.domainMapping[..k])
    {
      assert cfg.domainMapping[..k + 1][..k] == cfg.domainMapping[..k];
      m := m[cfg.domainMapping[k].0 := cfg.domainMapping[k].1];
      k := k + 1;
    }
    assert cfg.domainMapping[..|cfg.domainMapping|] == cfg.domainMapping;
  }

  lemma {:induction false} AddDomainsSpec(m: map<string, string>, ds: seq<string>, name: string)
    ensures forall d :: d in AddDomains(m, ds, name) <==> d in m || d in ds
    ensures forall d | d in ds :: AddDomains(m, ds, name)[d] == name
    ensures forall d | d in m && d !in ds :: AddDomains(m, ds, name)[d] == m[d]
  {
    if ds != [] {
      AddDomainsSpec(m, ds[..|ds| - 1], name);
      assert ds == ds[..|ds| - 1] + [ds[|ds| - 1]];
    }
  }

  /**
   * A domain of the site-driven map belongs to some contributing site,
   * and it names a contributing site that lists it.
   */
  lemma {:induction false} SiteDomainsSpec(server: Server, sites: map<string, Site>, order: seq<string>)
    requires forall i | 0 <= i < |order| :: order[i] in sites
    ensures forall d :: d in SiteDomains(server, sites, order) <==>
      exists i | 0 <= i < |order| :: ContributesDomains(server, sites[order[i]]) && d in sites[order[i]].domains
    ensures forall d | d in SiteDomains(server, sites, order) ::
      var n := SiteDomains(server, sites, order)[d];
      n in sites && n in order && ContributesDomains(server, sites[n]) && d in sites[n].domains
  {
    if order != [] {
      var init := order[..|order| - 1];
      var name := order[|order| - 1];
      SiteDomainsSpec(server, sites, init);
      var prev := SiteDomains(server, sites, init);
      if ContributesDomains(server, sites[name]) {
        AddDomainsSpec(prev, sites[name].domains, name);
      }
      var now := SiteDomains(server, sites, order);
      var adds := ContributesDomains(server, sites[name]);
      assert now == if adds then AddDomains(prev, sites[name].domains, name) else prev;
      forall d ensures d in now <==>
        exists i | 0 <= i < |order| :: ContributesDomains(server, sites[order[i]]) && d in sites[order[i]].domains
      {
        if d in now {
          if d in prev {
            var i :| 0 <= i < |init| && ContributesDomains(server, sites[init[i]]) && d in sites[init[i]].domains;
            assert order[i] == init[i];
          } else {
            assert adds && d in sites[name].domains && order[|order| - 1] == name;
          }
        }
        if exists i | 0 <= i < |order| :: ContributesDomains(server, sites[order[i]]) && d in sites[order[i]].domains {
          var i :| 0 <= i < |order| && ContributesDomains(server, sites[order[i]]) && d in sites[order[i]].domains;
          if i < |init| {
            assert order[i] == init[i];
            assert d in prev;
          } else {
            assert order[i] == name;
          }
        }
      }
    }
  }

  lemma {:induction false} OverlaySpec(m: map<string, string>, mapping: seq<(string, string)>)
    ensures forall d :: d in Overlay(m, mapping) <==> d in m || exists k | 0 <= k < |mapping| :: mapping[k].0 == d
    ensures forall d | d in m && (forall k | 0 <= k < |mapping| :: mapping[k].0 != d) :: Overlay(m, mapping)[d] == m[d]
    ensures forall k | 0 <= k < |mapping| && (forall k' | k < k' < |mapping| :: mapping[k'].0 != mapping[k].0) ::
      Overlay(m, mapping)[mapping[k].0] == mapping[k].1
  {
    if mapping != [] {
      var init := mapping[..|mapping| - 1];
      OverlaySpec(m, init);
      forall d ensures d in Overlay(m, mapping) <==> d in m || exists k | 0 <= k < |mapping| :: mapping[k].0 == d {
        if exists k | 0 <= k < |mapping| :: mapping[k].0 == d {
          var k :| 0 <= k < |mapping| && mapping[k].0 == d;
          if k < |init| {
            assert init[k].0 == d;
          }
        }
      }
      forall k | 0 <= k < |mapping| && (forall k' | k < k' < |mapping| :: mapping[k'].0 != mapping[k].0)
        ensures Overlay(m, mapping)[mapping[k].0] == mapping[k].1
      {
        if k < |init| {
          assert init[k] == mapping[k];
          assert forall k' | k < k' < |init| :: init[k'] == mapping[k'];
        }
      }
    }
  }

  /**
   * The domain map holds exactly the domains of contributing sites and of
   * `domain_mapping`; a `domain_mapping` entry overrides the sites (the
   * last entry for a domain wins); any other domain names a contributing
   * site that lists it.
   */
  lemma DomainMapSpec(server: Server, cfg: SitesConfig)
    requires WellFormed(cfg)
    ensures var m := DomainMap(server, cfg);
      && (forall d :: d in m <==>
            (exists k | 0 <= k < |cfg.domainMapping| :: cfg.domainMapping[k].0 == d)
            || (exists i | 0 <= i < |cfg.siteOrder| ::
                  ContributesDomains(server, cfg.sites[cfg.siteOrder[i]]) && d in cfg.sites[cfg.siteOrder[i]].domains))
      && (forall k | 0 <= k < |cfg.domainMapping|
              && (forall k' | k < k' < |cfg.domainMapping| :: cfg.domainMapping[k'].0 != cfg.domainMapping[k].0) ::
            m[cfg.domainMapping[k].0] == cfg.domainMapping[k].1)
      && (forall d | d in m && (forall k | 0 <= k < |cfg.domainMapping| :: cfg.domainMapping[k].0 != d) ::
            m[d] in cfg.sites && ContributesDomains(server, cfg.sites[m[d]]) && d in cfg.sites[m[d]].domains)
  {
    SiteDomainsSpec(server, cfg.sites, cfg.siteOrder);
    OverlaySpec(SiteDomains(server, cfg.sites, cfg.siteOrder), cfg.domainMapping);
  }

  /** The Host header without its port: everything before the first ':'. */
  function StripPort(host: string): (h: string)
    ensures ':' !in h && StartsWith(host, h)
    ensures ':' !in host ==> h == host
  {
    match IndexOf(host, ':')
    case None => host
    case Some(i) => host[..i]
  }

  /** A host and port: the port goes. */
  lemma StripPortDropsPort(name: string, port: string)
    requires ':' !in name
    ensures StripPort(name + ":" + port) == name
  {
    var s := name + ":" + port;
    assert s[|name|] == ':';
    assert s[..|name|] == name;
  }

  /**
   * The site a request's Host header is mapped to. Node looks the host up
   * by truthiness, so a domain mapped to "" counts as unmapped there.
   */
  function HostSite(server: Server, domains: map<string, string>, host: string): (r: Option<string>)
    ensures r.Some? ==> StripPort(host) in domains && r.value == domains[StripPort(host)]
    ensures r.None? <==> StripPort(host) !in domains || (server == Node && domains[StripPort(host)] == "")
  {
    var h := StripPort(host);
    if h in domains && (server != Node || domains[h] != "") then Some(domains[h]) else None
  }

  /** The template a page name renders. */
  function TemplatePath(pageName: string): string {
    "pages/" + pageName + ".html"
  }

  /**
   * The lookup in `renderSitePageWithBasePath`: scan the configured page
   * keys for the page name, else fall back to the default path. Both
   * routes give the same path; only whether a page config was found differs.
   */
  method FindTemplate(pageKeys: seq<string>, pageName: string) returns (templatePath: string, configured: bool)
    ensures templatePath == TemplatePath(pageName)
    ensures configured <==> pageName in pageKeys
  {
    templatePath, configured := "", false;
    var i := 0;
    while i < |pageKeys|
      invariant 0 <= i <= |pageKeys|
      invariant pageName !in pageKeys[..i]
      invariant templatePath == "" && !configured
    {
      if pageKeys[i] == pageName {
        templatePath := "pages/" + pageKeys[i] + ".html";
        configured := true;
        break;
      }
      assert pageKeys[..i + 1] == pageKeys[..i] + [pageKeys[i]];
      i := i + 1;
    }
    if templatePath == "" {
      assert pageKeys[..|pageKeys|] == pageKeys;
      templatePath := "pages/" + pageName + ".html";
    }
  }
}
