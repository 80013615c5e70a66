# jinja-hub, modelled in Dafny

jinja-hub serves several small front-end sites from one directory tree.
`sites/sites.json` lists the sites. Each site has its own `config.json`,
its `templates/` and its `static/` files. Four interchangeable servers
(Go, Node, PHP and Python) route a request to a site in two ways:

- by a domain the site claims, or one listed under `domain_mapping`;
- by the path `/site/...`.

The Go and Node servers can also proxy and cache files of public CDNs
under `/cdn/`. The Go server additionally limits requests and traffic per
client address.

One of the sites, the Aliyun dashboard, is a browser application with its
own state:

- a localStorage-backed store of access keys, the current key and a default region;
- a cache with lifetimes;
- a client for the signed Aliyun RPC API;
- an error handler with retries;
- the two generic Alpine.js components built on these: the paginated,
  URL-synchronised resource table and the resource-detail page.

The project models:

- the route decision of each server, for every path and host;
- the domain map each server builds at start-up;
- the rate limiter;
- the CDN URL mapping, cache and prefetch;
- the response encoding;
- the site and page orderings;
- the dashboard's stores, request signing and parameter objects;
- the error handling and the two components.

State the source keeps in objects becomes classes:

- the limiter, the CDN file cache and the Go server;
- the three managers of `store.js`, the key store of `auth.js`, the error handler;
- the table and the detail page.

Everything that is pure logic becomes functions, with lemmas about them.
Modules:

| module | models |
|---|---|
| `Sites`, `Routing` | the shared configuration, domain map, host lookup, path pattern and render checks |
| `GoRouter`, `NodeRouter`, `PhpRouter`, `PythonRouter` | each server's dispatch |
| `GoConfig` | the Go server's typed site config: which files decode, and what it sends back |
| `Compare` | where the servers agree and where they differ |
| `Addr` | the `--addr` option of the Node and Python servers |
| `RateLimit` | the Go server's sliding-window limiter |
| `Respond` | content types, charset, gzip choice and the client address |
| `CdnMap`, `CdnCache` | the `/cdn/` URL mapping and the on-disk cache |
| `SiteOrder` | the order sites and pages are listed in |
| `Store`, `Auth`, `Credentials` | `store.js`, `auth.js` and what they share |
| `ApiParams`, `Percent`, `AliyunApi` | the request objects, RFC 3986 encoding and the API calls |
| `Json`, `FieldPath` | JSON values and the dotted field paths of the components |
| `ErrorHandling` | `error-handler.js` |
| `DataTable`, `ResourceManage` | the two component factories |
| `Strs`, `Wrappers` | string helpers, `Option` and `Result` |

Time, the file system, the network, gzip, HMAC-SHA1 and Base64 are
parameters of the operations that use them.

## Model

| member | source | states |
|---|---|---|
| `Sites.BuildDomainMap` | servers/go/main.go:227-251 | The start-up loops build exactly `DomainMap`: sites in iteration order, then `domain_mapping` on top. |
| `Sites.AddDomainsSpec` | servers/nodejs/server.js:53-57 | After the inner loop, each of the site's domains names the site; every other domain keeps its old entry. |
| `Sites.SiteDomainsSpec` | servers/go/main.go:227-246 | A domain is in the site-driven map iff some contributing site lists it. It then names a contributing site that lists it. |
| `Sites.OverlaySpec` | servers/nodejs/server.js:62-66 | `domain_mapping` adds its domains. The last entry for a domain wins. Other domains are untouched. |
| `Sites.DomainMapSpec` | servers/php/index.php:47-70 | The map holds exactly the domains of contributing sites and of `domain_mapping`. A mapping entry overrides the sites. Any other domain names a site that lists it. |
| `Sites.StripPort` | servers/go/main.go:318-322 | The host keeps what precedes the first ':'. A host without ':' is unchanged. |
| `Sites.StripPortDropsPort` | servers/nodejs/server.js:290-294 | "name:port" yields "name". |
| `Sites.HostSite` | servers/nodejs/server.js:296-301 | A host is mapped iff its portless form is in the map. Node, which tests truthiness, treats a mapping to "" as unmapped. |
| `Sites.FindTemplate` | servers/go/main.go:542-554 | The page lookup always yields `pages/<name>.html`. It reports a page config iff the name is a configured page key. |
| `Routing.HtmlPage` | servers/nodejs/server.js:409-414 | `^([a-z_]+)\.html$` matches exactly a non-empty name of `[a-z_]` followed by ".html", and yields that name. |
| `Routing.HtmlPageOfName` | servers/php/index.php:408-412 | Every `[a-z_]+` name followed by ".html" is matched back to the same name. |
| `Routing.PathSplit` | servers/nodejs/server.js:350-359 | `^/([^/]+)(/(.*))?$` matches iff the path starts with '/' followed by a non-'/' character. The path is rebuilt from the site segment and the rest. |
| `Routing.PathSplitRoundTrip` | servers/php/index.php:347-349 | "/site" and "/site/rest" are split back into the site and the rest they were built from. |
| `Routing.CheckedRender` | servers/nodejs/server.js:157-226 | Node and PHP render iff the site exists, is enabled, has its config loaded and its templates directory, and the template exists. A disabled site gets the "not enabled" message; every other failure is a 404. |
| `Routing.LoadedConfig` | servers/php/index.php:296-306 | `/api/config` answers with the site's config iff it was loaded at start-up, else "Config not found". |
| `Addr.AddrOption` | servers/nodejs/server.js:422-430 | The address is the default ":8080", or the value following some "--addr". |
| `Addr.FirstAddrOptionWins` | servers/nodejs/server.js:425-430 | The first "--addr" that has a value decides; later ones are ignored. |
| `Addr.NoAddrOption` | servers/nodejs/server.js:422-423 | Without an "--addr" followed by a value, the default is used. |
| `Addr.ScanArgs` | servers/nodejs/server.js:425-430 | The argv loop, which breaks at the first match, computes `AddrOption`. |
| `Addr.PyInt` | servers/python/app.py:238-248 | `int()` accepts exactly a non-empty run of decimal digits. |
| `Addr.NodeListen` | servers/nodejs/server.js:432-447 | ":port" and a bare port give no host. The host is the part before the first ':'. The port is `parseInt` of the rest. |
| `Addr.PyListen` | servers/python/app.py:238-248 | ":port" and a bare port listen on 0.0.0.0, so the host is never empty. |
| `Addr.HostPart` | servers/nodejs/server.js:439-443 | With a ':' present, the split has at least two parts, and the first is the ':'-free prefix. |
| `Addr.ListenRoundTrip` | servers/python/app.py:238-248 | "host:port" is read back as that host and port by both servers. Python reads a missing host as every interface. |
| `Addr.DefaultListen` | servers/python/app.py:233-235 | By default, both servers listen on port 8080. |
| `Addr.TrailingGarbage` | servers/nodejs/server.js:436-438 | ":8080x" listens on 8080 in Node, where `parseInt` drops the rest, and fails in Python. |
| `GoRouter.Render` | servers/go/main.go:523-561 | Go renders iff the site's config and template set were loaded at start-up and the template exists. Every failure is the plain 404. |
| `GoRouter.Config` | servers/go/main.go:433-442 | `/api/config` answers with the site's config iff Go loaded it, that is iff the site is enabled and its config.json decodes into Go's `Config` struct. Otherwise it answers 404. What Go sends is that struct re-encoded (`GoConfig.Encoded`), not the file. |
| `GoConfig.Field` | servers/go/main.go:187-190 | An absent member reads as null, which leaves the Go field at its zero value. |
| `GoConfig.Text` | servers/go/main.go:156-159 | A `string` field is written back as its text, or "" when it was null or absent. |
| `GoConfig.TextMap` | servers/go/main.go:160-163 | A `map[string]string` is written back with the same keys, each value a string, or as null when it was nil. |
| `GoConfig.SiteValue` | servers/go/main.go:156-159 | The `site` field is written back with exactly `title` and `description`, whatever else the file held. |
| `GoConfig.ApiValue` | servers/go/main.go:160-163 | The `api` field is written back with exactly `ecs` and `vpc`. |
| `GoConfig.ObjectMap` | servers/go/main.go:164-166 | A `map[string]map[string]interface{}` is written back as the object, or as null when it was nil. |
| `GoConfig.Encoded` | servers/go/main.go:155-167 | What `Encode(config)` sends has exactly the struct's five keys: `site`, `api`, `pages`, `tables`, `resource_manage`. |
| `GoConfig.EncodedKeepsFields` | servers/go/main.go:187-190 | The answer drops every key outside the struct. It keeps each object-valued table as it was and a string title as it was, and writes null for an absent or null table. |
| `GoConfig.EncodedIsStable` | servers/go/main.go:187-190 | What Go sends decodes again, and decoding it gives the same answer. |
| `GoConfig.TextMapStable` | servers/go/main.go:160-163 | A string map written back is a string map, and writing it back again changes nothing. |
| `GoConfig.EmptyIsZeroStruct` | servers/go/main.go:433-442 | A config.json holding `{}` loads, and is sent as the zero struct: empty title and description, null maps and tables. |
| `GoConfig.NumberInStringMap` | servers/go/main.go:187-190 | `"api": {"ecs": {"a": 1}}` does not decode, so the load fails. |
| `GoRouter.DomainRoute` | servers/go/main.go:392-430 | A missing or disabled site gives "Site not found". Static files are served only under "/static/", from the site named by the host. Pages render with base "/" and only when renderable. |
| `GoRouter.SegmentsRoute` | servers/go/main.go:346-389 | An unknown site gives 404, and a disabled one "Site not enabled", before any other rule. Static files come only from enabled sites. Pages render with base "/site". |
| `GoRouter.PathRoute` | servers/go/main.go:337-389 | Path mode renders only renderable templates, serves static files only of enabled sites, and never yields the home page. |
| `GoRouter.Route` | servers/go/main.go:311-389 | The order is: "/cdn/" first, then a mapped host, then the home page, then path mode. The home page is answered iff the path is "/", it is not CDN, and the host is unmapped. |
| `GoRouter.PathParts` | servers/go/main.go:338-339 | "/site/rest" splits into the site followed by the parts of rest. |
| `GoRouter.SiteIndexAliases` | servers/go/main.go:374-378 | "/site", "/site/" and "/site/index.html" route alike. For an enabled site, they render the login page with base "/site". |
| `GoRouter.SingleSegmentPath` | servers/go/main.go:338-346 | "/site" has the one part [site]. |
| `GoRouter.SegmentPath` | servers/go/main.go:338-346 | "/site/seg" has the parts [site, seg]. |
| `GoRouter.LoginSegments` | servers/go/main.go:375-378 | The parts [site], [site, ""] and [site, "index.html"] route alike, to the login page. |
| `GoRouter.DomainPagePath` | servers/go/main.go:416-427 | "/p.html" escapes the static and config rules, and yields page p. It is the index alias iff p is "index". |
| `GoRouter.NotReserved` | servers/go/main.go:403-413 | A path with no further '/' is neither static nor config. |
| `GoRouter.PathAndDomainAgree` | servers/go/main.go:374-427 | A page reached by path and by domain renders the same template; only the base path differs. "index" is the login page in both. |
| `GoRouter.PageSegments` | servers/go/main.go:380-385 | [site, "p.html"] renders page p of an enabled site with base "/site" ("index" becomes "login"). |
| `GoRouter.Server.constructor` | servers/go/main.go:216-251 | Start-up holds the configuration, the domain map built from it, and a fresh, empty limiter. |
| `GoRouter.Server.HandleAllRoutes` | servers/go/main.go:297-389 | The rate check on the client address precedes routing. A refused request gets 429 and leaves the limiter unchanged. An admitted one is routed by `Route`. |
| `NodeRouter.InheritedText` | servers/nodejs/server.js:297-299 | The text of an inherited value holds a space, so it is never itself an inherited name. |
| `NodeRouter.InheritedJson` | servers/nodejs/server.js:397-398 | The body is "{}" exactly for "__proto__", and empty for every other inherited name. |
| `NodeRouter.Config` | servers/nodejs/server.js:389-400 | The loaded config is sent iff the site's config loaded. Otherwise an inherited name is a 200 with that name's JSON text, and anything else is 404 "Config not found". For a name that is not inherited, this is the rule the servers share. |
| `NodeRouter.RenderPage` | servers/nodejs/server.js:157-172 | A configured site goes through the shared render checks. An inherited name fails the `enabled` test, and any other name is "Site not found". |
| `NodeRouter.DomainRoute` | servers/nodejs/server.js:84-152 | A name that is neither configured nor inherited gives "Site not found". A disabled site or an inherited name gives the "not enabled" message. Static files are served only under "/static/" of that site. Configs come only from loaded sites. Pages render only for `[a-z_]+` names, with base "/", when renderable. It never answers the home page. |
| `NodeRouter.PathRoute` | servers/nodejs/server.js:350-418 | A path the pattern rejects is a 404, and any other goes to `SiteRoute`. Rendered pages have plain names and base "/site". Configs come only from loaded sites. |
| `NodeRouter.SiteRoute` | servers/nodejs/server.js:358-418 | Configured sites and inherited names pass the existence test, and everything else is "Site not found". No enabled check precedes the static and config rules, so a disabled site's static files are served. `api/config` is answered by `Config`. An inherited JSON text is answered only for an inherited name's `api/config`. Pages render with base "/site". |
| `NodeRouter.InheritedConfigRoute` | servers/nodejs/server.js:358-400 | "/name/api/config", for an inherited name no site uses, is a 200 with that name's JSON text. |
| `NodeRouter.InheritedSiteConfig` | servers/nodejs/server.js:389-398 | "/constructor/api/config" is a 200 with an empty body, and "/__proto__/api/config" is a 200 with "{}". |
| `NodeRouter.Route` | servers/nodejs/server.js:285-419 | A truthily mapped host goes to `DomainRoute`. An inherited host name that no domain claims goes to `DomainRoute`, with the inherited value's text as the site. The home page is answered iff the host is neither, and the path is "/" or "". |
| `NodeRouter.InheritedHostNotFound` | servers/nodejs/server.js:297-299 | Host "constructor", when no site has the inherited value's text as its name, answers "Site not found" on every path. |
| `NodeRouter.Serve` | servers/nodejs/server.js:285-294 | A request without a Host header crashes the process at `host.includes`. Any other request is answered by `Route`. |
| `NodeRouter.ServeStatic` | servers/nodejs/server.js:368-386 | A readable file is served with its bytes and the type of `path.extname`. A directory passes the read test, gets its 200 header, and then its read stream's unhandled error ends the process. Anything else is a 404. |
| `NodeRouter.StaticDirectoryCrashes` | servers/nodejs/server.js:372-383 | "/aliyun/static/js" names a directory, so it crashes the process. |
| `NodeRouter.ServeStaticChecked` | servers/nodejs/server.js:368-386 | The corrected reply never crashes: a directory is a 404, like a missing file. |
| `NodeRouter.CheckedMatchesPhpAndWritten` | servers/nodejs/server.js:368-386 | The corrected reply serves exactly what PHP's `is_file` test serves. Off directories, it is the reply as written. |
| `PhpRouter.DomainRoute` | servers/php/index.php:253-323 | An unknown site gives "Site not found", and a disabled one the "not enabled" message. Static files are served only under "/static/". Pages render only for `[a-z_]+` names, with base "/". |
| `PhpRouter.PathRoute` | servers/php/index.php:346-417 | A path the pattern rejects reaches the final 404, and any other goes to `SiteRoute`. |
| `PhpRouter.SiteRoute` | servers/php/index.php:351-413 | The static and config rules come before any enabled check. Pages render with base "/site" when renderable. |
| `PhpRouter.Route` | servers/php/index.php:328-417 | A host that is `isset` in the map goes to `DomainRoute`, even when it is mapped to "". The home page is answered iff the host is unmapped and the path is "/" or "". |
| `PhpRouter.Extension` | servers/php/index.php:374 | `pathinfo` gives the text after the last '.' of the last path element, without the dot. |
| `PhpRouter.Mime` | servers/php/index.php:364-375 | The table always yields a type. It has no html entry, so html is served as application/octet-stream. |
| `PhpRouter.ServeStatic` | servers/php/index.php:358-385 | A regular file is served with `Mime(Extension(path))`, anything else is a 404. |
| `PhpRouter.MimeAgreesWithGo` | servers/php/index.php:364-375 | Except for html, PHP's type for a file is the one Go and Node give. |
| `PhpRouter.ExtensionIsGoExtWithoutDot` | servers/php/index.php:374 | PHP's extension is Go's `filepath.Ext` without its leading dot. |
| `PhpRouter.TablesAgree` | servers/php/index.php:364-375 | Entry by entry, the dot-less table agrees with the dotted one outside html. |
| `PythonRouter.Render` | servers/python/app.py:161-228 | Flask renders iff the site is enabled, its config parses to a non-empty object and the template exists. A malformed config is a 500. A disabled site gets the "not enabled" message; other failures are 404. |
| `PythonRouter.Config` | servers/python/app.py:109-119 | The config is answered for any existing site, enabled or not, whose config parses to a non-empty object. A malformed file is a 500, and anything else aborts with 404. |
| `PythonRouter.DomainHook` | servers/python/app.py:57-87 | For a missing or disabled site the hook aborts. It returns nothing, so the URL rules take over, exactly when no static, config, index or one-segment `.html` rule applies. |
| `PythonRouter.HookPage` | servers/python/app.py:85-87 | `path[1:-5]` is the page between the leading character and ".html". |
| `PythonRouter.PathRoute` | servers/python/app.py:90-128 | "/" is the home page. Exactly "/site" is redirected, to "/site/". Pages have one-segment names and base "/site". Static files are those under "static/" with a non-empty filename. |
| `PythonRouter.SiteRule` | servers/python/app.py:96-128 | "" and "index.html" are the login page, and "api/config" the config. A static file is served iff the rest is "static/" followed by a name not starting with '/'. |
| `PythonRouter.Route` | servers/python/app.py:57-128 | An unmapped host goes straight to the URL rules. A mapped one first tries the hook, then falls through to the URL rules. |
| `PythonRouter.RedirectThenLogin` | servers/python/app.py:96-100 | "/site" is redirected to "/site/", which renders the login page with base "/site". |
| `PythonRouter.NestedPathFallsThrough` | servers/python/app.py:85-87 | On a mapped host, "/other/page.html" escapes the hook and renders page `page` of site `other`, not of the host's site. |
| `PythonRouter.HookPassesOver` | servers/python/app.py:64-87 | The hook answers nothing for a two-segment ".html" path outside /static/. |
| `PythonRouter.PageRule` | servers/python/app.py:103-106 | "/other/page.html" renders `page` of `other` with base "/other". |
| `PythonRouter.PageRuleInSite` | servers/python/app.py:103-106 | Under a matched site, "page.html" is the page rule. |
| `Respond.TrimLeft` | servers/go/main.go:699-703 | The leading white space, and only that, is removed. The result is a suffix of the input. |
| `Respond.TrimRight` | servers/go/main.go:699-703 | The trailing white space, and only that, is removed. The result is a prefix of the input. |
| `Respond.TrimSpace` | servers/go/main.go:702 | `strings.TrimSpace` never lengthens the text, starts and ends with a non-space, and keeps text that already does. |
| `Strs.BeforeFirst` | servers/go/main.go:701-702 | Text without the separator is its own first part, also when the separator and more text follow. |
| `Respond.CompressibleIgnoresParameters` | servers/go/main.go:699-703 | Whether a type is compressible does not depend on its parameters after ';'. |
| `Respond.GzipAnywhere` | servers/go/main.go:694-696 | Any Accept-Encoding that contains "gzip" counts as accepting gzip, even "gzip;q=0". |
| `Respond.TrimSpaceShape` | servers/go/main.go:699-703 | `strings.TrimSpace` is the slice between the leading and the trailing white space. It starts and ends with a non-space. |
| `Respond.WithCharset` | servers/go/main.go:706-721 | The suffix "; charset=UTF-8" is added iff the type names no charset and is a text type. Otherwise the type is unchanged. |
| `Respond.ContainsExtend` | servers/go/main.go:708 | Text found in a suffix is found in the whole string, so adding text in front keeps a match. |
| `Respond.StartsWithExtend` | servers/go/main.go:712-717 | Appending text keeps a prefix match. |
| `Respond.WithCharsetIdempotent` | servers/go/main.go:706-721 | Adding the charset twice gives the same as adding it once. |
| `Respond.AddCharset` | servers/go/main.go:706-721 | The loop over the text-type prefixes computes `WithCharset`. |
| `Respond.ChooseEncoding` | servers/go/main.go:724-774 | gzip is used iff all of these hold: the payload is 1 KiB to 5 MiB, the type is compressible, the client accepts gzip, and the compressor succeeds. Its output is then sent. |
| `Respond.ChooseCdnEncoding` | servers/go/cdn.go:178-210 | The CDN reply uses the same decision without the 5 MiB cap. |
| `Respond.Payload` | servers/go/main.go:749-781 | An identity encoding writes, and charges, the payload as it is. |
| `Respond.CdnEncodingAgreesBelowCap` | servers/go/main.go:735-746 | Up to 5 MiB, the two gzip decisions agree. Above it, `sendResponse` never compresses. |
| `Respond.ClientIp` | servers/go/main.go:302-305 | The client address is a prefix of RemoteAddr. An address without ':' is kept whole. |
| `Respond.ClientIpDropsPort` | servers/go/main.go:302-305 | "address:port" yields the address, whether IPv4 or bracketed IPv6. |
| `Respond.SendResponse` | servers/go/main.go:724-788 | The type gains its charset and the payload is encoded by `ChooseEncoding`. The written length is charged through `checkTraffic`. An over-budget client gets 429 and the traffic registry is unchanged. |
| `Respond.SendCdnResponse` | servers/go/cdn.go:178-210 | The reply is always a 200 with the one-year Cache-Control and the charset. It is gzipped iff `ChooseCdnEncoding` says so; otherwise the payload is the data. |
| `Respond.GoExt` | servers/go/main.go:820 | `filepath.Ext` is "" or a dotted suffix of the last path element. |
| `Respond.StaticMime` | servers/go/main.go:820-835 | Every extension has a type; unknown ones get application/octet-stream. |
| `Respond.StaticFile` | servers/go/main.go:791-839 | A file is served iff both `Abs` calls succeed, the path lies under the sites directory and the file is readable. A path outside that directory is a 403. |
| `RateLimit.RecentMembers` | servers/go/main.go:80-87 | The in-window filter keeps exactly the fresh timestamps and never grows. |
| `RateLimit.RecentAllFresh` | servers/go/main.go:80-87 | When every timestamp is fresh, nothing is dropped. |
| `RateLimit.RecentNoneFresh` | servers/go/main.go:80-87 | When every timestamp is stale, the list is emptied. |
| `RateLimit.RecentRecordsAllFresh` | servers/go/main.go:115-122 | When every traffic record is fresh, nothing is dropped. |
| `RateLimit.RecentRecordsNoneFresh` | servers/go/main.go:115-122 | When every traffic record is stale, the list is emptied. |
| `RateLimit.RecentIdempotent` | servers/go/main.go:80-87 | Filtering twice at the same instant changes nothing more. |
| `RateLimit.RecentAppend` | servers/go/main.go:80-95 | The filter distributes over concatenation, so older and newer entries are filtered independently. |
| `RateLimit.TotalAppend` | servers/go/main.go:115-136 | Appending a record adds its bytes to the in-window total. |
| `RateLimit.SlidingWindowExpiry` | servers/go/main.go:72-105 | After 1000 requests at time t, a request is refused until exactly t + one minute, and admitted from then on. |
| `RateLimit.ByteBudgetAdditivity` | servers/go/main.go:107-151 | Two halves of the 100 MiB budget are admitted. One more byte is refused within the window and admitted after it. The limit is inclusive. |
| `RateLimit.KeepRecent` | servers/go/main.go:80-87 | The loop rebuilds exactly the in-window timestamps, in order. |
| `RateLimit.KeepRecentRecords` | servers/go/main.go:115-122 | The loop rebuilds exactly the in-window records, in order, and sums their bytes. |
| `RateLimit.RateLimiter.constructor` | servers/go/main.go:62-70 | A new limiter has empty registries. |
| `RateLimit.RateLimiter.Check` | servers/go/main.go:72-105 | A request is admitted iff fewer than 1000 of the client's requests are in the window. An admission stores the fresh timestamps plus now, and past 10 000 clients evicts one key. A refusal changes nothing. The traffic registry is untouched. |
| `RateLimit.RateLimiter.CheckTraffic` | servers/go/main.go:107-151 | A transfer is admitted iff the in-window bytes plus it stay within 100 MiB. An admission stores the fresh records plus the new one, evicting as `Check` does. A refusal changes nothing. |
| `CdnMap.OriginUrl` | servers/go/cdn.go:94-100 | Every Tailwind path goes to the Play CDN host. Any other path is appended to the jsDelivr base. |
| `CdnMap.CacheKey` | servers/go/cdn.go:101 | The cache key has the length of the path; each '/' becomes the platform separator. |
| `CdnMap.CdnMime` | servers/go/cdn.go:104-118 | Every extension has a type; unknown ones get application/octet-stream. |
| `CdnMap.StripTrailingSlashes` | servers/nodejs/cdn-utils.js:111-122 | The result is the input without its trailing '/' characters. |
| `CdnMap.NodeExtname` | servers/nodejs/cdn-utils.js:111-122 | `path.extname` is "" or starts with '.'. |
| `CdnMap.ExtnameAgreesWithGo` | servers/nodejs/cdn-utils.js:111-122 | Node's and Go's extensions agree unless the last element starts with its only dot or is "..". |
| `CdnMap.DotFileExtensionDiffers` | servers/go/cdn.go:104-118 | For "npm/x/.css", Go's extension is ".css" and Node's is "", so the two proxies label the file differently. |
| `CdnMap.GoTarget` | servers/go/cdn.go:85-118 | The request is refused with 400 "Bad request" iff nothing follows "/cdn/". |
| `CdnMap.NodeTarget` | servers/nodejs/cdn-utils.js:91-122 | The same refusal on `req.url`, whose query string is kept. |
| `CdnMap.TailwindIgnoresRest` | servers/go/cdn.go:94-97 | Every "/cdn/tailwindcss/..." path is fetched from the same Play CDN URL. |
| `CdnMap.JsDelivrUrlInjective` | servers/go/cdn.go:98-100 | Two non-Tailwind paths with the same jsDelivr URL are the same path. |
| `CdnMap.CacheKeyIdentity` | servers/go/cdn.go:101 | With '/' as the separator, the key is the path itself. |
| `CdnMap.CacheKeyInjective` | servers/nodejs/cdn-utils.js:108 | Different paths that do not contain the separator never share a cache key. |
| `CdnMap.NodeMatchesGo` | servers/nodejs/cdn-utils.js:88-122 | Where the extension rules agree, both proxies choose the same URL, key and type. |
| `CdnMap.QueryStringReachesNodeKey` | servers/nodejs/cdn-utils.js:100-122 | "/cdn/a.js?v=1" makes Node cache under "a.js?v=1" as a byte stream, where Go serves "a.js" as JavaScript. |
| `CdnMap.PlainTarget` | servers/go/cdn.go:94-118 | A non-Tailwind remainder is both the jsDelivr suffix and the cache key in both proxies. |
| `CdnCache.FileStore.constructor` | servers/go/cdn.go:24-37 | The cache starts with the given files. |
| `CdnCache.Ancestors` | servers/go/cdn.go:29-33 | The directories a key lies in are exactly its non-empty prefixes followed by the separator. |
| `CdnCache.AncestorTransitive` | servers/go/cdn.go:29-33 | A directory of a directory of the key is a directory of the key. |
| `CdnCache.Parent` | servers/nodejs/cdn-utils.js:31-32 | `path.dirname` below the cache directory is one of the key's directories, the longest. It is None iff the key lies directly in the cache directory. |
| `CdnCache.AncestorOfParent` | servers/nodejs/cdn-utils.js:31-37 | Every other directory of the key is a directory of its parent. |
| `CdnCache.WithDirs` | servers/go/cdn.go:33 | Each missing directory of the key is created, and every existing entry is kept. |
| `CdnCache.MakeDirs` | servers/go/cdn.go:32-35 | Go's `MkdirAll` fails iff a file stands where one of the key's directories must be, and otherwise leaves every directory of the key a directory. Node skips `mkdirSync` when the parent exists, whatever it is. Entries are never changed, and only the key's directories are added. |
| `CdnCache.MakeDirsAgain` | servers/nodejs/cdn-utils.js:34-37 | Once the directories are made, making them again, even after more entries appeared, changes nothing. |
| `CdnCache.StoreOutcome` | servers/go/cdn.go:37-79 | A present key is a hit and fetches nothing. Node dies when the parent is a file. Otherwise a miss succeeds iff the fetch does, and then stores the body under the key. A failure with a `Leftover` leaves that file: the part that arrived for a stalled download, an empty file for a URL Node's `http.get` refuses. Every other failure leaves the cache as it was. |
| `CdnCache.CacheOutcome` | servers/go/cdn.go:24-79 | A failed `mkdir` leaves the cache unchanged. Otherwise the download is `StoreOutcome` after `MakeDirs`. A success names the key, which is then present, and no existing entry is ever changed. |
| `CdnCache.DownloadOnce` | servers/go/cdn.go:37-41 | After a successful download, the same key is a hit, whatever the origin answers later. |
| `CdnCache.OtherKeysUntouched` | servers/nodejs/cdn-utils.js:27-79 | Every other existing key keeps its entry. The only new entries besides the key are its directories. |
| `CdnCache.LeftoverIsCached` | servers/nodejs/cdn-utils.js:40-58 | A Node download that stalls or whose URL `http.get` refuses leaves a file under the key: the partial body, or an empty file. Every later request takes that file for a hit. |
| `CdnCache.RelativeLocationLeavesEmptyFile` | servers/nodejs/cdn-utils.js:46-65 | A 301/302 whose Location Node cannot request, such as "/3.4.16", fails (a 502). It leaves an empty file under the key, which every later request serves as a 200 with an empty body. |
| `CdnCache.Leftover` | servers/nodejs/cdn-utils.js:49-58 | A failure leaves a file exactly when it stalls (the part that arrived) or when its URL is refused after the write stream opened (an empty file). |
| `CdnCache.DownloadMakesDirectories` | servers/go/cdn.go:32-41 | On a real directory tree, a successful download leaves each directory of the key a directory. |
| `CdnCache.CacheKeepsTree` | servers/go/cdn.go:24-79 | Downloads keep the cache a real directory tree. |
| `CdnCache.DownloadDirs` | servers/nodejs/cdn-utils.js:34-37 | On a real tree, each directory of the key is a directory after anything but a failed `mkdir` or a crash. |
| `CdnCache.FileBlocksNestedKey` | servers/nodejs/cdn-utils.js:34-49 | A file where the key's parent directory must be: Go fails at `MkdirAll` and changes nothing, while Node skips `mkdirSync`, and its write stream's unhandled error ends the process. |
| `CdnCache.RedirectKeepsKey` | servers/nodejs/cdn-utils.js:59-65 | Node follows a 301 or 302 with a Location under the same cache key, one `fuel` step further. |
| `CdnCache.NodeFetch` | servers/nodejs/cdn-utils.js:46-77 | A URL that is not absolute http(s) fails as `InvalidUrl` before any request. Node's fetch never reports a failed copy: a broken body stalls instead. A bad status is never 200, 301 or 302, which Node handles itself. |
| `CdnCache.NodeRefuses307` | servers/nodejs/cdn-utils.js:59-70 | Node follows only 301 and 302, so a 307 is a failed download. |
| `CdnCache.GoGet` | servers/go/cdn.go:46-49 | Go's default client never returns a redirect that carries a Location. It fails only on a transport error or when the tenth request is still redirected. |
| `CdnCache.GoFetch` | servers/go/cdn.go:46-75 | Go's fetch never stalls, never fails for a missing Location, and never refuses a URL after creating a file. |
| `CdnCache.GoFollowsClientRedirect` | servers/go/cdn.go:46-58 | A 301, 302, 303, 307 or 308 with a Location is followed by the client: the file it leads to is the one fetched. |
| `CdnCache.GoRedirectWithoutLocation` | servers/go/cdn.go:53-62 | A redirect status without a Location is returned by the client, and Go answers it as a bad status. |
| `CdnCache.GoEndlessRedirects` | servers/go/cdn.go:46-49 | An origin that redirects every request makes the client give up at its tenth request. |
| `CdnCache.GoDownload` | servers/go/cdn.go:24-79 | Go's download is `CacheOutcome` of Go's fetch: `MkdirAll`, the hit test, then the file, which appears only after a 200 with an intact body. Its own 301/302 branch is unreachable. |
| `CdnCache.NodeDownload` | servers/nodejs/cdn-utils.js:27-79 | Node's download is `CacheOutcome` of Node's fetch: `mkdirSync` unless the parent exists, the hit test, and a crash when the parent is a file. A URL `http.get` throws on, such as a relative Location, leaves the empty file its write stream created. Every other failure except a broken 200 body removes that file. A broken body stalls and leaves the partial file. |
| `CdnCache.Download` | servers/nodejs/cdn-utils.js:27-79 | The download dispatches to the chosen proxy's rules. |
| `CdnCache.PrewarmContinuesPastFailures` | servers/go/cdn.go:149-175 | Prefetching never changes an existing entry. Go's prewarm never stops early. Unless a Node download stalls or crashes, every entry whose fetch succeeds ends up cached, or has a file standing where one of its directories must be, whatever failed before it. |
| `CdnCache.PrewarmStep` | servers/nodejs/cdn-utils.js:181-187 | Until the loop stops, each entry's download runs on the cache the earlier entries left. |
| `CdnCache.BlockedStays` | servers/go/cdn.go:32-35 | A file standing where a directory of the key must be stays there as entries are added. |
| `CdnCache.StalledStops` | servers/nodejs/cdn-utils.js:181-187 | Once a Node download has stalled or crashed, the later entries are never fetched. |
| `CdnCache.PrewarmEach` | servers/nodejs/cdn-utils.js:181-187 | The loop downloads the entries in order, skipping failures until one stalls or crashes, and leaves `AfterPrewarm`. |
| `CdnCache.Prewarm` | servers/nodejs/cdn-utils.js:164-189 | The start-up prefetch of the three files leaves `AfterPrewarm` of them. |
| `CdnCache.GoServeCached` | servers/go/cdn.go:121-130 | A readable cached file is sent as a CDN response. An unreadable file or a directory is a 500. |
| `CdnCache.GoHandleProxy` | servers/go/cdn.go:82-146 | The order is: 400 for an empty remainder, then the cached file, then a download, answered with 502 on failure and the file on success. The cache changes only by that download. A cached directory passes `os.Stat` and is a 500. |
| `CdnCache.NodeServeCached` | servers/nodejs/cdn-utils.js:125-138 | A readable cached file is handed on with 200, its type and the one-year Cache-Control. An unreadable file or a directory is a 500. |
| `CdnCache.NodeHandleProxy` | servers/nodejs/cdn-utils.js:88-159 | Node makes the same decisions on `req.url`, each success handed on with the one-year Cache-Control. A stalled download leaves the request unanswered, and a download that crashes ends the process. Every other failed download, a refused URL included, is a 502. |
| `SiteOrder.PrecedesIrreflexive` | servers/go/main.go:474-479 | No entry precedes itself. |
| `SiteOrder.PrecedesTransitive` | servers/nodejs/server.js:324-333 | The comparator (order first, a missing order counting as 0, then name) is transitive. |
| `SiteOrder.PrecedesAsymmetric` | servers/php/index.php:99-106 | Entries never precede each other both ways. |
| `SiteOrder.PrecedesTotal` | servers/python/app.py:145 | Of two entries with different names, one precedes the other. |
| `SiteOrder.Insert` | servers/go/main.go:618-623 | Insertion adds exactly the one entry. |
| `SiteOrder.SortEntries` | servers/go/main.go:618-623 | The sorted listing is a permutation of the map's entries. |
| `SiteOrder.InsertOrdered` | servers/nodejs/server.js:247-256 | Inserting an entry with a new name into an ordered listing keeps it ordered. |
| `SiteOrder.SortEntriesOrdered` | servers/nodejs/server.js:232-244 | Sorting a map's entries lists them all, once each, in comparator order. |
| `SiteOrder.OrderedUnique` | servers/php/index.php:200-231 | Two ordered listings of the same entries are identical. |
| `SiteOrder.SameFirst` | servers/php/index.php:99-106 | Two ordered listings of the same entries start with the same entry. |
| `SiteOrder.OrderedTail` | servers/python/app.py:202-208 | The tail of an ordered listing is ordered. |
| `SiteOrder.SortIndependentOfIteration` | servers/python/app.py:211-215 | The listing does not depend on the order in which the map was iterated. |
| `SiteOrder.MultiplicityInDistinct` | servers/go/main.go:474-479 | An entry of a listing with distinct names occurs in it once. |
| `SiteOrder.RankDecidesFirst` | servers/nodejs/server.js:324-333 | A lower order comes first, whatever the names. A missing order and order 0 tie, and the name then decides. |
| `Compare.StaticDirectory` | servers/go/main.go:791-816 | A static path that names a directory: Go and PHP answer 404, while Node crashes. The corrected Node reply is 404. |
| `Compare.DisabledSiteStatic` | servers/nodejs/server.js:361-386 | A static file of a disabled site: Go refuses it, while Node, PHP and Flask serve it. |
| `Compare.GoDisabledSite` | servers/go/main.go:355-359 | Go turns away every path under a disabled site with "Site not enabled". |
| `Compare.SubPathRule` | servers/php/index.php:347-349 | Node and PHP route "/site/rest" by their rules for `rest` under `site`. |
| `Compare.PythonSubPathRule` | servers/python/app.py:96-128 | Flask routes "/site/rest" by its rules for `rest` under `site`. |
| `Compare.GoTwoParts` | servers/go/main.go:338-339 | Go splits "/site/a/b" into three parts. |
| `Compare.EmptyConfigObject` | servers/php/index.php:38-44 | A config.json holding `{}`: Go and Node answer 200, while PHP and Flask answer 404, because an empty array or dict is false. Node sends `{}`; Go sends its zero struct. |
| `Compare.MistypedConfig` | servers/go/main.go:181-193 | A non-empty config.json that does not fit Go's struct: Go answers 404 and leaves the site's domains out of its map. Node, PHP and Flask send the document. |
| `Compare.ConfigRoutes` | servers/go/main.go:368-372 | "/site/api/config" of an enabled site reaches each server's config handler. |
| `Compare.ConfigSubPath` | servers/nodejs/server.js:388-400 | For any existing site, Node, PHP and Flask reach their config handler, enabled or not. |
| `Compare.SiteWithoutSlash` | servers/python/app.py:96-100 | "/site": Go, Node and PHP render the login page with base "/site", while Flask redirects to "/site/". |
| `Compare.CdnOnlyInGo` | servers/go/main.go:311-315 | On an unmapped host, Go proxies "/cdn/...", while Node reads "cdn" as a site name. |
| `Compare.DomainMappedToEmpty` | servers/nodejs/server.js:296-301 | A domain mapped to "": Node routes the path as unmapped, while PHP and Flask answer 404 for the empty site. |
| `Compare.NestedDomainPage` | servers/go/main.go:422-427 | "/dir/page.html" on a mapped host: Go renders "pages/dir/page.html", Node and PHP answer 404, and Flask renders page `page` of site `dir`. |
| `Compare.GoNestedPage` | servers/go/main.go:422-427 | Go's domain page rule keeps the directory in the page name. |
| `Credentials.RemoveAt` | sites/aliyun/static/js/store.js:187 | `splice(index, 1)` keeps the keys before the index and shifts the later ones down by one. |
| `Credentials.AppendKeepsUnique` | sites/aliyun/static/js/store.js:154-168 | Appending a key whose id is not present keeps the ids unique. |
| `Credentials.ReplaceKeepsUnique` | sites/aliyun/static/js/auth.js:75-88 | Replacing a key by one whose id no other key carries keeps the ids unique. |
| `Credentials.RemoveKeepsUnique` | sites/aliyun/static/js/store.js:181-188 | Removing a key keeps the ids unique. |
| `Credentials.ShiftAfterDelete` | sites/aliyun/static/js/store.js:190-196 | No current index stays none. A current index in range stays in range of the shorter list, and is none iff the list is now empty. |
| `Credentials.ShiftKeepsCurrentKey` | sites/aliyun/static/js/store.js:190-196 | Deleting a key other than the current one leaves the same key current. |
| `Credentials.ShiftKeepsValid` | sites/aliyun/static/js/store.js:190-196 | After a delete, the current index is still absent exactly when no keys remain, and otherwise points at a key. |
| `Store.Read` | sites/aliyun/static/js/store.js:27-62 | A missing entry reads null. A wrapped entry is returned until its lifetime has passed, and then removed. An entry in an old format is returned and rewritten as a wrapped entry without lifetime. |
| `Store.Put` | sites/aliyun/static/js/store.js:19 | Writing an entry changes that entry only. |
| `Store.Without` | sites/aliyun/static/js/store.js:74-87 | Exactly the entries whose names start with the prefix are removed; the others keep their contents. |
| `Store.FreshUntilLifetimeEnds` | sites/aliyun/static/js/store.js:37-44 | A value is read back unchanged up to and including the instant its lifetime ends. |
| `Store.GoneAfterLifetime` | sites/aliyun/static/js/store.js:37-42 | One millisecond later it reads null and its entry is removed. A zero lifetime never expires. |
| `Store.NoLifetimeNeverExpires` | sites/aliyun/static/js/store.js:35-44 | A value written without a lifetime is read back at any later time. |
| `Store.ReadAgain` | sites/aliyun/static/js/store.js:27-62 | A second read returns what the first returned, for as long as the entry has not expired. |
| `Store.MigrationKeepsValue` | sites/aliyun/static/js/store.js:47-58 | Migrating an old-format entry keeps its value, and the migrated entry never expires. |
| `Store.StorageManager.constructor` | sites/aliyun/static/js/store.js:8-10 | The manager holds its prefix over the given storage. |
| `Store.StorageManager.Set` | sites/aliyun/static/js/store.js:12-25 | Only the prefixed entry is written, wrapped with the current time and the lifetime. |
| `Store.StorageManager.Get` | sites/aliyun/static/js/store.js:27-62 | Returns what `Read` gives for the prefixed entry, and leaves that entry as `Read` says. |
| `Store.StorageManager.Remove` | sites/aliyun/static/js/store.js:64-72 | Exactly the prefixed entry is removed. |
| `Store.StorageManager.Keys` | sites/aliyun/static/js/store.js:90-95 | The keys are exactly the stored names under the prefix, with the prefix removed. |
| `Store.StorageManager.Clear` | sites/aliyun/static/js/store.js:74-87 | Exactly the entries under the prefix are removed, so no keys remain. |
| `Store.CacheManager.constructor` | sites/aliyun/static/js/store.js:100-103 | The cache holds its storage and namespace. |
| `Store.CacheManager.Set` | sites/aliyun/static/js/store.js:105-107 | The namespaced entry is written with its lifetime. |
| `Store.CacheManager.Get` | sites/aliyun/static/js/store.js:109-111 | Reads the namespaced entry as `StorageManager.Get` does. |
| `Store.CacheManager.Remove` | sites/aliyun/static/js/store.js:113-115 | Exactly the namespaced entry is removed. |
| `Store.CacheManager.Clear` | sites/aliyun/static/js/store.js:117-124 | Exactly the entries under the prefix followed by the namespace are removed. |
| `Store.CacheManager.GetOrLoad` | sites/aliyun/static/js/store.js:127-136 | A cached non-null value is returned without calling the loader. Otherwise the loaded value is stored with the given lifetime and returned. |
| `Store.UnderOneMore` | sites/aliyun/static/js/store.js:117-124 | The names of the keys collected so far grow by one name per key. |
| `Store.ClearedNames` | sites/aliyun/static/js/store.js:117-124 | Removing the keys under the namespace removes exactly the names under prefix plus namespace. |
| `Store.PrefixedName` | sites/aliyun/static/js/store.js:90-95 | Under the prefix, a name that continues with the namespace is exactly a name under both. |
| `Store.NewKey` | sites/aliyun/static/js/store.js:163-168 | The new record keeps id and secret, names an unnamed key "未命名", and stamps its creation time. |
| `Store.Merge` | sites/aliyun/static/js/store.js:208-212 | Each field the update names replaces the old one, and the other fields stay. `createdAt` is kept, and `updatedAt` becomes now. |
| `Store.KeyManager.constructor` | sites/aliyun/static/js/store.js:141-146 | The manager starts from the stored keys, current id and default region. |
| `Store.KeyManager.AddKey` | sites/aliyun/static/js/store.js:154-178 | A duplicate id is refused and nothing changes. Otherwise the key is appended, and the first key becomes current. Unique ids and a valid current index are preserved. |
| `Store.KeyManager.DeleteKey` | sites/aliyun/static/js/store.js:181-199 | The delete succeeds iff the index is in range. The current index then follows `ShiftAfterDelete`, so a key other than the deleted one stays current. The invariant is preserved. |
| `Store.KeyManager.UpdateKey` | sites/aliyun/static/js/store.js:202-216 | An in-range update merges the named fields and stamps the time. Nothing else changes. |
| `Store.KeyManager.UpdateKeyChecked` | sites/aliyun/static/js/store.js:202-216 | The corrected update is refused when another key already carries the new id, so the invariant is preserved. |
| `Store.KeyManager.SwitchKey` | sites/aliyun/static/js/store.js:219-227 | The switch succeeds iff the index is in range, and then makes it current. |
| `Store.KeyManager.CurrentKey` | sites/aliyun/static/js/store.js:240-246 | The current key is the key at the current id, if that is in range. Under the invariant, there is one iff there are keys. |
| `Store.KeyManager.ClearAll` | sites/aliyun/static/js/store.js:249-252 | Keys and current id go; the default region stays. |
| `Store.KeyManager.SetDefaultRegion` | sites/aliyun/static/js/store.js:260-262 | Only the default region changes. |
| `Store.UpdateKeyBreaksUnique` | sites/aliyun/static/js/store.js:202-216 | Two keys with ids ID1 and ID2: updating the second to ID1 is accepted and leaves two keys with one id. |
| `Auth.ClampAfterDelete` | sites/aliyun/static/js/auth.js:61-73 | An index past the new end is pulled back to the last key. Any other index, and an unreadable one, stays. |
| `Auth.DeleteBelowCurrentSwitchesKey` | sites/aliyun/static/js/auth.js:61-73 | Keys A, B, C, D with C current: deleting A makes D current. |
| `Auth.AccessKeyStore.constructor` | sites/aliyun/static/js/auth.js:5-9 | The store starts from the three stored entries. |
| `Auth.AccessKeyStore.CurrentIndex` | sites/aliyun/static/js/auth.js:20-23 | No stored index reads as 0. A stored one reads as `parseInt` of its text. |
| `Auth.AccessKeyStore.SetCurrentIndex` | sites/aliyun/static/js/auth.js:25-27 | The decimal text is stored, and `CurrentIndex` reads back the same index. |
| `Auth.AccessKeyStore.CurrentKey` | sites/aliyun/static/js/auth.js:29-33 | The current key is the key at the current index, if that is in range. With no stored index, there is one iff there are keys. |
| `Auth.AccessKeyStore.AddKey` | sites/aliyun/static/js/auth.js:35-50 | A duplicate id is refused. Otherwise the key is appended, its index returned, and the first key made current. Unique ids are preserved. |
| `Auth.AccessKeyStore.SwitchKey` | sites/aliyun/static/js/auth.js:52-59 | The switch succeeds iff the index is in range, and the key there becomes current. |
| `Auth.AccessKeyStore.DeleteKey` | sites/aliyun/static/js/auth.js:61-73 | The delete succeeds iff the index is in range. It removes the key and clamps the current index with `ClampAfterDelete`. |
| `Auth.AccessKeyStore.UpdateKey` | sites/aliyun/static/js/auth.js:75-88 | An out-of-range index or an id used by another key is refused with its message. Otherwise the key is replaced. Unique ids are preserved. |
| `Auth.AccessKeyStore.GetDefaultRegion` | sites/aliyun/static/js/auth.js:90-92 | The stored region, or "cn-hangzhou" when it is absent or empty; never empty. |
| `Auth.AccessKeyStore.SetDefaultRegion` | sites/aliyun/static/js/auth.js:94-96 | A non-empty region is read back. |
| `Auth.AccessKeyStore.Clear` | sites/aliyun/static/js/auth.js:102-106 | All three entries go: logged out, no current key, default region. |
| `Strs.ParseInt` | sites/aliyun/static/js/auth.js:22 | `parseInt` is NaN iff the text does not start with a digit. Otherwise it is the value of the leading digits. |
| `Strs.ParseIntOfNatToString` | sites/aliyun/static/js/auth.js:21-27 | The index text `setCurrentIndex` writes reads back as the same index. |
| `ApiParams.GetAt` | sites/aliyun/static/js/aliyun-api.js:62-64 | In an object of distinct names, each entry is what its name reads. |
| `ApiParams.GetMissing` | sites/aliyun/static/js/aliyun-api.js:62-64 | A name that no entry carries reads as absent. |
| `ApiParams.DistinctNames` | sites/aliyun/static/js/aliyun-api.js:124-129 | Pairwise different names make an object. |
| `ApiParams.GetFound` | sites/aliyun/static/js/aliyun-api.js:62-64 | A name that reads as present is carried by some entry. |
| `ApiParams.Names` | sites/aliyun/static/js/aliyun-api.js:62 | `Object.keys` lists one name per entry: exactly the names that read as present. |
| `ApiParams.Assign` | sites/aliyun/static/js/aliyun-api.js:132-150 | `params[name] = value` makes the name read the value and leaves every other name. Distinct names are preserved. |
| `ApiParams.AssignOrder` | sites/aliyun/static/js/aliyun-api.js:132-150 | A new name goes last, and a name already present keeps its place. |
| `ApiParams.Spread` | sites/aliyun/static/js/aliyun-api.js:105 | In `{...p, ...q}`, a name reads q's value if q has it, else p's. Distinct names are preserved. |
| `ApiParams.Remove` | sites/aliyun/static/js/aliyun-api.js:108 | Removing a name makes it absent and leaves every other name. |
| `ApiParams.RemoveAssigned` | sites/aliyun/static/js/aliyun-api.js:107-108 | Adding a new name and removing it again gives back the object. |
| `ApiParams.Insert` | sites/aliyun/static/js/aliyun-api.js:62 | Inserting into a strictly ascending list keeps it strictly ascending, and adds exactly the one name. |
| `ApiParams.SortStrings` | sites/aliyun/static/js/aliyun-api.js:62 | `.sort()` of the names gives a strictly ascending list of the same names. |
| `ApiParams.SortedUnique` | sites/aliyun/static/js/aliyun-api.js:62 | Two strictly ascending lists of the same strings are the same list. |
| `ApiParams.LessAntisymmetric` | sites/aliyun/static/js/aliyun-api.js:62 | No string is both below and above another. |
| `ApiParams.CanonicalQuery` | sites/aliyun/static/js/aliyun-api.js:62-64 | An object without entries has an empty canonical query. |
| `ApiParams.QueryIgnoresOrder` | sites/aliyun/static/js/aliyun-api.js:61-67 | The canonical query depends only on the names and values, not on the order the names were added in. |
| `ApiParams.SamePairs` | sites/aliyun/static/js/aliyun-api.js:62-64 | Objects that read alike give the same "name=value" pairs. |
| `Percent.Utf8` | sites/aliyun/static/js/aliyun-api.js:51 | A character becomes 1 to 4 bytes. It is one byte, its own code, iff it is ASCII; otherwise every byte is at least 0x80. |
| `Percent.HexDigit` | sites/aliyun/static/js/aliyun-api.js:51 | Digits are upper-case hex, and '7' and 'E' stand for 7 and 14. |
| `Percent.Escape` | sites/aliyun/static/js/aliyun-api.js:51 | Each byte becomes '%' and two hex digits. |
| `Percent.EncodeUriComponent` | sites/aliyun/static/js/aliyun-api.js:51 | `encodeURIComponent` never shortens the text, leaves only its safe characters, '%' and hex digits, and keeps text made of safe characters unchanged. |
| `Percent.EscapeSubDelims` | sites/aliyun/static/js/aliyun-api.js:52-56 | After the five replacements none of ! ' ( ) * is left, and every character came from the input or is '%' or a hex digit. |
| `Percent.UnescapeTilde` | sites/aliyun/static/js/aliyun-api.js:57 | The "%7E" replacement never lengthens the text. |
| `Percent.TildeFreeUnchanged` | sites/aliyun/static/js/aliyun-api.js:57 | Text without '%' passes the "%7E" replacement unchanged. |
| `Percent.PercentEncode` | sites/aliyun/static/js/aliyun-api.js:50-58 | The output holds only unreserved characters, '%' and hex digits. |
| `Percent.Rfc3986Encode` | sites/aliyun/static/js/aliyun-api.js:50-58 | The reference encoding (section 2.3 of RFC 3986) never shortens the text and holds only unreserved characters and escapes. |
| `Percent.PercentEncodeIsRfc3986` | sites/aliyun/static/js/aliyun-api.js:50-58 | `encodeURIComponent` followed by the six replacements is exactly the reference encoding. |
| `Percent.SlashEncoded` | sites/aliyun/static/js/aliyun-api.js:65 | "/" is sent as "%2F". |
| `Percent.UnreservedUnchanged` | sites/aliyun/static/js/aliyun-api.js:50-58 | A string of unreserved characters is sent as it is. |
| `Percent.ReplaceConcat` | sites/aliyun/static/js/aliyun-api.js:52-56 | A one-character replacement distributes over concatenation. |
| `Percent.ReplaceAbsent` | sites/aliyun/static/js/aliyun-api.js:52-56 | A replacement whose character is absent changes nothing. |
| `Percent.SubstConcat` | sites/aliyun/static/js/aliyun-api.js:52-56 | The five replacements distribute over concatenation. |
| `Percent.SubstFree` | sites/aliyun/static/js/aliyun-api.js:52-56 | A string free of ! ' ( ) * passes the five replacements unchanged. |
| `Percent.SubstChar` | sites/aliyun/static/js/aliyun-api.js:51-56 | For one character, `encodeURIComponent` and the replacements give the reference encoding. |
| `Percent.SubDelim` | sites/aliyun/static/js/aliyun-api.js:52-56 | Each of ! ' ( ) * is replaced by its UTF-8 escape. |
| `Percent.TildeSkipsChar` | sites/aliyun/static/js/aliyun-api.js:57 | The "%7E" replacement passes over the encoding of any one character. |
| `Percent.TildeSkipsEscape` | sites/aliyun/static/js/aliyun-api.js:57 | It passes over the escapes of bytes other than 0x7E. |
| `Percent.NotTildePair` | sites/aliyun/static/js/aliyun-api.js:57 | Only the byte 0x7E escapes to "%7E". |
| `Percent.TildeSkipsTriple` | sites/aliyun/static/js/aliyun-api.js:57 | An escape other than "%7E" is left in place. |
| `AliyunApi.ApiEndpoint` | sites/aliyun/static/js/aliyun-api.js:70-81 | A request goes to the VPC host iff the action is a VPC action (Vpc, VSwitch, Eip) and not an instance or region Describe. Anything else goes to ECS. |
| `AliyunApi.ApiVersion` | sites/aliyun/static/js/aliyun-api.js:84-91 | The version is 2016-04-28 iff the action is a VPC action, else 2014-05-26. |
| `AliyunApi.VpcEndpointHasVpcVersion` | sites/aliyun/static/js/aliyun-api.js:70-91 | A request sent to the VPC host is signed with the VPC version. |
| `AliyunApi.StringToSign` | sites/aliyun/static/js/aliyun-api.js:65 | The string to sign is "GET&%2F&" followed by the RFC 3986 encoding of the canonical query. |
| `AliyunApi.CommonParams` | sites/aliyun/static/js/aliyun-api.js:95-103 | The common parameters have distinct names, and carry no Signature, Action or RegionId. |
| `AliyunApi.CommonParamsValues` | sites/aliyun/static/js/aliyun-api.js:95-103 | Each common parameter holds its value: the key id, JSON, HMAC-SHA1, 1.0, the nonce, the time stamp and the version. |
| `AliyunApi.Signed` | sites/aliyun/static/js/aliyun-api.js:105 | A caller's parameter wins over the common one. The names stay distinct, and no Signature is introduced. |
| `AliyunApi.BuildRequest` | sites/aliyun/static/js/aliyun-api.js:94-110 | A request is built iff the caller gives an Action. Its endpoint is that of the action and region ("undefined" when no region is given). |
| `AliyunApi.CallerOverrides` | sites/aliyun/static/js/aliyun-api.js:105-108 | In the request sent, a parameter the caller gives wins over the common one. The others keep their common value. |
| `AliyunApi.SignatureCoversOtherParams` | sites/aliyun/static/js/aliyun-api.js:107-108 | The Signature is the HMAC, under the secret followed by '&', of the string to sign of every other parameter sent. |
| `AliyunApi.TextFilter` | sites/aliyun/static/js/aliyun-api.js:132-134 | A text filter is sent iff it is given and non-empty, and then as it is. |
| `AliyunApi.AddressFilter` | sites/aliyun/static/js/aliyun-api.js:135-142 | An address filter is sent iff given, as a one-element JSON array. |
| `AliyunApi.IdsFilter` | sites/aliyun/static/js/aliyun-api.js:143-146 | Instance ids are sent iff there are any, as a JSON array of strings. |
| `AliyunApi.AssignIf` | sites/aliyun/static/js/aliyun-api.js:132-150 | `if (value) params[name] = value` sets only that name, and only when given. |
| `AliyunApi.PageParams` | sites/aliyun/static/js/aliyun-api.js:124-129 | The paging parameters hold Action and RegionId, and page number and size as decimal text that reads back. |
| `AliyunApi.AddFilters` | sites/aliyun/static/js/aliyun-api.js:132-150 | A run of conditional assignments keeps the names distinct. |
| `AliyunApi.AddFiltersKeeps` | sites/aliyun/static/js/aliyun-api.js:132-150 | A name that none of the assignments mentions keeps its value. |
| `AliyunApi.AddFiltersSets` | sites/aliyun/static/js/aliyun-api.js:132-150 | A filter name ends up with its value when given, and keeps its old value otherwise. |
| `AliyunApi.AddFiltersOnly` | sites/aliyun/static/js/aliyun-api.js:132-150 | The assignments add no name but their own. |
| `AliyunApi.InstanceFilterValues` | sites/aliyun/static/js/aliyun-api.js:132-150 | There is one value per filter name. |
| `AliyunApi.DescribeInstancesParams` | sites/aliyun/static/js/aliyun-api.js:123-150 | The parameters of DescribeInstances have distinct names. |
| `AliyunApi.DescribeInstancesPage` | sites/aliyun/static/js/aliyun-api.js:124-129 | No filter overwrites a paging parameter of DescribeInstances. |
| `AliyunApi.DescribeInstancesFilters` | sites/aliyun/static/js/aliyun-api.js:132-150 | Each of the five filters is sent, under its name, exactly when it is given, with its encoded value. |
| `AliyunApi.DescribeInstancesNothingElse` | sites/aliyun/static/js/aliyun-api.js:123-150 | DescribeInstances sends nothing but the paging parameters and its five filters. |
| `AliyunApi.EipFilterValues` | sites/aliyun/static/js/aliyun-api.js:185-196 | There is one value per EIP filter name. |
| `AliyunApi.DescribeEipAddressesParams` | sites/aliyun/static/js/aliyun-api.js:176-196 | The parameters of DescribeEipAddresses have distinct names. |
| `AliyunApi.DescribeEipAddressesPage` | sites/aliyun/static/js/aliyun-api.js:177-182 | No filter overwrites a paging parameter of DescribeEipAddresses. |
| `AliyunApi.DescribeEipAddressesFilters` | sites/aliyun/static/js/aliyun-api.js:185-196 | Each of the four filters is sent as it is, under its name, exactly when it is given. |
| `AliyunApi.DescribeEipAddressesNothingElse` | sites/aliyun/static/js/aliyun-api.js:176-196 | DescribeEipAddresses sends nothing but the paging parameters and its four filters. |
| `AliyunApi.DescribePagedParams` | sites/aliyun/static/js/aliyun-api.js:156-173 | DescribeVpcs and DescribeVSwitches send distinct paging parameters naming their action. |
| `AliyunApi.DescribeRegionsParams` | sites/aliyun/static/js/aliyun-api.js:202-208 | DescribeRegions asks the cn-hangzhou endpoint. |
| `AliyunApi.DescribeInstancesGoesToEcs` | sites/aliyun/static/js/aliyun-api.js:72-73 | DescribeInstances goes to the ECS host of its region, with the ECS version. |
| `AliyunApi.DescribeEipAddressesGoesToVpc` | sites/aliyun/static/js/aliyun-api.js:76-77 | DescribeEipAddresses goes to the VPC host of its region, with the VPC version. |
| `Json.Or` | sites/aliyun/static/js/core/data-table-factory.js:167-168 | `v or fallback` (JavaScript logical or) is v when v is truthy, and the fallback otherwise. |
| `Json.Member` | sites/aliyun/static/js/core/data-table-factory.js:163-165 | `obj[name]` is present on an object iff the field exists. On an array it is an element. On anything else it is undefined. |
| `Json.Quote` | sites/aliyun/static/js/aliyun-api.js:137 | `JSON.stringify` of a string is enclosed in double quotes. |
| `Json.QuotePlain` | sites/aliyun/static/js/aliyun-api.js:137 | A string without quotes, backslashes or control characters is written between quotes as it is. |
| `Json.QuoteAll` | sites/aliyun/static/js/aliyun-api.js:145 | Each string is quoted, in order. |
| `Json.StringArray` | sites/aliyun/static/js/aliyun-api.js:145 | `JSON.stringify` of an array of strings is enclosed in brackets. |
| `Json.SingletonArray` | sites/aliyun/static/js/aliyun-api.js:137-141 | A one-element array is the quoted element between brackets. |
| `FieldPath.IndexGroup` | sites/aliyun/static/js/core/data-table-factory.js:212 | A `[digits]` group is a non-empty run of digits closed by ']'. |
| `FieldPath.RewriteIndexes` | sites/aliyun/static/js/core/data-table-factory.js:212 | Text without '[' is unchanged. |
| `FieldPath.RewritePlainPrefix` | sites/aliyun/static/js/core/data-table-factory.js:212 | Text before the first '[' passes through unchanged. |
| `FieldPath.IndexGroupRewrite` | sites/aliyun/static/js/core/data-table-factory.js:212 | "[digits]" becomes ".digits", and the rest is rewritten on its own. |
| `FieldPath.IndexBecomesKey` | sites/aliyun/static/js/core/data-table-factory.js:212 | "name[n]" becomes "name.n". |
| `FieldPath.Keys` | sites/aliyun/static/js/core/data-table-factory.js:212 | Splitting on '.' gives at least one key. |
| `FieldPath.Step` | sites/aliyun/static/js/core/data-table-factory.js:216 | `value?.[key]` stops at undefined and null, and on an object is present iff the key exists. |
| `FieldPath.Follow` | sites/aliyun/static/js/core/data-table-factory.js:161-165 | Once the data path has reached undefined or null, it stays undefined. |
| `FieldPath.Lookup` | sites/aliyun/static/js/core/data-table-factory.js:213-218 | The empty path gives the value itself. An undefined or null start gives undefined for any other path. |
| `FieldPath.StopsLikeFollow` | sites/aliyun/static/js/core/data-table-factory.js:215-218 | Breaking out of the walk at undefined or null finds the same value as walking on, when there is one. |
| `FieldPath.Walk` | sites/aliyun/static/js/core/data-table-factory.js:213-218 | The loop with its break computes the walk `Lookup`. |
| `FieldPath.Display` | sites/aliyun/static/js/core/resource-manage-factory.js:168-169 | Only the empty string and arrays are shown as empty text. |
| `FieldPath.DefaultText` | sites/aliyun/static/js/core/data-table-factory.js:221-223 | A blank cell shows the field's non-empty default, or "-". |
| `ErrorHandling.Title` | sites/aliyun/static/js/error-handler.js:278-291 | The title is '出错了' iff the type is none of runtime, promise, network and auth. |
| `ErrorHandling.TitleTellsKind` | sites/aliyun/static/js/error-handler.js:278-291 | The four known types have different titles. |
| `ErrorHandling.RawMessage` | sites/aliyun/static/js/error-handler.js:297 | A missing or empty message becomes '未知错误', so the text is never empty. |
| `ErrorHandling.Message` | sites/aliyun/static/js/error-handler.js:296-326 | A recognised substring gives one of five fixed explanations. Any other message is kept, cut to 200 characters followed by "..." when longer. |
| `ErrorHandling.NetworkFirst` | sites/aliyun/static/js/error-handler.js:300-302 | A network failure is reported as such, whatever else the message mentions. |
| `ErrorHandling.EarlierRuleWins` | sites/aliyun/static/js/error-handler.js:312-318 | A message naming both a RAM refusal and throttling is explained as the RAM refusal. |
| `ErrorHandling.Actions` | sites/aliyun/static/js/error-handler.js:331-356 | Retry is offered iff the error is a network one. Re-login is offered iff it is an authentication one. When both are offered, retry comes first. |
| `ErrorHandling.InvalidKeyIdOffersRelogin` | sites/aliyun/static/js/error-handler.js:304-306 | An invalid key id is explained as such, and the way back to the login page is offered. |
| `ErrorHandling.ToastFor` | sites/aliyun/static/js/error-handler.js:235-252 | No toast is shown for a resource error. Otherwise the toast holds the classified title, message and actions. |
| `ErrorHandling.Trim` | sites/aliyun/static/js/error-handler.js:265-270 | Pushing onto a full log drops the oldest entry; below the bound nothing is dropped. |
| `ErrorHandling.Recent` | sites/aliyun/static/js/error-handler.js:265-270 | The last 50 entries, or all when fewer. |
| `ErrorHandling.TrimKeepsRecent` | sites/aliyun/static/js/error-handler.js:265-270 | Logging onto the last 50 of a history gives the last 50 of the longer history. |
| `ErrorHandling.LogIsRecent` | sites/aliyun/static/js/error-handler.js:257-273 | The log after any run of errors is exactly the last 50 of them, newest last. |
| `ErrorHandling.Backoff` | sites/aliyun/static/js/error-handler.js:478 | The k-th retry waits `retryDelay * (k + 1)`. |
| `ErrorHandling.TriangleClosed` | sites/aliyun/static/js/error-handler.js:478 | 1 + ... + n is n(n+1)/2. |
| `ErrorHandling.BackoffTotal` | sites/aliyun/static/js/error-handler.js:451-494 | n retries wait `retryDelay * n * (n + 1) / 2` in all. |
| `ErrorHandling.BackoffTriangle` | sites/aliyun/static/js/error-handler.js:478 | The total wait is the delay times the n-th triangular number. |
| `ErrorHandling.ErrorHandler.constructor` | sites/aliyun/static/js/error-handler.js:7-15 | The log starts empty. |
| `ErrorHandling.ErrorHandler.LogError` | sites/aliyun/static/js/error-handler.js:257-273 | Push, then drop the oldest past 50. The bound is preserved, and the newest entry is last. |
| `ErrorHandling.ErrorHandler.HandleError` | sites/aliyun/static/js/error-handler.js:235-252 | The error is logged, and the toast is `ToastFor` it. |
| `ErrorHandling.ErrorHandler.ClearErrors` | sites/aliyun/static/js/error-handler.js:564-566 | The log is emptied. |
| `ErrorHandling.ErrorHandler.CallApi` | sites/aliyun/static/js/error-handler.js:431-497 | There are at most maxRetries + 1 attempts. The result is the first that resolves, after only rejections. Each failure before the last waits the linear back-off. When all attempts fail, the last error is logged as a network error and rethrown. |
| `DataTable.FilterFields` | sites/aliyun/static/js/core/data-table-factory.js:24-26 | The search form shows exactly the configured fields marked for it, in order. |
| `DataTable.TableFields` | sites/aliyun/static/js/core/data-table-factory.js:29-31 | The columns are exactly the configured fields marked for the table, in order. |
| `DataTable.FilterNames` | sites/aliyun/static/js/core/data-table-factory.js:37 | No declared filter name is empty. |
| `DataTable.AddSent` | sites/aliyun/static/js/core/data-table-factory.js:130-137 | A filter is set iff it is sent, with its value. Every other name is unchanged. |
| `DataTable.SearchFilters` | sites/aliyun/static/js/core/data-table-factory.js:130-137 | The API receives exactly the declared filters holding a non-empty value, each with that value. |
| `DataTable.BaseHash` | sites/aliyun/static/js/core/data-table-factory.js:89-97 | The hash always holds the region. It holds the page only past 1, and the page size only when not 10. |
| `DataTable.UrlHash` | sites/aliyun/static/js/core/data-table-factory.js:87-111 | The hash names each parameter once and carries every sent filter with its value. |
| `DataTable.UrlCarriesFilters` | sites/aliyun/static/js/core/data-table-factory.js:99-106 | The URL carries the same search filters as the API call. |
| `DataTable.HashRegion` | sites/aliyun/static/js/core/data-table-factory.js:64 | The region is the hash's non-empty region if there is one, else the stored default, else cn-hangzhou. It is never empty. |
| `DataTable.HashNumber` | sites/aliyun/static/js/core/data-table-factory.js:67-71 | A number missing from the hash keeps its current value. |
| `DataTable.HashFilter` | sites/aliyun/static/js/core/data-table-factory.js:77-78 | A filter present in the hash takes its value. |
| `DataTable.UrlRoundTrip` | sites/aliyun/static/js/core/data-table-factory.js:56-112 | Reading back the hash `updateUrl` wrote restores the region, the page, the page size and every declared filter. |
| `DataTable.NumberRoundTrip` | sites/aliyun/static/js/core/data-table-factory.js:67-71 | A page number written only when it differs from the default reads back as itself. |
| `DataTable.TotalPages` | sites/aliyun/static/js/core/data-table-factory.js:44-46 | `Math.ceil(total / size)` is the least number of pages that holds every row. It is 0 iff there are no rows. |
| `DataTable.PagesTile` | sites/aliyun/static/js/core/data-table-factory.js:44-54 | Every page from the first to the last shows a non-empty range of at most a page size. Each page starts right after the one before, and the last page ends at the total. |
| `DataTable.FailureText` | sites/aliyun/static/js/core/data-table-factory.js:156 | A failure's message, or '加载失败'. |
| `DataTable.Rows` | sites/aliyun/static/js/core/data-table-factory.js:161-167 | The rows are the truthy value the data path reaches, or the empty array. |
| `DataTable.Total` | sites/aliyun/static/js/core/data-table-factory.js:168 | The total is positive iff the reply's TotalCount is a positive number. |
| `DataTable.ReplyError` | sites/aliyun/static/js/core/data-table-factory.js:155-158 | An exception always leaves an error. A null reply leaves the TypeError of reading its `Code`. A reply with Code leaves its message or '加载失败'. A successful reply leaves none. |
| `DataTable.ReplyRows` | sites/aliyun/static/js/core/data-table-factory.js:155-168 | Rows are taken iff the reply is a non-null answer without Code, and they are always truthy. |
| `DataTable.FormatStatus` | sites/aliyun/static/js/core/data-table-factory.js:258-279 | A known status gives its entry. A name `statusMap` inherits from `Object.prototype` gives that truthy member, which has no text or class. Any other status is shown as it is, with class 'unknown'. |
| `DataTable.ShownText` | sites/aliyun/static/js/core/data-table-factory.js:238 | The badge text is the entry's text, or "undefined" for an inherited member. |
| `DataTable.ShownClass` | sites/aliyun/static/js/core/data-table-factory.js:238 | The class looked up is the entry's class, or the key "undefined" for an inherited member. |
| `DataTable.InheritedStatusUnmapped` | sites/aliyun/static/js/core/data-table-factory.js:258-279 | Every name inherited from `Object.prototype` finds the inherited member, not an entry of `statusMap`. |
| `DataTable.InheritedStatusBadge` | sites/aliyun/static/js/core/data-table-factory.js:236-279 | A status such as "constructor" shows as a plain 'badge-ghost' badge that reads "undefined". |
| `DataTable.BadgeClass` | sites/aliyun/static/js/core/data-table-factory.js:244-256 | The badge is 'badge-ghost' iff the class has no entry. |
| `DataTable.GhostBadgeOnlyForUnknown` | sites/aliyun/static/js/core/data-table-factory.js:236-279 | Every known status gets a coloured badge, and only an unknown one gets the plain badge. |
| `DataTable.Badge` | sites/aliyun/static/js/core/data-table-factory.js:236-239 | A badge is a div of class "badge". |
| `DataTable.Cell` | sites/aliyun/static/js/core/data-table-factory.js:225-241 | The checks run in this order: datetime is formatted, a suffix is appended to the value's text, a badge is drawn, and anything else is shown as it is. |
| `DataTable.ColumnValue` | sites/aliyun/static/js/core/data-table-factory.js:211-242 | The walk stops at undefined or null. A blank value shows the default. Any other value is formatted by `Cell`. |
| `DataTable.BlankCellShowsDefault` | sites/aliyun/static/js/core/data-table-factory.js:221-223 | A blank cell is never shown empty. |
| `DataTable.FilterNamesHas` | sites/aliyun/static/js/core/data-table-factory.js:34-42 | A declared filter field's name is among the filter names. |
| `DataTable.Table.constructor` | sites/aliyun/static/js/core/data-table-factory.js:11-21 | The initial state: no rows, page 1 of size 10, total 0, no region and no filters. |
| `DataTable.Table.InitFilters` | sites/aliyun/static/js/core/data-table-factory.js:34-42 | Every declared filter is reset to ''. Nothing else changes. |
| `DataTable.Table.Init` | sites/aliyun/static/js/core/data-table-factory.js:56-85 | Region, page, page size and each declared filter are read from the hash. Other filters and the rows are untouched. |
| `DataTable.Table.ReadFilters` | sites/aliyun/static/js/core/data-table-factory.js:74-81 | Each declared filter takes its hash value, and undeclared ones stay. |
| `DataTable.Table.UpdateUrl` | sites/aliyun/static/js/core/data-table-factory.js:88-112 | The pushed hash is `UrlHash` of the current state, and nothing else changes. |
| `DataTable.Table.LoadData` | sites/aliyun/static/js/core/data-table-factory.js:114-183 | The page is moved to and recorded in the URL. Without a key, or without an API, the error is set and nothing is sent. Otherwise exactly `SearchFilters` is sent, and the rows and total come from the reply, or else the error. Loading ends false. |
| `DataTable.Table.Fetch` | sites/aliyun/static/js/core/data-table-factory.js:121-182 | The request part of the load, with the same outcome as `LoadData`. |
| `DataTable.Table.Receive` | sites/aliyun/static/js/core/data-table-factory.js:155-182 | The reply's rows and total are taken, or its error set. Loading ends false. |
| `DataTable.Table.PrevPage` | sites/aliyun/static/js/core/data-table-factory.js:198-202 | Moves back iff not on page 1. |
| `DataTable.Table.NextPage` | sites/aliyun/static/js/core/data-table-factory.js:204-208 | Moves on iff before the last page, and never past it. |
| `DataTable.Table.Search` | sites/aliyun/static/js/core/data-table-factory.js:185-196 | Back to page 1, recorded in the URL, with the filters kept. |
| `DataTable.Table.ChangeRegion` | sites/aliyun/static/js/core/data-table-factory.js:189-192 | The region becomes the stored default, and page 1 is loaded. The keys are untouched. |
| `ResourceManage.ToLower` | sites/aliyun/static/js/core/resource-manage-factory.js:46 | Lower-cases each ASCII letter in place. The length is kept. |
| `ResourceManage.Camel` | sites/aliyun/static/js/core/resource-manage-factory.js:47 | Only the first character is lower-cased. The rest is kept. |
| `ResourceManage.IdNames` | sites/aliyun/static/js/core/resource-manage-factory.js:46-48 | Four names are tried: two case variants of the id field, the id field itself, then 'instanceId'. |
| `ResourceManage.FirstGiven` | sites/aliyun/static/js/core/resource-manage-factory.js:48 | A non-empty result is the value of one of the names. |
| `ResourceManage.FirstGivenIsFirst` | sites/aliyun/static/js/core/resource-manage-factory.js:48 | A chain of logical ors over the names is the value of the first name that is present and non-empty. It is '' iff no name is. |
| `ResourceManage.IdLookupOrder` | sites/aliyun/static/js/core/resource-manage-factory.js:46-48 | The camel-case id wins. 'instanceId' is read only when the camel-case, lower-case and configured spellings are all missing or empty. |
| `ResourceManage.QueryFor` | sites/aliyun/static/js/core/resource-manage-factory.js:81-88 | Instance ids, allocation id and disk id are each sent iff the id field is InstanceId, AllocationId or DiskId respectively, and they carry the resource id. |
| `ResourceManage.FirstItem` | sites/aliyun/static/js/core/resource-manage-factory.js:118 | The first row is `resources[0]`: the member named "0" of the rows. |
| `ResourceManage.Loaded` | sites/aliyun/static/js/core/resource-manage-factory.js:99-119 | A resource is taken exactly when the reply is a non-null answer without Code that leaves no error. |
| `ResourceManage.NameText` | sites/aliyun/static/js/core/resource-manage-factory.js:119 | A string name is kept as it is. Null, false and 0 give ''. |
| `ResourceManage.MessageText` | sites/aliyun/static/js/core/resource-manage-factory.js:238 | A missing Message reads "undefined". A string Message is shown as it is. |
| `ResourceManage.LoadError` | sites/aliyun/static/js/core/resource-manage-factory.js:99-121 | An exception always leaves an error. A null reply leaves the TypeError of reading its `Code`. A reply with Code leaves its message or '加载失败'. For a successful reply, '资源不存在' is set iff the rows are empty, and otherwise there is no error. |
| `ResourceManage.FieldText` | sites/aliyun/static/js/core/resource-manage-factory.js:137-141 | A value that is undefined, null or '' shows the default, or '-'. Any other value is shown as it is. The text is never '' or null. |
| `ResourceManage.FieldValue` | sites/aliyun/static/js/core/resource-manage-factory.js:128-142 | Walking the field path gives the `FieldText` of the value the path reaches. |
| `ResourceManage.Chosen` | sites/aliyun/static/js/core/resource-manage-factory.js:146-151 | The fallback is used only when the field's own value is '-' or falsy. With a fallback, the value is always truthy. |
| `ResourceManage.TimeText` | sites/aliyun/static/js/core/resource-manage-factory.js:185-188 | A falsy value or '-' shows as '-'. |
| `ResourceManage.DetailFieldValue` | sites/aliyun/static/js/core/resource-manage-factory.js:145-173 | A boolean formatter gives '已开启' only for true. A datetime column gives its time text. A suffix is added to anything but '-'. |
| `ResourceManage.ListPage` | sites/aliyun/static/js/core/resource-manage-factory.js:252-257 | An id field containing 'Allocation' goes back to eip_list.html. Every other id field goes back to ecs_instances.html. |
| `ResourceManage.AfterRelease` | sites/aliyun/static/js/core/resource-manage-factory.js:243-262 | A standalone page navigates to the list page. An embedded page asks its parent to close the modal iff it is framed. |
| `ResourceManage.Manager.constructor` | sites/aliyun/static/js/core/resource-manage-factory.js:9-21 | The component starts loading, with no resource, empty ids, no error, no operation running, not embedded and an empty rename name. |
| `ResourceManage.Manager.Init` | sites/aliyun/static/js/core/resource-manage-factory.js:40-59 | The id, the region and the embed flag are read from the hash. The resource loads iff both the id and the region are given, and the state is then `AfterLoad` of the current key and the get API. Otherwise the error is '缺少必要参数' and the resource is kept. |
| `ResourceManage.Manager.LoadResource` | sites/aliyun/static/js/core/resource-manage-factory.js:61-125 | The state is `AfterLoad`: without a key, or without an API, the error is set and the resource and name kept; otherwise the first row and its name are taken, or `LoadError` is set. Loading ends false, and the ids are untouched. |
| `ResourceManage.Manager.Receive` | sites/aliyun/static/js/core/resource-manage-factory.js:99-124 | The reply's first row is taken, or its error is set. Loading ends false. |
| `ResourceManage.Manager.ExecuteAction` | sites/aliyun/static/js/core/resource-manage-factory.js:217-272 | A running action blocks another one. Otherwise the outcome is alerted, a null reply as the TypeError of reading its `Code`. A successful release leaves the page. Any other success reloads, leaving `AfterLoad` of the current key and the get API; without a reload the resource, error, name and loading flag are kept. 'operating' ends false. |
| `ResourceManage.Manager.Perform` | sites/aliyun/static/js/core/resource-manage-factory.js:237-266 | A failure alerts its message. A success alerts that the order was sent, and only a release adds the navigation. A success other than a release leaves `AfterLoad`; otherwise the resource, error, name and loading flag are kept. |

## Left out

- Sockets, HTTP parsing, file reading and the template engines (Go's pongo2, `github.com/flosch/pongo2/v6`; Nunjucks; Twig; Jinja2) are not modelled. A request is a method and a path, a file is a map entry, and a rendered page is the template name with its context.
- gzip, HMAC-SHA1, Base64, UUIDs, the clock and `Date` formatting are parameters or tagged values, not computed.
- The Go limiter's mutex and the goroutines of the CDN prewarm are left out. Every call is modelled as atomic and sequential.
- Go's eviction of "the first key of the map" is modelled as the eviction of any one key, because Go's map order is unspecified.
- The Go server's 10 MB `MaxBytesReader`, its read and write timeouts, and its start-up log lines (servers/go/main.go:253-295) are left out.
- Go's page order compares `order` as a float64 (servers/go/main.go:589-601). The model uses integer orders.
- Node's `localeCompare` (servers/nodejs/server.js:240, 254, 331) is approximated by code-point order, because the locale's collation is not part of the model.
- Node's start-up abort on a malformed configuration, and the Python 308 redirect body, are left out.
- `parseInt` is modelled on text without leading blanks, sign or "0x" prefix. Python `int()` is modelled without whitespace, sign and underscores.
- Paths are assumed free of line terminators, so JavaScript and PCRE `.` and `$` behave as plain string ends.
- CdnCache.GoFetch: `http.Get` is modelled as Go's default client: it follows 301, 302, 303, 307 and 308 when a Location is present, and gives up when the tenth request is still redirected. Relative Locations, cookies and header handling on redirects are left out.
- NodeRouter.Route: the inherited names are those of `Object.prototype` in V8. A Host header that makes `new URL` throw, and a site whose own name is inherited, are not modelled apart from the rules above.
- NodeRouter.ServeStatic: only a directory is modelled as readable but not streamable. Other read-stream errors after `fs.access` succeeds, such as a file removed in between, are left out.
- CdnCache.CacheOutcome: the cache is a flat map whose entries are files, unreadable files or directories. Permissions, symbolic links and a cache directory that cannot be created are left out.
- CdnCache.NodeFetch: Node's recursion on 301/302 has no bound. Here it follows at most `fuel` redirects, and a longer chain ends as `RedirectLimit`.
- CdnCache.NodeFetch: a 200 whose body breaks off is `Stalled`. The piped stream has no error handler, so the promise never settles and the partial file stays. The model returns at that point: the handler answers nothing and the prewarm loop stops. A timeout that might end the socket later is left out.
- CdnCache.NodeUrlOk: the URLs `http.get` accepts are approximated by the prefixes "http://" and "https://". Other spellings the WHATWG URL parser accepts, such as "HTTP://host/x" or "http:host/x", count as refused here, and "http://" with no host counts as accepted.
- Sites.ConfigFile: a config.json is absent, not JSON, or a JSON object. A top-level null, array, string, number or boolean is not modelled. Go loads a null as its zero struct and refuses the others; the other servers test the value's truthiness.
- GoConfig.Decodes: keys are matched exactly. Go's `encoding/json` also matches a key that differs only in case, such as "Pages", and that is not modelled.
- Routing.Outcome: `SiteConfig` names the site whose config is sent, not the bytes. Go sends `GoConfig.Encoded` of the file. Node sends the document as parsed. PHP's `json_encode` of the decoded array writes an empty object as `[]`. Flask's `jsonify` sorts the keys. These encodings are not modelled beyond Go's.
- CdnMap.CacheKeyInjective: it is about cache keys, not files. `path.join` and `filepath.Join` normalise the key, so "a//b" and "a/b", or "a/./b" and "a/b", share one file. In Node, a key with ".." segments can leave the cache directory. Path normalisation is not modelled.
- The rendering of the home page of a site list is modelled as its ordered listing only.
- The login-page script of sites/aliyun/static/js/auth.js:109-162 (reading the form and redirecting) is DOM code and is not modelled. `AccessKeyStore` is.
- `RegionManager` and `AppStore` (sites/aliyun/static/js/store.js:265-351) are not modelled. Their only role in the core is the default region, which `KeyManager` keeps.
- Store.KeyManager: the keys, index and region are typed fields, not raw storage entries. The raw entries it shares with `AccessKeyStore` are not modelled: the manager's storage prefix "aliyun_" and its names 'access_keys' and 'default_region' give the entries 'aliyun_access_keys' and 'aliyun_default_region' that sites/aliyun/static/js/auth.js:5-8 also uses. Its `get` rewraps auth.js's raw array as `{value, timestamp, expiresIn}`. The current key is kept under 'aliyun_current_key_id' (an id), where auth.js keeps 'aliyun_current_index' (an index), so the two never agree on the current key.
- Auth.AccessKeyStore: its entries are typed fields, so the model does not capture what happens once `KeyManager` has rewrapped the shared entry. `getKeys` then returns the wrapper object, `addKey` and `updateKey` throw at `keys.find`, `isLoggedIn` is false (so sites/aliyun/static/js/common.js shows the login prompt), and `getDefaultRegion` returns the wrapper's JSON text.
- Store.StorageManager.Set: a storage quota error is not modelled, and every write succeeds.
- ResourceManage.ToLower: lower-casing covers ASCII letters only, where `toLowerCase` folds every Unicode letter.
- `visibleActions` of the resource page evaluates `showWhen` with `new Function` and is not modelled. Neither are `handleAction`, `saveRename` and `openVnc`, which are browser dialogs and calls outside the core.
- The toasts, the loading toast and the `onRetry` callbacks of sites/aliyun/static/js/error-handler.js are DOM output and are not modelled. Neither are the timestamp, user agent and URL of a logged error. An error's text is modelled as its `message`, not as `String(error)`.
- `URLSearchParams` serialisation is modelled as an ordered list of name and value pairs, without percent-encoding of the hash.
- DataTable.HashNumber: a page or page size that reads as NaN, 0 or a negative number keeps the current value.
- DataTable.Total: a TotalCount that is not a positive integer reads as 0.
- `changePageSize` of the data table is modelled by `Search`, which it calls after setting the size. `startItem` and `endItem` are covered by `PagesTile`.
- ResourceManage.DetailFieldValue: the memory formatter's division is the parameter `memoryText`, and the date text is the parameter `formatTime`.
- ResourceManage.AfterRelease: whether the page is inside a frame (`window.parent !== window`) is the parameter `framed`.
- ResourceManage.NullKeyMessage: the TypeError text is the V8 wording. Other engines word it differently.
- DataTable.NullReplyMessage: only a null reply is modelled as the TypeError of reading `Code`. The values have no `undefined`, so a reply of undefined is left out.
- ErrorHandling.Message: the 200-character cut counts code points. `substring` counts UTF-16 code units, so a message with characters outside the Basic Multilingual Plane is cut earlier in the source, possibly inside a surrogate pair.
- Json.Value: numbers are integers. A fractional number, such as the text "1.5" that `String(1.5)` gives in `FieldPath.Display`, cannot be represented.
- Addr.NodeListen: the port is not range-checked. ":99999" yields port 99999, where `server.listen` throws a RangeError above 65535.
- ApiParams.SortStrings: names are ordered by code point, where `.sort()` compares UTF-16 code units. The two orders differ only for characters above U+FFFF, which parameter names do not contain.

## Findings

| source | as written | input that shows it | evidently intended | confidence | as-written member | corrected member |
|---|---|---|---|---|---|---|
| sites/aliyun/static/js/store.js:202-216 | `updateKey` replaces the key without checking its id against the other keys, although `addKey` refuses a duplicate id | keys with ids ID1 and ID2; update the second key to id ID1 | refuse an update whose id another key already carries, as auth.js does | medium, not executed | `Store.UpdateKeyBreaksUnique` | `Store.KeyManager.UpdateKeyChecked` |
| sites/aliyun/static/js/auth.js:61-73 | `deleteKey` only clamps the current index when it falls off the end, so deleting a key below the current one makes another key current | keys A, B, C, D with C current; delete index 0, and D becomes current | shift the current index down when a key below it is deleted, as store.js does | medium, not executed | `Auth.DeleteBelowCurrentSwitchesKey` | `Credentials.ShiftKeepsCurrentKey` |
| servers/nodejs/server.js:372-383 | `fs.access` with R_OK also passes for a directory, so the 200 header is written and the read stream's EISDIR error, which has no listener, ends the process | GET "/aliyun/static/js", a directory of the site | answer 404 for anything that is not a regular file, as PHP's `is_file` test does | high, not executed | `NodeRouter.StaticDirectoryCrashes` | `NodeRouter.ServeStaticChecked` |
