/**
 * The download-once cache behind the CDN proxy: `downloadCDNFile`,
 * `handleCDNProxy` and `prewarmCache` of servers/go/cdn.go and
 * servers/nodejs/cdn-utils.js.
 *
 * The cache directory is a `FileStore` whose `files` map a path below it
 * to a file, a file that exists but cannot be read, or a directory. A
 * download creates the directories its key lies in, so a request for one
 * of those directories later finds it. The origin
 * is a function from URL to what the request brings back. Go's `http.Get`
 * follows redirects itself, at most ten requests in all; Node follows
 * 301 and 302 by recursion without bound, and here a `fuel` count bounds
 * that chain.
 */
module CdnCache {
  import opened Wrappers
  import opened Strs
  import Respond
  import CdnMap

  type Bytes = Respond.Bytes

  datatype FileEntry = Readable(data: Bytes) | Unreadable | Directory

  /**
   * An HTTP answer: status, Location header ("" when absent), body, and
   * whether the body arrived whole; a body that broke off holds the part
   * that arrived.
   */
  datatype Reply = Reply(status: int, location: string, body: Bytes, bodyIntact: bool)
  datatype Fetch = Answered(reply: Reply) | TransportError

  /**
   * Why a download brings no file. `Stalled` is Node's 200 whose body
   * broke off: the piped stream has no error handler, so the partial file
   * stays and the promise never settles. `MkdirFailed`: a file stands where
   * one of the key's directories must be. `Crashed`: Node's write stream
   * cannot open its file because the parent is a file; nothing listens for
   * that 'error', and the server process dies. `InvalidUrl`: Node's
   * `http.get` throws on a URL that is not absolute http(s) (a relative
   * Location such as "/x" or "//host/x", another scheme), after the write
   * stream has already created the empty file, which then stays.
   */
  datatype DownloadError = Transport | BadStatus(code: int) | CopyFailed | MissingLocation | RedirectLimit
                         | Stalled(partial: Bytes) | MkdirFailed | Crashed | InvalidUrl

  /** The file a failed download leaves under its key, if any: the part of a stalled body, or the empty file of a refused URL. */
  function Leftover(e: DownloadError): (left: Option<Bytes>)
    ensures left.Some? <==> e.Stalled? || e.InvalidUrl?
    ensures e.Stalled? ==> left == Some(e.partial)
    ensures e.InvalidUrl? ==> left == Some([])
  {
    match e
    case Stalled(partial) => Some(partial)
    case InvalidUrl => Some([])
    case _ => None
  }

  /** The two errors after which nothing more happens: the promise never settles, or the process is gone. */
  predicate Halts(e: DownloadError) {
    e.Stalled? || e.Crashed?
  }

  /** Which proxy implementation: they differ in redirect and error handling. */
  datatype Proxy = GoProxy | NodeProxy

  class FileStore {
    var files: map<string, FileEntry>

    constructor (initial: map<string, FileEntry>)
      ensures files == initial
    {
      files := initial;
    }
  }

  /** The statuses Go's client follows when they carry a Location. */
  predicate GoRedirect(r: Reply) {
    r.status in {301, 302, 303, 307, 308} && r.location != ""
  }

  /** `defaultCheckRedirect`: one `Get` makes at most ten requests. */
  const GoMaxRequests: nat := 10

  /**
   * `http.Get` with the default client, after `sent` earlier requests of
   * the same chain: a redirect with a Location is followed, and a redirect
   * answering the tenth request is an error; anything else is returned.
   */
  function GoGet(origin: string -> Fetch, url: string, sent: nat): (r: Result<Reply, DownloadError>)
    requires sent < GoMaxRequests
    ensures r.Success? ==> !GoRedirect(r.value)
    ensures r.Failure? ==> r.error == Transport || r.error == RedirectLimit
    decreases GoMaxRequests - sent
  {
    match origin(url)
    case TransportError => Failure(Transport)
    case Answered(reply) =>
      if !GoRedirect(reply) then Success(reply)
      else if sent + 1 == GoMaxRequests then Failure(RedirectLimit)
      else GoGet(origin, reply.location, sent + 1)
  }

  /**
   * What Go's `downloadCDNFile` obtains from `url` on a cache miss: what
   * `http.Get` returns, a non-200 as an error, and a body that fails while
   * being copied as an error. Its own 301/302 branch never fires, since
   * the client has already followed every redirect carrying a Location.
   */
  function GoFetch(origin: string -> Fetch, url: string): (r: Result<Bytes, DownloadError>)
    ensures r.Failure? ==> !r.error.Stalled? && !r.error.MissingLocation? && !r.error.InvalidUrl?
  {
    match GoGet(origin, url, 0)
    case Failure(e) => Failure(e)
    case Success(reply) =>
      if reply.status != 200 then Failure(BadStatus(reply.status))
      else if !reply.bodyIntact then Failure(CopyFailed)
      else Success(reply.body)
  }

  /** A 303, 307 or 308 with a Location is followed like a 301: the file it leads to is the one fetched. */
  lemma GoFollowsClientRedirect(origin: string -> Fetch, url: string, body: Bytes)
    requires origin(url).Answered? && GoRedirect(origin(url).reply)
    requires origin(origin(url).reply.location) == Answered(Reply(200, "", body, true))
    ensures GoFetch(origin, url) == Success(body)
  {
  }

  /** A redirect without a Location is returned by the client, and Go answers it as a bad status. */
  lemma GoRedirectWithoutLocation(origin: string -> Fetch, url: string)
    requires origin(url).Answered? && origin(url).reply.status in {301, 302, 303, 307, 308}
    requires origin(url).reply.location == ""
    ensures GoFetch(origin, url) == Failure(BadStatus(origin(url).reply.status))
  {
  }

  /** An origin that redirects every request makes the client give up after its tenth request. */
  lemma {:induction false} GoEndlessRedirects(origin: string -> Fetch, url: string, sent: nat)
    requires sent < GoMaxRequests
    requires forall u :: origin(u).Answered? && GoRedirect(origin(u).reply)
    ensures GoGet(origin, url, sent) == Failure(RedirectLimit)
    decreases GoMaxRequests - sent
  {
    assert origin(url).Answered? && GoRedirect(origin(url).reply);
    if sent + 1 < GoMaxRequests {
      GoEndlessRedirects(origin, origin(url).reply.location, sent + 1);
    }
  }

  /**
   * The URLs Node's `http.get` and `https.get` accept: absolute, with the
   * scheme the module was picked for (`https` when the URL starts with it).
   */
  predicate NodeUrlOk(url: string) {
    StartsWith(url, "http://") || StartsWith(url, "https://")
  }

  /**
   * What Node's `downloadCDNFile` obtains from `url` on a cache miss. A
   * URL `http.get` refuses fails before any request; a 200 is stored as it
   * arrives, and one whose body breaks off stalls; a 301/302 without
   * Location makes the recursive call fail on `undefined`, and one with a
   * Location runs the whole download again on it, as it stands.
   */
  function NodeFetch(origin: string -> Fetch, url: string, fuel: nat): (r: Result<Bytes, DownloadError>)
    ensures !NodeUrlOk(url) ==> r == Failure(InvalidUrl)
    ensures r.Failure? ==> !r.error.CopyFailed?
    ensures r.Failure? && r.error.BadStatus? ==> r.error.code !in {200, 301, 302}
    decreases fuel
  {
    if !NodeUrlOk(url) then Failure(InvalidUrl)
    else match origin(url)
    case TransportError => Failure(Transport)
    case Answered(r) =>
      if r.status == 200 then (if r.bodyIntact then Success(r.body) else Failure(Stalled(r.body)))
      else if r.status == 301 || r.status == 302 then
        if r.location == "" then Failure(MissingLocation)
        else if fuel == 0 then Failure(RedirectLimit)
        else NodeFetch(origin, r.location, fuel - 1)
      else Failure(BadStatus(r.status))
  }

  /** Node follows only 301 and 302: a 307 with a Location is a failed download. */
  lemma NodeRefuses307(origin: string -> Fetch, url: string, fuel: nat)
    requires NodeUrlOk(url) && origin(url).Answered? && origin(url).reply.status == 307
    ensures NodeFetch(origin, url, fuel) == Failure(BadStatus(307))
  {
  }

  function FetchBy(proxy: Proxy, origin: string -> Fetch, url: string, fuel: nat): Result<Bytes, DownloadError> {
    match proxy
    case GoProxy => GoFetch(origin, url)
    case NodeProxy => NodeFetch(origin, url, fuel)
  }

  /** `d` is a directory the key lies in: a non-empty prefix of `key` followed by the separator. */
  predicate IsAncestor(d: string, key: string, sep: char) {
    0 < |d| < |key| && key[..|d|] == d && key[|d|] == sep
  }

  function Ancestors(key: string, sep: char): (ds: set<string>)
    ensures forall d :: d in ds <==> IsAncestor(d, key, sep)
  {
    assert forall d | IsAncestor(d, key, sep) :: d == key[..|d|];
    set i | 0 < i < |key| && key[i] == sep :: key[..i]
  }

  /** A directory of a directory of the key is a directory of the key. */
  lemma AncestorTransitive(d: string, e: string, key: string, sep: char)
    requires IsAncestor(d, e, sep) && IsAncestor(e, key, sep)
    ensures IsAncestor(d, key, sep)
  {
    assert key[..|d|] == key[..|e|][..|d|];
    assert key[|d|] == key[..|e|][|d|];
  }

  /**
   * `path.dirname` of the key below the cache directory: its longest
   * directory, or None when the key lies directly in the cache directory.
   */
  function Parent(key: string, sep: char): (p: Option<string>)
    ensures p.Some? ==> IsAncestor(p.value, key, sep)
    ensures p.None? ==> forall d :: !IsAncestor(d, key, sep)
  {
    match LastIndexOf(key, sep)
    case None =>
      assert forall j | 0 <= j < |key| :: key[j] in key;
      None
    case Some(i) =>
      if i == 0 then
        assert forall j | i < j < |key| :: key[j] == key[i + 1..][j - i - 1];
        None
      else Some(key[..i])
  }

  /** Every other directory of the key is a directory of its parent. */
  lemma AncestorOfParent(d: string, key: string, sep: char)
    requires IsAncestor(d, key, sep) && Parent(key, sep).Some? && d != Parent(key, sep).value
    ensures IsAncestor(d, Parent(key, sep).value, sep)
  {
    var i := LastIndexOf(key, sep).value;
    assert forall j | i < j < |key| :: key[j] == key[i + 1..][j - i - 1];
    assert |d| < i;
    var p := key[..i];
    assert p[..|d|] == key[..|d|];
    assert p[|d|] == key[|d|];
  }

  /** A directory of the key exists as something other than a directory. */
  predicate Blocked(files: map<string, FileEntry>, key: string, sep: char) {
    exists d :: IsAncestor(d, key, sep) && d in files && !files[d].Directory?
  }

  /** `files` with each missing directory of the key created. */
  function WithDirs(files: map<string, FileEntry>, key: string, sep: char): (r: map<string, FileEntry>)
    ensures forall k :: k in r <==> k in files || IsAncestor(k, key, sep)
    ensures forall k | k in files :: r[k] == files[k]
    ensures forall k | k in r && k !in files :: r[k] == Directory
  {
    map k | k in files.Keys + Ancestors(key, sep) :: if k in files then files[k] else Directory
  }

  /** The key's parent directory exists, whatever it is. */
  predicate ParentExists(files: map<string, FileEntry>, key: string, sep: char) {
    Parent(key, sep).Some? && Parent(key, sep).value in files
  }

  /** The key's parent exists and is not a directory. */
  predicate ParentIsFile(files: map<string, FileEntry>, key: string, sep: char) {
    ParentExists(files, key, sep) && !files[Parent(key, sep).value].Directory?
  }

  /**
   * What `downloadCDNFile` does to the key's directories before its hit
   * test. Go's `os.MkdirAll` fails when a file stands where a directory
   * must be, and otherwise creates each missing directory. Node skips
   * `mkdirSync` when the parent exists, whatever it is; otherwise its
   * recursive `mkdirSync` fails or creates as Go's does.
   */
  function MakeDirs(proxy: Proxy, files: map<string, FileEntry>, key: string, sep: char)
    : (r: Result<map<string, FileEntry>, DownloadError>)
    ensures r.Failure? ==> r.error == MkdirFailed && Blocked(files, key, sep)
    ensures proxy == GoProxy || !ParentExists(files, key, sep) ==> (r.Failure? <==> Blocked(files, key, sep))
    ensures proxy == NodeProxy && ParentExists(files, key, sep) ==> r == Success(files)
    ensures r.Success? ==> forall k | k in files :: k in r.value && r.value[k] == files[k]
    ensures r.Success? ==> forall k | k in r.value && k !in files :: IsAncestor(k, key, sep) && r.value[k] == Directory
    ensures r.Success? && (proxy == GoProxy || !ParentExists(files, key, sep)) ==>
              forall d | IsAncestor(d, key, sep) :: d in r.value && r.value[d] == Directory
  {
    if proxy == NodeProxy && ParentExists(files, key, sep) then Success(files)
    else if Blocked(files, key, sep) then Failure(MkdirFailed)
    else Success(WithDirs(files, key, sep))
  }

  /** Once the directories are made, making them again, even after more entries appeared, changes nothing. */
  lemma MakeDirsAgain(proxy: Proxy, files: map<string, FileEntry>, key: string, sep: char, m: map<string, FileEntry>)
    requires MakeDirs(proxy, files, key, sep).Success?
    requires var ready := MakeDirs(proxy, files, key, sep).value;
             forall k | k in ready :: k in m && m[k] == ready[k]
    ensures MakeDirs(proxy, m, key, sep) == Success(m)
  {
    var ready := MakeDirs(proxy, files, key, sep).value;
    if proxy == NodeProxy && ParentExists(files, key, sep) {
      assert ParentExists(m, key, sep);
    } else {
      assert !Blocked(m, key, sep);
      assert WithDirs(m, key, sep) == m;
      match Parent(key, sep)
      case None =>
      case Some(p) => assert p in ready;
    }
  }

  /**
   * The download once the directories are made: a present key is a hit
   * and nothing is fetched; Node dies when the parent is a file; otherwise
   * a successful fetch stores its body under the key, a failure with a
   * `Leftover` leaves that file, and any other failure leaves the cache as
   * it was.
   */
  function StoreOutcome(proxy: Proxy, ready: map<string, FileEntry>, key: string, sep: char,
                        fetched: Result<Bytes, DownloadError>)
    : (out: (Result<string, DownloadError>, map<string, FileEntry>))
    ensures key in ready ==> out == (Success(key), ready)
    ensures key !in ready && proxy == NodeProxy && ParentIsFile(ready, key, sep) ==> out == (Failure(Crashed), ready)
    ensures out.0.Success? <==> key in ready || (fetched.Success? && !(proxy == NodeProxy && ParentIsFile(ready, key, sep)))
    ensures out.0.Success? ==> out.0.value == key && key in out.1
    ensures out.0.Failure? && !out.0.error.Crashed? ==> out.0.error == fetched.error
    ensures out.0.Failure? && Leftover(out.0.error).None? ==> out.1 == ready
    ensures key !in ready && out.0.Success? ==> out.1 == ready[key := Readable(fetched.value)]
    ensures out.0.Failure? && Leftover(out.0.error).Some? ==>
              fetched.Failure? && out.1 == ready[key := Readable(Leftover(out.0.error).value)]
  {
    if key in ready then (Success(key), ready)
    else if proxy == NodeProxy && ParentIsFile(ready, key, sep) then (Failure(Crashed), ready)
    else match fetched
      case Success(body) => (Success(key), ready[key := Readable(body)])
      case Failure(e) =>
        (Failure(e), match Leftover(e) case Some(left) => ready[key := Readable(left)] case None => ready)
  }

  /** `downloadCDNFile` on the cache: the directories first, then the hit test and the fetch. */
  function CacheOutcome(proxy: Proxy, files: map<string, FileEntry>, key: string, sep: char,
                        fetched: Result<Bytes, DownloadError>)
    : (out: (Result<string, DownloadError>, map<string, FileEntry>))
    ensures MakeDirs(proxy, files, key, sep).Failure? ==> out == (Failure(MkdirFailed), files)
    ensures MakeDirs(proxy, files, key, sep).Success? ==>
              out == StoreOutcome(proxy, MakeDirs(proxy, files, key, sep).value, key, sep, fetched)
    ensures out.0.Success? ==> out.0.value == key && key in out.1
    ensures forall k | k in files :: k in out.1 && out.1[k] == files[k]
  {
    match MakeDirs(proxy, files, key, sep)
    case Failure(e) => (Failure(e), files)
    case Success(ready) => StoreOutcome(proxy, ready, key, sep, fetched)
  }

  /** Download once: after a successful download the same key is a hit, whatever the origin says then. */
  lemma DownloadOnce(proxy: Proxy, files: map<string, FileEntry>, key: string, sep: char,
                     first: Result<Bytes, DownloadError>, later: Result<Bytes, DownloadError>)
    requires CacheOutcome(proxy, files, key, sep, first).0.Success?
    ensures var after := CacheOutcome(proxy, files, key, sep, first).1;
            CacheOutcome(proxy, after, key, sep, later) == (Success(key), after)
  {
    var after := CacheOutcome(proxy, files, key, sep, first).1;
    MakeDirsAgain(proxy, files, key, sep, after);
  }

  /**
   * A Node download that stalls or is refused its URL leaves a file, the
   * partial body or an empty one, that every later request takes for a hit.
   */
  lemma LeftoverIsCached(files: map<string, FileEntry>, key: string, sep: char, e: DownloadError,
                         later: Result<Bytes, DownloadError>)
    requires key !in files && !Blocked(files, key, sep)
    requires Leftover(e).Some?
    ensures var after := CacheOutcome(NodeProxy, files, key, sep, Failure(e)).1;
            after[key] == Readable(Leftover(e).value) && CacheOutcome(NodeProxy, after, key, sep, later) == (Success(key), after)
  {
    var ready := MakeDirs(NodeProxy, files, key, sep).value;
    if ParentExists(files, key, sep) {
      assert !ParentIsFile(ready, key, sep);
    }
    var after := CacheOutcome(NodeProxy, files, key, sep, Failure(e)).1;
    MakeDirsAgain(NodeProxy, files, key, sep, after);
  }

  /**
   * A redirect to a Location Node cannot request ("/3.4.16", say) fails
   * with a 502, yet leaves an empty file under the key, which every later
   * request serves as a 200 with no body.
   */
  lemma RelativeLocationLeavesEmptyFile(origin: string -> Fetch, url: string, fuel: nat, files: map<string, FileEntry>,
                                        key: string, sep: char, later: Result<Bytes, DownloadError>, t: CdnMap.Target)
    requires NodeUrlOk(url) && origin(url).Answered? && origin(url).reply.status in {301, 302}
    requires origin(url).reply.location != "" && !NodeUrlOk(origin(url).reply.location) && fuel > 0
    requires key !in files && !Blocked(files, key, sep)
    ensures var out := CacheOutcome(NodeProxy, files, key, sep, NodeFetch(origin, url, fuel));
            && out.0 == Failure(InvalidUrl)
            && out.1[key] == Readable([])
            && CacheOutcome(NodeProxy, out.1, key, sep, later) == (Success(key), out.1)
            && NodeServeCached(out.1[key], "Failed to read cache file", t) == Deliver(200, t.mime, CacheControl, [])
  {
    assert NodeFetch(origin, url, fuel) == Failure(InvalidUrl);
    LeftoverIsCached(files, key, sep, InvalidUrl, later);
  }

  /** Only the requested key can change, and only the key's directories can appear beside it. */
  lemma OtherKeysUntouched(proxy: Proxy, files: map<string, FileEntry>, key: string, sep: char,
                           fetched: Result<Bytes, DownloadError>, other: string)
    requires other != key
    ensures var after := CacheOutcome(proxy, files, key, sep, fetched).1;
            && (other in files ==> other in after && after[other] == files[other])
            && (other in after && other !in files ==> IsAncestor(other, key, sep) && after[other] == Directory)
  {
  }

  /** A real directory tree: every directory an entry lies in exists, as a directory. */
  ghost predicate Tree(files: map<string, FileEntry>, sep: char) {
    forall k, d | k in files && IsAncestor(d, k, sep) :: d in files && files[d] == Directory
  }

  /** On a real tree, a successful download leaves each of the key's directories a directory. */
  lemma DownloadMakesDirectories(proxy: Proxy, files: map<string, FileEntry>, key: string, sep: char,
                                 fetched: Result<Bytes, DownloadError>, d: string)
    requires Tree(files, sep)
    requires CacheOutcome(proxy, files, key, sep, fetched).0.Success?
    requires IsAncestor(d, key, sep)
    ensures var after := CacheOutcome(proxy, files, key, sep, fetched).1;
            d in after && after[d] == Directory
  {
    if proxy == NodeProxy && ParentIsFile(files, key, sep) {
      assert false;
    }
    DownloadDirs(proxy, files, key, sep, fetched, d);
  }

  /** Downloads keep the cache a real tree. */
  lemma CacheKeepsTree(proxy: Proxy, files: map<string, FileEntry>, key: string, sep: char,
                       fetched: Result<Bytes, DownloadError>)
    requires Tree(files, sep)
    ensures Tree(CacheOutcome(proxy, files, key, sep, fetched).1, sep)
  {
    var after := CacheOutcome(proxy, files, key, sep, fetched).1;
    forall k, d | k in after && IsAncestor(d, k, sep)
      ensures d in after && after[d] == Directory
    {
      if k !in files {
        assert MakeDirs(proxy, files, key, sep).Success?;
        if proxy == NodeProxy && ParentIsFile(files, key, sep) {
          assert false;
        }
        if k != key {
          AncestorTransitive(d, k, key, sep);
        }
        DownloadDirs(proxy, files, key, sep, fetched, d);
      }
    }
  }

  /** On a real tree, each directory of the key is a directory after anything but a failed `mkdir` or a crash. */
  lemma DownloadDirs(proxy: Proxy, files: map<string, FileEntry>, key: string, sep: char,
                     fetched: Result<Bytes, DownloadError>, d: string)
    requires Tree(files, sep)
    requires MakeDirs(proxy, files, key, sep).Success?
    requires !(proxy == NodeProxy && ParentIsFile(files, key, sep))
    requires IsAncestor(d, key, sep)
    ensures var after := CacheOutcome(proxy, files, key, sep, fetched).1;
            d in after && after[d] == Directory
  {
    if proxy == NodeProxy && ParentExists(files, key, sep) {
      var p := Parent(key, sep).value;
      if d != p {
        AncestorOfParent(d, key, sep);
      }
    }
  }

  /**
   * A file where the key's parent directory must be: Go's `MkdirAll`
   * fails and the proxy answers 502; Node skips `mkdirSync`, and its
   * write stream's failure kills the process.
   */
  lemma FileBlocksNestedKey(files: map<string, FileEntry>, key: string, sep: char,
                            fetched: Result<Bytes, DownloadError>)
    requires Tree(files, sep)
    requires ParentIsFile(files, key, sep)
    ensures CacheOutcome(GoProxy, files, key, sep, fetched) == (Failure(MkdirFailed), files)
    ensures CacheOutcome(NodeProxy, files, key, sep, fetched) == (Failure(Crashed), files)
  {
    var p := Parent(key, sep).value;
    assert Blocked(files, key, sep);
    assert key !in files;
  }

  /** Node follows a 301 or 302 with a Location under the same cache key. */
  lemma RedirectKeepsKey(origin: string -> Fetch, url: string, fuel: nat)
    requires NodeUrlOk(url) && origin(url).Answered? && origin(url).reply.status in {301, 302}
    requires origin(url).reply.location != "" && fuel > 0
    ensures NodeFetch(origin, url, fuel) == NodeFetch(origin, origin(url).reply.location, fuel - 1)
  {
  }

  /**
   * `downloadCDNFile` of servers/go/cdn.go: `MkdirAll` on the key's
   * directory, the hit test, then the file, created only after a 200 and
   * removed if the copy fails.
   */
  method GoDownload(store: FileStore, origin: string -> Fetch, url: string, key: string, sep: char)
    returns (r: Result<string, DownloadError>)
    modifies store
    ensures (r, store.files) == CacheOutcome(GoProxy, old(store.files), key, sep, GoFetch(origin, url))
  {
    var made := MakeDirs(GoProxy, store.files, key, sep);
    if made.Failure? {
      return Failure(made.error);
    }
    store.files := made.value;
    if key in store.files {
      return Success(key);
    }
    var got := GoGet(origin, url, 0);
    if got.Failure? {
      return Failure(got.error);
    }
    var reply := got.value;
    if (reply.status == 301 || reply.status == 302) && reply.location != "" {
      assert false;
    }
    if reply.status != 200 {
      return Failure(BadStatus(reply.status));
    }
    ghost var before := store.files;
    store.files := store.files[key := Readable([])];
    if !reply.bodyIntact {
      store.files := store.files - {key};
      assert store.files == before;
      return Failure(CopyFailed);
    }
    store.files := store.files[key := Readable(reply.body)];
    assert store.files == before[key := Readable(reply.body)];
    return Success(key);
  }

  /**
   * `downloadCDNFile` of servers/nodejs/cdn-utils.js: `mkdirSync` unless
   * the parent exists, the hit test, then the write stream, which creates
   * the file before the request; a URL `http.get` throws on leaves it
   * empty, and every other failure but a broken 200 body unlinks it. A stalled download returns `Stalled`: the promise never
   * settles, and the partial file stays. A redirect runs the whole
   * function again on the Location.
   */
  method NodeDownload(store: FileStore, origin: string -> Fetch, url: string, key: string, sep: char, fuel: nat)
    returns (r: Result<string, DownloadError>)
    modifies store
    ensures (r, store.files) == CacheOutcome(NodeProxy, old(store.files), key, sep, NodeFetch(origin, url, fuel))
    decreases fuel
  {
    var made := MakeDirs(NodeProxy, store.files, key, sep);
    if made.Failure? {
      return Failure(made.error);
    }
    store.files := made.value;
    if key in store.files {
      return Success(key);
    }
    if ParentIsFile(store.files, key, sep) {
      return Failure(Crashed);
    }
    ghost var before := store.files;
    store.files := store.files[key := Readable([])];
    if !NodeUrlOk(url) {
      return Failure(InvalidUrl);
    }
    match origin(url)
    case TransportError =>
      if key in store.files {
        store.files := store.files - {key};
      }
      assert store.files == before;
      return Failure(Transport);
    case Answered(reply) =>
      if reply.status == 200 {
        store.files := store.files[key := Readable(reply.body)];
        assert store.files == before[key := Readable(reply.body)];
        if !reply.bodyIntact {
          return Failure(Stalled(reply.body));
        }
        return Success(key);
      }
      store.files := store.files - {key};
      assert store.files == before;
      if reply.status == 301 || reply.status == 302 {
        if reply.location == "" {
          return Failure(MissingLocation);
        }
        if fuel == 0 {
          return Failure(RedirectLimit);
        }
        MakeDirsAgain(NodeProxy, old(store.files), key, sep, before);
        r := NodeDownload(store, origin, reply.location, key, sep, fuel - 1);
        return;
      }
      return Failure(BadStatus(reply.status));
  }

  method Download(proxy: Proxy, store: FileStore, origin: string -> Fetch, url: string, key: string, sep: char, fuel: nat)
    returns (r: Result<string, DownloadError>)
    modifies store
    ensures (r, store.files) == CacheOutcome(proxy, old(store.files), key, sep, FetchBy(proxy, origin, url, fuel))
  {
    match proxy
    case GoProxy => r := GoDownload(store, origin, url, key, sep);
    case NodeProxy => r := NodeDownload(store, origin, url, key, sep, fuel);
  }

  datatype PrewarmEntry = PrewarmEntry(url: string, path: string)

  /** The three files both servers fetch at start-up. */
  const PrewarmFiles: seq<PrewarmEntry> := [
    PrewarmEntry("https://cdn.jsdelivr.net/npm/daisyui@4.12.24/dist/full.min.css", "npm/daisyui@4.12.24/dist/full.min.css"),
    PrewarmEntry("https://cdn.jsdelivr.net/npm/alpinejs@3.13.3/dist/cdn.min.js", "npm/alpinejs@3.13.3/dist/cdn.min.js"),
    PrewarmEntry("https://cdn.jsdelivr.net/npm/crypto-js@4.2.0/crypto-js.min.js", "npm/crypto-js@4.2.0/crypto-js.min.js")
  ]

  /**
   * The cache after downloading `entries` in order, each failure ignored,
   * and whether the loop stopped: a stalled download's `await` never
   * returns, and a crash ends the process.
   */
  function AfterPrewarm(proxy: Proxy, files: map<string, FileEntry>, entries: seq<PrewarmEntry>,
                        origin: string -> Fetch, sep: char, fuel: nat): (map<string, FileEntry>, bool)
  {
    if entries == [] then (files, false)
    else
      var last := entries[|entries| - 1];
      var before := AfterPrewarm(proxy, files, entries[..|entries| - 1], origin, sep, fuel);
      if before.1 then before
      else
        var out := CacheOutcome(proxy, before.0, CdnMap.CacheKey(last.path, sep), sep, FetchBy(proxy, origin, last.url, fuel));
        (out.1, out.0.Failure? && Halts(out.0.error))
  }

  /** One more entry: unless the loop has stopped, its download runs on the cache so far. */
  lemma PrewarmStep(proxy: Proxy, files: map<string, FileEntry>, entries: seq<PrewarmEntry>, i: nat,
                    origin: string -> Fetch, sep: char, fuel: nat)
    requires i < |entries|
    requires !AfterPrewarm(proxy, files, entries[..i], origin, sep, fuel).1
    ensures var before := AfterPrewarm(proxy, files, entries[..i], origin, sep, fuel).0;
            var out := CacheOutcome(proxy, before, CdnMap.CacheKey(entries[i].path, sep), sep, FetchBy(proxy, origin, entries[i].url, fuel));
            AfterPrewarm(proxy, files, entries[..i + 1], origin, sep, fuel) == (out.1, out.0.Failure? && Halts(out.0.error))
  {
    assert entries[..i + 1][..i] == entries[..i];
  }

  /** An entry whose directories are blocked stays blocked as entries are added. */
  lemma BlockedStays(files: map<string, FileEntry>, more: map<string, FileEntry>, key: string, sep: char)
    requires Blocked(files, key, sep)
    requires forall k | k in files :: k in more && more[k] == files[k]
    ensures Blocked(more, key, sep)
  {
    var d :| IsAncestor(d, key, sep) && d in files && !files[d].Directory?;
    assert d in more && !more[d].Directory?;
  }

  /**
   * A failed entry does not stop the others: afterwards every entry that
   * was in the cache is still there unchanged, and, unless the loop
   * stopped, every entry whose fetch succeeds is cached or has a file
   * standing where one of its directories must be. Go's prewarm never
   * stops.
   */
  lemma {:induction false} PrewarmContinuesPastFailures(proxy: Proxy, files: map<string, FileEntry>,
                                                        entries: seq<PrewarmEntry>, origin: string -> Fetch,
                                                        sep: char, fuel: nat)
    ensures var after := AfterPrewarm(proxy, files, entries, origin, sep, fuel);
            && (forall k | k in files :: k in after.0 && after.0[k] == files[k])
            && (proxy == GoProxy ==> !after.1)
            && (!after.1 ==> forall i | 0 <= i < |entries| && FetchBy(proxy, origin, entries[i].url, fuel).Success? ::
                               var key := CdnMap.CacheKey(entries[i].path, sep);
                               key in after.0 || Blocked(after.0, key, sep))
  {
    if entries != [] {
      var init := entries[..|entries| - 1];
      PrewarmContinuesPastFailures(proxy, files, init, origin, sep, fuel);
      var after := AfterPrewarm(proxy, files, entries, origin, sep, fuel);
      var before := AfterPrewarm(proxy, files, init, origin, sep, fuel);
      if !after.1 {
        assert !before.1;
        forall i | 0 <= i < |entries| && FetchBy(proxy, origin, entries[i].url, fuel).Success?
          ensures var key := CdnMap.CacheKey(entries[i].path, sep);
                  key in after.0 || Blocked(after.0, key, sep)
        {
          var key := CdnMap.CacheKey(entries[i].path, sep);
          if i < |entries| - 1 {
            assert entries[i] == init[i];
            if Blocked(before.0, key, sep) {
              BlockedStays(before.0, after.0, key, sep);
            }
          }
        }
      }
    }
  }

  /** The loop of `prewarmCache`: download each entry in turn, logging and skipping failures, until one stalls or crashes. */
  method PrewarmEach(proxy: Proxy, store: FileStore, entries: seq<PrewarmEntry>, origin: string -> Fetch, sep: char, fuel: nat)
    modifies store
    ensures store.files == AfterPrewarm(proxy, old(store.files), entries, origin, sep, fuel).0
  {
    var i := 0;
    while i < |entries|
      invariant 0 <= i <= |entries|
      invariant (store.files, false) == AfterPrewarm(proxy, old(store.files), entries[..i], origin, sep, fuel)
    {
      var entry := entries[i];
      var key := CdnMap.CacheKey(entry.path, sep);
      PrewarmStep(proxy, old(store.files), entries, i, origin, sep, fuel);
      var r := Download(proxy, store, origin, entry.url, key, sep, fuel);
      var halted := r.Failure? && Halts(r.error);
      assert (store.files, halted) == AfterPrewarm(proxy, old(store.files), entries[..i + 1], origin, sep, fuel);
      if halted {
        StalledStops(proxy, old(store.files), entries, i + 1, origin, sep, fuel);
        return;
      }
      i := i + 1;
    }
    assert entries[..|entries|] == entries;
  }

  /** `prewarmCache`: the loop over the three start-up files. */
  method Prewarm(proxy: Proxy, store: FileStore, origin: string -> Fetch, sep: char, fuel: nat)
    modifies store
    ensures store.files == AfterPrewarm(proxy, old(store.files), PrewarmFiles, origin, sep, fuel).0
  {
    PrewarmEach(proxy, store, PrewarmFiles, origin, sep, fuel);
  }

  /** Once the loop has stopped, the later entries change nothing. */
  lemma {:induction false} StalledStops(proxy: Proxy, files: map<string, FileEntry>, entries: seq<PrewarmEntry>, n: nat,
                                        origin: string -> Fetch, sep: char, fuel: nat)
    requires n <= |entries|
    requires AfterPrewarm(proxy, files, entries[..n], origin, sep, fuel).1
    ensures AfterPrewarm(proxy, files, entries, origin, sep, fuel) == AfterPrewarm(proxy, files, entries[..n], origin, sep, fuel)
    decreases |entries|
  {
    if n < |entries| {
      var init := entries[..|entries| - 1];
      assert init[..n] == entries[..n];
      StalledStops(proxy, files, init, n, origin, sep, fuel);
    } else {
      assert entries[..n] == entries;
    }
  }

  /** What a cache read answers in Go: a readable file is sent; an unreadable file or a directory is a 500. */
  function GoServeCached(entry: FileEntry, message: string, target: CdnMap.Target, acceptEncoding: string,
                         gzip: Bytes -> Option<Bytes>): (resp: Respond.Response)
    ensures entry.Readable? ==> resp == Respond.SendCdnResponse(acceptEncoding, target.mime, entry.data, gzip)
    ensures !entry.Readable? ==> resp == Respond.Error(500, message)
  {
    match entry
    case Readable(d) => Respond.SendCdnResponse(acceptEncoding, target.mime, d, gzip)
    case _ => Respond.Error(500, message)
  }

  /**
   * `handleCDNProxy` of servers/go/cdn.go: 400 for an empty remainder, the
   * cached entry when its path exists (500 if it is unreadable or a
   * directory), else a download (502 on failure) and the downloaded file.
   */
  method GoHandleProxy(store: FileStore, origin: string -> Fetch, requestPath: string, sep: char,
                       acceptEncoding: string, gzip: Bytes -> Option<Bytes>)
    returns (resp: Respond.Response)
    modifies store
    ensures match CdnMap.GoTarget(requestPath, sep)
      case Failure(e) => resp == e && store.files == old(store.files)
      case Success(t) =>
        if t.cacheKey in old(store.files) then
          store.files == old(store.files)
          && resp == GoServeCached(old(store.files)[t.cacheKey], "Failed to read cache file", t, acceptEncoding, gzip)
        else
          var fetched := GoFetch(origin, t.originUrl);
          var out := CacheOutcome(GoProxy, old(store.files), t.cacheKey, sep, fetched);
          store.files == out.1
          && (out.0.Failure? ==> resp == Respond.Error(502, "Failed to fetch from CDN"))
          && (out.0.Success? ==> fetched.Success?
                                 && resp == Respond.SendCdnResponse(acceptEncoding, t.mime, fetched.value, gzip))
  {
    var target := CdnMap.GoTarget(requestPath, sep);
    if target.Failure? {
      return target.error;
    }
    var t := target.value;
    if t.cacheKey in store.files {
      return GoServeCached(store.files[t.cacheKey], "Failed to read cache file", t, acceptEncoding, gzip);
    }
    var r := GoDownload(store, origin, t.originUrl, t.cacheKey, sep);
    if r.Failure? {
      return Respond.Error(502, "Failed to fetch from CDN");
    }
    resp := GoServeCached(store.files[t.cacheKey], "Failed to read downloaded file", t, acceptEncoding, gzip);
  }

  /** What Node's `handleCDNProxy` hands to its `sendResponse` callback, or answers itself. */
  datatype Handoff =
    | Deliver(status: nat, contentType: string, cacheControl: string, data: Bytes)
    | Refuse(status: nat, message: string)
    | Silent       // the download never settles, so the request is never answered
    | ProcessDies  // an unhandled stream error ends the server

  const CacheControl: string := "public, max-age=31536000"

  /** What a cache read answers in Node: `fs.readFile` fails on an unreadable file and on a directory. */
  function NodeServeCached(entry: FileEntry, message: string, target: CdnMap.Target): (h: Handoff)
    ensures entry.Readable? ==> h == Deliver(200, target.mime, CacheControl, entry.data)
    ensures !entry.Readable? ==> h == Refuse(500, message)
  {
    match entry
    case Readable(d) => Deliver(200, target.mime, CacheControl, d)
    case _ => Refuse(500, message)
  }

  /**
   * `handleCDNProxy` of servers/nodejs/cdn-utils.js, on `req.url`: the
   * same decisions as Go's, each success handed on with the one-year
   * Cache-Control; a download that stalls leaves the request unanswered,
   * and one that crashes ends the process.
   */
  method NodeHandleProxy(store: FileStore, origin: string -> Fetch, requestUrl: string, sep: char, fuel: nat)
    returns (h: Handoff)
    modifies store
    ensures match CdnMap.NodeTarget(requestUrl, sep)
      case Failure(e) => h == Refuse(400, "Bad request") && store.files == old(store.files)
      case Success(t) =>
        if t.cacheKey in old(store.files) then
          store.files == old(store.files)
          && h == NodeServeCached(old(store.files)[t.cacheKey], "Failed to read cache file", t)
        else
          var fetched := NodeFetch(origin, t.originUrl, fuel);
          var out := CacheOutcome(NodeProxy, old(store.files), t.cacheKey, sep, fetched);
          store.files == out.1
          && (out.0.Failure? && out.0.error.Stalled? ==> h == Silent)
          && (out.0.Failure? && out.0.error.Crashed? ==> h == ProcessDies)
          && (out.0.Failure? && !Halts(out.0.error) ==> h == Refuse(502, "Failed to fetch from CDN"))
          && (out.0.Success? ==> fetched.Success? && h == Deliver(200, t.mime, CacheControl, fetched.value))
  {
    var target := CdnMap.NodeTarget(requestUrl, sep);
    if target.Failure? {
      return Refuse(400, "Bad request");
    }
    var t := target.value;
    if t.cacheKey in store.files {
      return NodeServeCached(store.files[t.cacheKey], "Failed to read cache file", t);
    }
    var r := NodeDownload(store, origin, t.originUrl, t.cacheKey, sep, fuel);
    if r.Failure? && r.error.Stalled? {
      return Silent;
    }
    if r.Failure? && r.error.Crashed? {
      return ProcessDies;
    }
    if r.Failure? {
      return Refuse(502, "Failed to fetch from CDN");
    }
    h := NodeServeCached(store.files[t.cacheKey], "Failed to read downloaded file", t);
  }
}
