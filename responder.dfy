/**
 * How the Go server answers with a payload (servers/go/main.go:681-839
 * and servers/go/cdn.go:178-210): the charset suffix, the gzip decision,
 * the bandwidth charge through the limiter, and the static-file check.
 *
 * gzip is a parameter `gzip: Bytes -> Option<Bytes>` (None when the
 * compressor reports an error); headers and the socket are reduced to a
 * `Response` value.
 */
module Respond {
  import opened Wrappers
  import opened Strs
  import RateLimit

  newtype byte = x: int | 0 <= x < 256
  type Bytes = seq<byte>

  /** What the handler writes: a 200 with its headers and payload, or an `http.Error`. */
  datatype Response =
    | Sent(contentType: string, gzipped: bool, cacheControl: bool, payload: Bytes)
    | Error(status: nat, message: string)

  const CharsetSuffix: string := "; charset=UTF-8"
  const TextTypes: seq<string> := ["text/", "application/json", "application/javascript", "application/xml"]
  const CompressibleTypes: set<string> := {
    "text/html", "text/css", "application/javascript", "application/json",
    "image/svg+xml", "text/plain", "application/xml", "text/xml"
  }
  /** Payloads above 5 MiB are never compressed by `sendResponse`. */
  const MaxCompressSize: nat := 5 * 1024 * 1024
  /** Payloads below 1 KiB are never compressed. */
  const MinCompressSize: nat := 1024

  /** Go's `unicode.IsSpace`. */
  predicate IsSpace(c: char) {
    c == '\t' || c == '\n' || c == '\U{B}' || c == '\U{C}' || c == '\r' || c == ' '
    || c == '\U{85}' || c == '\U{A0}' || c == '\U{1680}' || ('\U{2000}' <= c <= '\U{200A}')
    || c == '\U{2028}' || c == '\U{2029}' || c == '\U{202F}' || c == '\U{205F}' || c == '\U{3000}'
  }

  function TrimLeft(s: string): (r: string)
    ensures |r| <= |s| && r == s[|s| - |r|..]
    ensures r == [] || !IsSpace(r[0])
    ensures forall i | 0 <= i < |s| - |r| :: IsSpace(s[i])
  {
    if s != [] && IsSpace(s[0]) then TrimLeft(s[1..]) else s
  }

  function TrimRight(s: string): (r: string)
    ensures |r| <= |s| && r == s[..|r|]
    ensures r == [] || !IsSpace(r[|r| - 1])
    ensures forall i | |r| <= i < |s| :: IsSpace(s[i])
  {
    if s != [] && IsSpace(s[|s| - 1]) then TrimRight(s[..|s| - 1]) else s
  }

  /** `strings.TrimSpace`: the longest slice of `s` without surrounding white space. */
  function TrimSpace(s: string): (r: string)
    ensures |r| <= |s|
    ensures r == [] || (!IsSpace(r[0]) && !IsSpace(r[|r| - 1]))
    ensures s == [] || (!IsSpace(s[0]) && !IsSpace(s[|s| - 1])) ==> r == s
  {
    TrimRight(TrimLeft(s))
  }

  /** Where the trimmed text starts in `s`. */
  function TrimStart(s: string): nat {
    |s| - |TrimLeft(s)|
  }

  /**
   * The trimmed text is the slice of `s` between the leading and the
   * trailing white space.
   */
  lemma TrimSpaceShape(s: string)
    ensures TrimStart(s) + |TrimSpace(s)| <= |s|
    ensures TrimSpace(s) == s[TrimStart(s)..TrimStart(s) + |TrimSpace(s)|]
    ensures forall k | 0 <= k < TrimStart(s) :: IsSpace(s[k])
    ensures forall k | TrimStart(s) + |TrimSpace(s)| <= k < |s| :: IsSpace(s[k])
  {
    var l := TrimLeft(s);
    var r := TrimRight(l);
    assert TrimSpace(s) == r && TrimStart(s) == |s| - |l|;
    TrailingSpace(s, l, r, |s| - |l|);
  }

  /** A prefix of a suffix is a slice, and the rest of the suffix is the tail of the whole. */
  lemma TrailingSpace(s: string, l: string, r: string, i: nat)
    requires i + |l| == |s| && l == s[i..] && |r| <= |l| && r == l[..|r|]
    requires forall k | |r| <= k < |l| :: IsSpace(l[k])
    ensures r == s[i..i + |r|]
    ensures forall k | i + |r| <= k < |s| :: IsSpace(s[k])
  {
    forall k | i + |r| <= k < |s|
      ensures IsSpace(s[k])
    {
      assert s[k] == l[k - i];
    }
  }

  /** `supportsGzip`: the Accept-Encoding header mentions gzip anywhere. */
  predicate SupportsGzip(acceptEncoding: string) {
    Contains(acceptEncoding, "gzip")
  }

  /** `isCompressible`: the media type before any parameters, trimmed, is one of the eight. */
  predicate IsCompressible(contentType: string) {
    TrimSpace(Before(contentType, ';')) in CompressibleTypes
  }

  /** Any header that contains "gzip" counts, even one that refuses it with "gzip;q=0". */
  lemma GzipAnywhere(pre: string, post: string)
    ensures SupportsGzip(pre + "gzip" + post)
  {
    var s := pre + "gzip" + post;
    assert s[|pre|..|pre| + 4] == "gzip";
    ContainsAt(s, "gzip", |pre|);
  }

  /** The parameters after ';' never change whether a type is compressible. */
  lemma CompressibleIgnoresParameters(mediaType: string, params: string)
    requires ';' !in mediaType
    ensures IsCompressible(mediaType + ";" + params) <==> IsCompressible(mediaType)
  {
    BeforeFirst(mediaType, ';', params);
  }

  predicate IsTextType(contentType: string) {
    exists k | 0 <= k < |TextTypes| :: StartsWith(contentType, TextTypes[k])
  }

  /** The Content-Type `addCharset` produces. */
  function WithCharset(contentType: string): (r: string)
    ensures r == contentType || r == contentType + CharsetSuffix
    ensures r == contentType + CharsetSuffix <==> !Contains(contentType, "charset") && IsTextType(contentType)
  {
    if !Contains(contentType, "charset") && IsTextType(contentType) then
      contentType + CharsetSuffix
    else
      assert |contentType + CharsetSuffix| > |contentType|;
      contentType
  }

  lemma {:induction false} ContainsExtend(a: string, b: string, p: string)
    requires Contains(b, p)
    ensures Contains(a + b, p)
    decreases |a|
  {
    if a == [] {
      assert a + b == b;
    } else {
      assert (a + b)[1..] == a[1..] + b;
      ContainsExtend(a[1..], b, p);
    }
  }

  lemma {:induction false} StartsWithExtend(a: string, b: string, p: string)
    requires StartsWith(a, p)
    ensures StartsWith(a + b, p)
  {
    assert (a + b)[..|p|] == a[..|p|];
  }

  /** Adding the charset twice is the same as adding it once. */
  lemma WithCharsetIdempotent(contentType: string)
    ensures WithCharset(WithCharset(contentType)) == WithCharset(contentType)
  {
    var r := WithCharset(contentType);
    if r != contentType {
      assert Contains(CharsetSuffix, "charset") by {
        assert CharsetSuffix[2..][..7] == "charset";
        assert Contains(CharsetSuffix[2..], "charset");
        assert Contains(CharsetSuffix[1..], "charset");
      }
      ContainsExtend(contentType, CharsetSuffix, "charset");
    }
  }

  /** `addCharset`: the search over the text-type prefixes. */
  method AddCharset(contentType: string) returns (r: string)
    ensures r == WithCharset(contentType)
  {
    if Contains(contentType, "charset") {
      return contentType;
    }
    var k := 0;
    while k < |TextTypes|
      invariant 0 <= k <= |TextTypes|
      invariant forall m | 0 <= m < k :: !StartsWith(contentType, TextTypes[m])
    {
      if StartsWith(contentType, TextTypes[k]) {
        return contentType + CharsetSuffix;
      }
      k := k + 1;
    }
    return contentType;
  }

  /** The transfer encoding of a payload: as is, or the compressor's output. */
  datatype Encoding = Identity | Gzip(compressed: Bytes)

  /**
   * The gzip decision of `sendResponse`: compress only payloads of 1 KiB
   * to 5 MiB, of a compressible type, for a client that accepts gzip, and
   * only when the compressor succeeds.
   */
  function ChooseEncoding(data: Bytes, contentType: string, acceptEncoding: string,
                          gzip: Bytes -> Option<Bytes>): (e: Encoding)
    ensures e.Gzip? <==> && MinCompressSize <= |data| <= MaxCompressSize
                         && IsCompressible(contentType) && SupportsGzip(acceptEncoding)
                         && gzip(data).Some?
    ensures e.Gzip? ==> e.compressed == gzip(data).value
  {
    if |data| > MaxCompressSize then Identity
    else if |data| < MinCompressSize || !IsCompressible(contentType) || !SupportsGzip(acceptEncoding) then Identity
    else match gzip(data)
      case None => Identity
      case Some(z) => Gzip(z)
  }

  /** The gzip decision of `sendCDNResponse`: the same, without the 5 MiB cap. */
  function ChooseCdnEncoding(data: Bytes, contentType: string, acceptEncoding: string,
                             gzip: Bytes -> Option<Bytes>): (e: Encoding)
    ensures e.Gzip? <==> && MinCompressSize <= |data|
                         && IsCompressible(contentType) && SupportsGzip(acceptEncoding)
                         && gzip(data).Some?
    ensures e.Gzip? ==> e.compressed == gzip(data).value
  {
    if |data| < MinCompressSize || !IsCompressible(contentType) || !SupportsGzip(acceptEncoding) then Identity
    else match gzip(data)
      case None => Identity
      case Some(z) => Gzip(z)
  }

  /** The bytes written, and charged to the client's traffic budget. */
  function Payload(data: Bytes, e: Encoding): (out: Bytes)
    ensures e.Identity? ==> out == data
  {
    match e
    case Identity => data
    case Gzip(z) => z
  }

  /** The two gzip decisions agree up to 5 MiB and part beyond it. */
  lemma CdnEncodingAgreesBelowCap(data: Bytes, contentType: string, acceptEncoding: string,
                                  gzip: Bytes -> Option<Bytes>)
    ensures |data| <= MaxCompressSize ==>
      ChooseCdnEncoding(data, contentType, acceptEncoding, gzip) == ChooseEncoding(data, contentType, acceptEncoding, gzip)
    ensures |data| > MaxCompressSize ==> ChooseEncoding(data, contentType, acceptEncoding, gzip) == Identity
  {
  }

  /** `r.RemoteAddr` with the port cut at the last ':'. */
  function ClientIp(remoteAddr: string): (ip: string)
    ensures |ip| <= |remoteAddr| && ip == remoteAddr[..|ip|]
    ensures ':' !in remoteAddr ==> ip == remoteAddr
  {
    match LastIndexOf(remoteAddr, ':')
    case None => remoteAddr
    case Some(i) => remoteAddr[..i]
  }

  /** An IPv4 or bracketed IPv6 address and its port: only the address remains. */
  lemma ClientIpDropsPort(address: string, port: string)
    requires ':' !in port
    ensures ClientIp(address + ":" + port) == address
  {
    var s := address + ":" + port;
    assert s[|address|] == ':';
    assert s[|address| + 1..] == port;
    assert s[..|address|] == address;
  }

  /**
   * `sendResponse`: the Content-Type gains its charset, the payload is
   * encoded as `ChooseEncoding` decides, and the written length is charged
   * through `checkTraffic`; an over-budget client gets a 429 and no payload.
   */
  method SendResponse(limiter: RateLimit.RateLimiter, remoteAddr: string, acceptEncoding: string,
                      contentType: string, data: Bytes, gzip: Bytes -> Option<Bytes>, now: int)
    returns (resp: Response)
    requires limiter.Valid()
    modifies limiter
    ensures limiter.Valid()
    ensures limiter.requests == old(limiter.requests)
    ensures var enc := ChooseEncoding(data, contentType, acceptEncoding, gzip);
            var charged := |Payload(data, enc)|;
            var history := RateLimit.Lookup(old(limiter.traffic), ClientIp(remoteAddr));
            && (RateLimit.AdmitsTraffic(history, charged, now) ==>
                  resp == Sent(WithCharset(contentType), enc.Gzip?, false, Payload(data, enc))
                  && RateLimit.Registered(old(limiter.traffic), limiter.traffic, ClientIp(remoteAddr),
                                          RateLimit.RecentRecords(history, now) + [RateLimit.TrafficRecord(now, charged)]))
            && (!RateLimit.AdmitsTraffic(history, charged, now) ==>
                  resp == Error(429, "Bandwidth Limit Exceeded") && limiter.traffic == old(limiter.traffic))
  {
    var ip := ClientIp(remoteAddr);
    var fullContentType := AddCharset(contentType);
    var ok: bool;
    if |data| > MaxCompressSize {
      ok := limiter.CheckTraffic(ip, |data|, now);
      resp := if ok then Sent(fullContentType, false, false, data) else Error(429, "Bandwidth Limit Exceeded");
      return;
    }
    if |data| < MinCompressSize || !IsCompressible(contentType) || !SupportsGzip(acceptEncoding) {
      ok := limiter.CheckTraffic(ip, |data|, now);
      resp := if ok then Sent(fullContentType, false, false, data) else Error(429, "Bandwidth Limit Exceeded");
      return;
    }
    var compressed := gzip(data);
    if compressed.None? {
      ok := limiter.CheckTraffic(ip, |data|, now);
      resp := if ok then Sent(fullContentType, false, false, data) else Error(429, "Bandwidth Limit Exceeded");
      return;
    }
    ok := limiter.CheckTraffic(ip, |compressed.value|, now);
    resp := if ok then Sent(fullContentType, true, false, compressed.value) else Error(429, "Bandwidth Limit Exceeded");
  }

  /**
   * `sendCDNResponse`: always a 200 with the one-year Cache-Control and no
   * bandwidth charge.
   */
  function SendCdnResponse(acceptEncoding: string, contentType: string, data: Bytes,
                           gzip: Bytes -> Option<Bytes>): (resp: Response)
    ensures resp.Sent? && resp.cacheControl && resp.contentType == WithCharset(contentType)
    ensures resp.gzipped <==> ChooseCdnEncoding(data, contentType, acceptEncoding, gzip).Gzip?
    ensures !resp.gzipped ==> resp.payload == data
  {
    var enc := ChooseCdnEncoding(data, contentType, acceptEncoding, gzip);
    Sent(WithCharset(contentType), enc.Gzip?, true, Payload(data, enc))
  }

  /** `filepath.Ext`: the suffix from the last '.' of the last path element, or "". */
  function GoExt(path: string): (ext: string)
    ensures ext == [] || (ext[0] == '.' && EndsWith(Basename(path), ext))
  {
    var base := Basename(path);
    match LastIndexOf(base, '.')
    case None => ""
    case Some(d) => base[d..]
  }

  /** The MIME table of `serveStaticFile`. */
  function StaticMime(ext: string): (mime: string)
    ensures mime != ""
  {
    if ext == ".html" then "text/html"
    else if ext == ".css" then "text/css"
    else if ext == ".js" then "application/javascript"
    else if ext == ".json" then "application/json"
    else if ext == ".png" then "image/png"
    else if ext == ".jpg" || ext == ".jpeg" then "image/jpeg"
    else if ext == ".gif" then "image/gif"
    else if ext == ".svg" then "image/svg+xml"
    else "application/octet-stream"
  }

  /**
   * `serveStaticFile` up to `sendResponse`. `absPath` and `sitesAbs` are
   * the results of `filepath.Abs` on the file path and on the sites
   * directory; `files` is the readable part of the filesystem.
   */
  function StaticFile(filePath: string, absPath: Option<string>, sitesAbs: Option<string>,
                      files: map<string, Bytes>): (r: Result<(string, Bytes), Response>)
    ensures r.Success? <==> absPath.Some? && sitesAbs.Some? && StartsWith(absPath.value, sitesAbs.value)
                            && filePath in files
    ensures r.Success? ==> r.value == (StaticMime(GoExt(filePath)), files[filePath])
    ensures absPath.Some? && sitesAbs.Some? && !StartsWith(absPath.value, sitesAbs.value) ==>
              r == Failure(Error(403, "Forbidden"))
  {
    if absPath.None? then Failure(Error(400, "Invalid path"))
    else if sitesAbs.None? then Failure(Error(500, "Server error"))
    else if !StartsWith(absPath.value, sitesAbs.value) then Failure(Error(403, "Forbidden"))
    else if filePath !in files then Failure(Error(404, "404 page not found"))
    else Success((StaticMime(GoExt(filePath)), files[filePath]))
  }
}
