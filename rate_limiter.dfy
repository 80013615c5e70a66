/**
 * The Go server's per-client sliding-window limiter (`rateLimiter` in
 * servers/go/main.go). Two registries map a client address to the
 * timestamps of its admitted requests and to its (timestamp, bytes)
 * traffic records. Each call keeps only the entries younger than the
 * window, then admits or rejects; an admission appends one entry, and a
 * registry that grows past 10 000 clients loses one key chosen by Go's
 * unspecified map order.
 *
 * Time is a parameter `now`, in milliseconds; the mutex is left out.
 */
module RateLimit {

  /** `time.Minute`, in milliseconds. */
  const Window: int := 60_000
  const MaxRequests: nat := 1000
  const MaxBytes: nat := 100 * 1024 * 1024
  const MaxClients: nat := 10_000

  datatype TrafficRecord = TrafficRecord(timestamp: int, bytes: nat)

  /** An entry stamped `t` is still inside the window at `now` (`now.Sub(t) < windowMs`). */
  predicate Fresh(t: int, now: int) {
    now - t < Window
  }

  /** The timestamps of `ts` still inside the window, in their original order. */
  function Recent(ts: seq<int>, now: int): seq<int> {
    if ts == [] then []
    else Recent(ts[..|ts| - 1], now) + (if Fresh(ts[|ts| - 1], now) then [ts[|ts| - 1]] else [])
  }

  /** The traffic records of `rs` still inside the window, in their original order. */
  function RecentRecords(rs: seq<TrafficRecord>, now: int): seq<TrafficRecord> {
    if rs == [] then []
    else RecentRecords(rs[..|rs| - 1], now)
         + (if Fresh(rs[|rs| - 1].timestamp, now) then [rs[|rs| - 1]] else [])
  }

  /** Sum of the byte counts of `rs`. */
  function Total(rs: seq<TrafficRecord>): nat {
    if rs == [] then 0 else Total(rs[..|rs| - 1]) + rs[|rs| - 1].bytes
  }

  function Lookup<V>(m: map<string, seq<V>>, ip: string): seq<V> {
    if ip in m then m[ip] else []
  }

  /** The decision `check` takes for a client whose stored timestamps are `ts`. */
  predicate AdmitsRequest(ts: seq<int>, now: int) {
    |Recent(ts, now)| < MaxRequests
  }

  /** The decision `checkTraffic` takes for a client whose stored records are `rs`. */
  predicate AdmitsTraffic(rs: seq<TrafficRecord>, bytes: nat, now: int) {
    Total(RecentRecords(rs, now)) + bytes <= MaxBytes
  }

  /**
   * How a registry changes on an admission: the client's entry becomes
   * `entry`; if that pushes the registry past MaxClients, exactly one key
   * (any key, possibly `ip` itself) is deleted.
   */
  ghost predicate Registered<V>(before: map<string, V>, after: map<string, V>, ip: string, entry: V) {
    var updated := before[ip := entry];
    if |updated| > MaxClients then exists k :: k in updated && after == updated - {k}
    else after == updated
  }

  lemma {:induction false} RecentMembers(ts: seq<int>, now: int)
    ensures forall t :: t in Recent(ts, now) <==> t in ts && Fresh(t, now)
    ensures |Recent(ts, now)| <= |ts|
  {
    if ts != [] {
      RecentMembers(ts[..|ts| - 1], now);
      assert ts == ts[..|ts| - 1] + [ts[|ts| - 1]];
    }
  }

  lemma {:induction false} RecentAllFresh(ts: seq<int>, now: int)
    requires forall i | 0 <= i < |ts| :: Fresh(ts[i], now)
    ensures Recent(ts, now) == ts
  {
    if ts != [] {
      RecentAllFresh(ts[..|ts| - 1], now);
      assert ts == ts[..|ts| - 1] + [ts[|ts| - 1]];
    }
  }

  lemma {:induction false} RecentNoneFresh(ts: seq<int>, now: int)
    requires forall i | 0 <= i < |ts| :: !Fresh(ts[i], now)
    ensures Recent(ts, now) == []
  {
    if ts != [] {
      RecentNoneFresh(ts[..|ts| - 1], now);
    }
  }

  lemma {:induction false} RecentRecordsAllFresh(rs: seq<TrafficRecord>, now: int)
    requires forall i | 0 <= i < |rs| :: Fresh(rs[i].timestamp, now)
    ensures RecentRecords(rs, now) == rs
  {
    if rs != [] {
      RecentRecordsAllFresh(rs[..|rs| - 1], now);
      assert rs == rs[..|rs| - 1] + [rs[|rs| - 1]];
    }
  }

  lemma {:induction false} RecentRecordsNoneFresh(rs: seq<TrafficRecord>, now: int)
    requires forall i | 0 <= i < |rs| :: !Fresh(rs[i].timestamp, now)
    ensures RecentRecords(rs, now) == []
  {
    if rs != [] {
      RecentRecordsNoneFresh(rs[..|rs| - 1], now);
    }
  }

  /** Filtering twice at the same instant changes nothing more. */
  lemma {:induction false} RecentIdempotent(ts: seq<int>, now: int)
    ensures Recent(Recent(ts, now), now) == Recent(ts, now)
  {
    if ts != [] {
      var init, last := ts[..|ts| - 1], ts[|ts| - 1];
      RecentIdempotent(init, now);
      RecentAppend(Recent(init, now), if Fresh(last, now) then [last] else [], now);
      if Fresh(last, now) {
        assert Recent([last], now) == Recent([], now) + [last] by {
          assert [last][..0] == [];
        }
      }
    }
  }

  lemma {:induction false} RecentAppend(a: seq<int>, b: seq<int>, now: int)
    ensures Recent(a + b, now) == Recent(a, now) + Recent(b, now)
    decreases |b|
  {
    if b != [] {
      var b', last := b[..|b| - 1], b[|b| - 1];
      assert (a + b)[..|a + b| - 1] == a + b';
      RecentAppend(a, b', now);
    } else {
      assert a + b == a;
    }
  }

  lemma {:induction false} TotalAppend(a: seq<TrafficRecord>, r: TrafficRecord)
    ensures Total(a + [r]) == Total(a) + r.bytes
  {
    assert (a + [r])[..|a + [r]| - 1] == a;
  }

  /**
   * A client that sent MaxRequests requests at
   * time t is refused one millisecond before the window has passed and
   * admitted once it has (an entry is expired at exactly `t + Window`).
   */
  lemma SlidingWindowExpiry(t: int, burst: seq<int>)
    requires |burst| == MaxRequests && forall i | 0 <= i < |burst| :: burst[i] == t
    ensures !AdmitsRequest(burst, t + Window - 1)
    ensures AdmitsRequest(burst, t + Window)
  {
    RecentAllFresh(burst, t + Window - 1);
    RecentNoneFresh(burst, t + Window);
  }

  /**
   * Two transfers of half the budget at time t are
   * admitted, a third transfer of one byte is refused, and the same byte
   * is admitted once the window has passed. The limit is inclusive.
   */
  lemma ByteBudgetAdditivity(t: int)
    ensures AdmitsTraffic([], MaxBytes / 2, t)
    ensures AdmitsTraffic([TrafficRecord(t, MaxBytes / 2)], MaxBytes / 2, t)
    ensures !AdmitsTraffic([TrafficRecord(t, MaxBytes / 2), TrafficRecord(t, MaxBytes / 2)], 1, t)
    ensures AdmitsTraffic([TrafficRecord(t, MaxBytes / 2), TrafficRecord(t, MaxBytes / 2)], 1, t + Window)
  {
    var half := TrafficRecord(t, MaxBytes / 2);
    var one, two := [half], [half, half];
    RecentRecordsAllFresh(one, t);
    RecentRecordsAllFresh(two, t);
    TotalAppend([], half);
    assert [] + [half] == one;
    TotalAppend(one, half);
    assert one + [half] == two;
    RecentRecordsNoneFresh(two, t + Window);
  }

  /** The loop of `check` that rebuilds the slice of in-window timestamps. */
  method KeepRecent(ts: seq<int>, now: int) returns (valid: seq<int>)
    ensures valid == Recent(ts, now)
  {
    valid := [];
    var i := 0;
    while i < |ts|
      invariant 0 <= i <= |ts|
      invariant valid == Recent(ts[..i], now)
    {
      assert ts[..i + 1][..i] == ts[..i];
      if Fresh(ts[i], now) {
        valid := valid + [ts[i]];
      }
      i := i + 1;
    }
    assert ts[..|ts|] == ts;
  }

  /** The loop of `checkTraffic` that rebuilds the in-window records and sums their bytes. */
  method KeepRecentRecords(rs: seq<TrafficRecord>, now: int) returns (valid: seq<TrafficRecord>, total: nat)
    ensures valid == RecentRecords(rs, now)
    ensures total == Total(valid)
  {
    valid, total := [], 0;
    var i := 0;
    while i < |rs|
      invariant 0 <= i <= |rs|
      invariant valid == RecentRecords(rs[..i], now)
      invariant total == Total(valid)
    {
      assert rs[..i + 1][..i] == rs[..i];
      if Fresh(rs[i].timestamp, now) {
        TotalAppend(valid, rs[i]);
        valid := valid + [rs[i]];
        total := total + rs[i].bytes;
      }
      i := i + 1;
    }
    assert rs[..|rs|] == rs;
  }

  class RateLimiter {
    var requests: map<string, seq<int>>
    var traffic: map<string, seq<TrafficRecord>>

    /** The bounds every call keeps. */
    ghost predicate Valid()
      reads this
    {
      && |requests| <= MaxClients
      && |traffic| <= MaxClients
      && (forall ip | ip in requests :: |requests[ip]| <= MaxRequests)
      && (forall ip | ip in traffic :: Total(traffic[ip]) <= MaxBytes)
    }

    constructor ()
      ensures Valid() && requests == map[] && traffic == map[]
    {
      requests, traffic := map[], map[];
    }

    /** `rateLimiter.check`: admit one request from `ip` at `now`. */
    method Check(ip: string, now: int) returns (ok: bool)
      requires Valid()
      modifies this
      ensures Valid()
      ensures ok <==> AdmitsRequest(Lookup(old(requests), ip), now)
      ensures !ok ==> requests == old(requests)
      ensures ok ==> Registered(old(requests), requests, ip, Recent(Lookup(old(requests), ip), now) + [now])
      ensures traffic == old(traffic)
    {
      var valid: seq<int> := [];
      if ip in requests {
        valid := KeepRecent(requests[ip], now);
      }
      if |valid| >= MaxRequests {
        return false;
      }
      valid := valid + [now];
      requests := requests[ip := valid];
      if |requests| > MaxClients {
        var k :| k in requests;
        requests := requests - {k};
      }
      ok := true;
    }

    /** `rateLimiter.checkTraffic`: admit `bytes` more bytes to `ip` at `now`. */
    method CheckTraffic(ip: string, bytes: nat, now: int) returns (ok: bool)
      requires Valid()
      modifies this
      ensures Valid()
      ensures ok <==> AdmitsTraffic(Lookup(old(traffic), ip), bytes, now)
      ensures !ok ==> traffic == old(traffic)
      ensures ok ==> Registered(old(traffic), traffic, ip,
                                RecentRecords(Lookup(old(traffic), ip), now) + [TrafficRecord(now, bytes)])
      ensures requests == old(requests)
    {
      var valid: seq<TrafficRecord> := [];
      var total: nat := 0;
      if ip in traffic {
        valid, total := KeepRecentRecords(traffic[ip], now);
      }
      if total + bytes > MaxBytes {
        return false;
      }
      TotalAppend(valid, TrafficRecord(now, bytes));
      valid := valid + [TrafficRecord(now, bytes)];
      traffic := traffic[ip := valid];
      if |traffic| > MaxClients {
        var k :| k in traffic;
        traffic := traffic - {k};
      }
      ok := true;
    }
  }
}
