/**
 * The listen address of the Node and Python servers: the `--addr` option
 * (default ":8080") split into a host and a port. Node reads the option
 * with its own loop over argv, where the first "--addr" wins, and the port
 * with `parseInt`; Python uses argparse, where the last "--addr" wins, and
 * `int()`, and listens on every interface when no host is given. A port that does not parse is None: `int()` raises, and
 * `parseInt` gives NaN, which `server.listen` refuses.
 */
module Addr {
  import opened Wrappers
  import opened Strs

  const DefaultAddr: string := ":8080"
  /** Flask's host when the address names none. */
  const AnyHost: string := "0.0.0.0"

  /** The value after the first "--addr" that has one, or the default. */
  function AddrOption(args: seq<string>): (addr: string)
    ensures addr == DefaultAddr || exists i | 0 <= i < |args| - 1 :: args[i] == "--addr" && addr == args[i + 1]
  {
    if |args| < 2 then DefaultAddr
    else if args[0] == "--addr" then args[1]
    else
      var r := AddrOption(args[1..]);
      assert r != DefaultAddr ==> exists i | 0 <= i < |args| - 1 :: args[i] == "--addr" && r == args[i + 1] by {
        if r != DefaultAddr {
          var i :| 0 <= i < |args[1..]| - 1 && args[1..][i] == "--addr" && r == args[1..][i + 1];
          assert args[i + 1] == "--addr" && r == args[i + 2];
        }
      }
      r
  }

  /** The first "--addr" followed by a value decides; later ones are ignored. */
  lemma {:induction false} FirstAddrOptionWins(args: seq<string>, k: nat)
    requires k < |args| - 1 && args[k] == "--addr"
    requires forall j | 0 <= j < k :: args[j] != "--addr"
    ensures AddrOption(args) == args[k + 1]
  {
    if k > 0 {
      var tail := args[1..];
      forall j | 0 <= j < k - 1 ensures tail[j] != "--addr" {
        assert tail[j] == args[j + 1];
      }
      FirstAddrOptionWins(tail, k - 1);
    }
  }

  /** Without an "--addr" followed by a value, the default address is used. */
  lemma {:induction false} NoAddrOption(args: seq<string>)
    requires forall j | 0 <= j < |args| - 1 :: args[j] != "--addr"
    ensures AddrOption(args) == DefaultAddr
  {
    if |args| >= 2 {
      var tail := args[1..];
      forall j | 0 <= j < |tail| - 1 ensures tail[j] != "--addr" {
        assert tail[j] == args[j + 1];
      }
      NoAddrOption(tail);
    }
  }

  /** The argv loop of the Node server, which stops at the first match. */
  method ScanArgs(args: seq<string>) returns (addr: string)
    ensures addr == AddrOption(args)
  {
    addr := DefaultAddr;
    var i := 0;
    while i < |args|
      invariant 0 <= i <= |args|
      invariant addr == DefaultAddr
      invariant AddrOption(args) == (if i + 1 < |args| then AddrOption(args[i..]) else DefaultAddr)
    {
      if args[i] == "--addr" && i + 1 < |args| {
        addr := args[i + 1];
        assert args[i..][1] == args[i + 1];
        break;
      }
      if i + 2 < |args| {
        assert args[i..][1..] == args[i + 1..];
      }
      i := i + 1;
    }
  }

  /** Python's `int()` on a string of decimal digits; anything else raises. */
  function PyInt(s: string): (n: Option<nat>)
    ensures n.Some? <==> s != "" && AllDigits(s)
  {
    if s != "" && AllDigits(s) then Some(DigitsValue(s)) else None
  }

  /** Node's host and port. */
  function NodeListen(addr: string): (r: (string, Option<nat>))
    ensures StartsWith(addr, ":") ==> r == ("", ParseInt(addr[1..]))
    ensures ':' !in addr ==> r == ("", ParseInt(addr))
    ensures ':' !in r.0 && StartsWith(addr, r.0)
  {
    if StartsWith(addr, ":") then ("", ParseInt(addr[1..]))
    else if ':' in addr then
      var parts := Split(addr, ':');
      HostPart(addr);
      (parts[0], ParseInt(parts[1]))
    else ("", ParseInt(addr))
  }

  /** Python's host and port. */
  function PyListen(addr: string): (r: (string, Option<nat>))
    ensures StartsWith(addr, ":") ==> r == (AnyHost, PyInt(addr[1..]))
    ensures ':' !in addr ==> r == (AnyHost, PyInt(addr))
    ensures r.0 != ""
  {
    if StartsWith(addr, ":") then (AnyHost, PyInt(addr[1..]))
    else if ':' in addr then
      var parts := Split(addr, ':');
      (if parts[0] != "" then parts[0] else AnyHost, PyInt(parts[1]))
    else (AnyHost, PyInt(addr))
  }

  /** With a ':' in the address, the first part is what precedes it and there is a second. */
  lemma HostPart(addr: string)
    requires ':' in addr
    ensures |Split(addr, ':')| >= 2
    ensures ':' !in Split(addr, ':')[0] && StartsWith(addr, Split(addr, ':')[0])
  {
    var i := IndexOf(addr, ':').value;
    assert addr == addr[..i] + [':'] + addr[i + 1..];
    SplitFirst(addr[..i], ':', addr[i + 1..]);
  }

  /** "host:port" is read back by both servers; Python reads a missing host as every interface. */
  lemma ListenRoundTrip(host: string, port: nat)
    requires ':' !in host
    ensures NodeListen(host + ":" + NatToString(port)) == (host, Some(port))
    ensures PyListen(host + ":" + NatToString(port)) == (if host == "" then AnyHost else host, Some(port))
  {
    var digits := NatToString(port);
    var addr := host + ":" + digits;
    assert ':' in addr by { assert addr[|host|] == ':'; }
    assert ':' !in digits by {
      forall i | 0 <= i < |digits| ensures digits[i] != ':' {
        assert IsDigit(digits[i]);
      }
    }
    assert addr == host + [':'] + digits;
    SplitFirst(host, ':', digits);
    SplitNoSeparator(digits, ':');
    NatToStringRoundTrip(port);
    assert DigitPrefix(digits) == digits by { DigitPrefixOfDigits(digits); }
    if host == "" {
      assert addr == ":" + digits;
      assert addr[1..] == digits;
    }
  }

  /** Both servers listen on port 8080 by default; only Python names a host. */
  lemma DefaultListen()
    ensures NodeListen(DefaultAddr) == ("", Some(8080))
    ensures PyListen(DefaultAddr) == (AnyHost, Some(8080))
  {
    assert NatToString(8) == "8";
    assert NatToString(80) == NatToString(8) + "0";
    assert NatToString(808) == NatToString(80) + "8";
    assert NatToString(8080) == NatToString(808) + "0";
    assert DefaultAddr == "" + ":" + NatToString(8080);
    ListenRoundTrip("", 8080);
  }

  /**
   * A trailing garbage after the port is dropped by `parseInt` but refused
   * by `int()`: ":8080x" listens on 8080 in Node and fails in Python.
   */
  lemma TrailingGarbage(port: nat, junk: string)
    requires junk != "" && !IsDigit(junk[0])
    ensures NodeListen(":" + NatToString(port) + junk) == ("", Some(port))
    ensures PyListen(":" + NatToString(port) + junk).1 == None
  {
    var digits := NatToString(port);
    var s := digits + junk;
    assert (":" + digits + junk)[1..] == s;
    assert (":" + digits + junk)[..1] == ":";
    DigitPrefixStops(digits, junk);
    NatToStringRoundTrip(port);
    assert !IsDigit(s[|digits|]);
  }
}
