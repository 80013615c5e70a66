/**
 * `percentEncode` of sites/aliyun/static/js/aliyun-api.js: JavaScript's
 * `encodeURIComponent` (UTF-8, upper-case hex) followed by a chain of
 * replacements, and the proof that the result is the percent-encoding of
 * section 2.3 of RFC 3986, which leaves exactly the unreserved characters
 * unescaped.
 */
module Percent {
  import opened Strs

  /** The unreserved characters of section 2.3 of RFC 3986. */
  predicate Unreserved(c: char) {
    ('A' <= c <= 'Z') || ('a' <= c <= 'z') || ('0' <= c <= '9') || c == '-' || c == '.' || c == '_' || c == '~'
  }

  /** What `encodeURIComponent` leaves as it is: the unreserved characters and ! ' ( ) *. */
  predicate UriComponentSafe(c: char) {
    Unreserved(c) || c == '!' || c == '\'' || c == '(' || c == ')' || c == '*'
  }

  predicate Bytes(bytes: seq<nat>) {
    forall i | 0 <= i < |bytes| :: bytes[i] < 256
  }

  /** The UTF-8 encoding of one character. */
  function Utf8(c: char): (bytes: seq<nat>)
    ensures 1 <= |bytes| <= 4 && Bytes(bytes)
    ensures c as int < 0x80 <==> bytes == [c as int]
    ensures c as int >= 0x80 ==> forall i | 0 <= i < |bytes| :: bytes[i] >= 0x80
  {
    var n := c as int;
    if n < 0x80 then [n]
    else if n < 0x800 then [0xC0 + n / 64, 0x80 + n % 64]
    else if n < 0x10000 then [0xE0 + n / 4096, 0x80 + (n / 64) % 64, 0x80 + n % 64]
    else [0xF0 + n / 262144, 0x80 + (n / 4096) % 64, 0x80 + (n / 64) % 64, 0x80 + n % 64]
  }

  predicate IsHex(c: char) {
    ('0' <= c <= '9') || ('A' <= c <= 'F')
  }

  /** An upper-case hex digit. */
  function HexDigit(k: nat): (c: char)
    requires k < 16
    ensures IsHex(c) && c != '%'
    ensures c == '7' ==> k == 7
    ensures c == 'E' ==> k == 14
  {
    if k < 10 then ('0' as int + k) as char else ('A' as int + k - 10) as char
  }

  /** The characters an encoded string is made of. */
  predicate EncodedChar(c: char) {
    Unreserved(c) || c == '%' || IsHex(c)
  }

  /** Each byte as '%' and two upper-case hex digits. */
  function Escape(bytes: seq<nat>): (s: string)
    requires Bytes(bytes)
    ensures |s| == 3 * |bytes|
    ensures forall i | 0 <= i < |s| :: s[i] == '%' || IsHex(s[i])
  {
    if bytes == [] then ""
    else ['%', HexDigit(bytes[0] / 16), HexDigit(bytes[0] % 16)] + Escape(bytes[1..])
  }

  /** The characters `encodeURIComponent` produces. */
  predicate UriEncodedChar(c: char) {
    UriComponentSafe(c) || c == '%' || IsHex(c)
  }

  function EncodeUriChar(c: char): (r: string)
    ensures |r| >= 1
    ensures forall i | 0 <= i < |r| :: UriEncodedChar(r[i])
    ensures UriComponentSafe(c) ==> r == [c]
  {
    if UriComponentSafe(c) then [c] else Escape(Utf8(c))
  }

  /** `encodeURIComponent`. */
  function EncodeUriComponent(s: string): (r: string)
    ensures |r| >= |s|
    ensures forall i | 0 <= i < |r| :: UriEncodedChar(r[i])
    ensures (forall i | 0 <= i < |s| :: UriComponentSafe(s[i])) ==> r == s
  {
    if s == [] then ""
    else
      var head := EncodeUriChar(s[0]);
      var tail := EncodeUriComponent(s[1..]);
      EncodedConcat(head, tail);
      head + tail
  }

  lemma EncodedConcat(a: string, b: string)
    requires forall i | 0 <= i < |a| :: UriEncodedChar(a[i])
    requires forall i | 0 <= i < |b| :: UriEncodedChar(b[i])
    ensures forall i | 0 <= i < |a + b| :: UriEncodedChar((a + b)[i])
  {
    forall i | 0 <= i < |a + b|
      ensures UriEncodedChar((a + b)[i])
    {
      if i >= |a| {
        assert (a + b)[i] == b[i - |a|];
      }
    }
  }

  /** The characters `encodeURIComponent` leaves alone but section 2.3 of RFC 3986 escapes. */
  predicate SubDelimChar(c: char) {
    c == '!' || c == '\'' || c == '(' || c == ')' || c == '*'
  }

  /** The five one-character replacements: ! ' ( ) * by their escapes. */
  function EscapeSubDelims(s: string): (r: string)
    ensures forall i | 0 <= i < |r| :: !SubDelimChar(r[i])
    ensures forall i | 0 <= i < |r| :: r[i] in s || r[i] == '%' || IsHex(r[i])
  {
    ReplaceChar(ReplaceChar(ReplaceChar(ReplaceChar(ReplaceChar(s, '!', "%21"), '\'', "%27"), '(', "%28"), ')', "%29"), '*', "%2A")
  }

  /** `.replace(/%7E/g, '~')`, scanning from the left. */
  function UnescapeTilde(s: string): (r: string)
    ensures |r| <= |s|
    decreases |s|
  {
    if s == [] then ""
    else if StartsWith(s, "%7E") then "~" + UnescapeTilde(s[3..])
    else [s[0]] + UnescapeTilde(s[1..])
  }

  /** Text without '%' passes the tilde replacement unchanged. */
  lemma {:induction false} TildeFreeUnchanged(s: string)
    requires '%' !in s
    ensures UnescapeTilde(s) == s
    decreases |s|
  {
    if s != [] {
      assert s[0] != '%';
      assert forall x | x in s[1..] :: x in s;
      TildeFreeUnchanged(s[1..]);
    }
  }

  /** `percentEncode`. */
  function PercentEncode(s: string): (r: string)
    ensures forall i | 0 <= i < |r| :: EncodedChar(r[i])
  {
    PercentEncodeIsRfc3986(s);
    UnescapeTilde(EscapeSubDelims(EncodeUriComponent(s)))
  }

  function RfcChar(c: char): string {
    if Unreserved(c) then [c] else Escape(Utf8(c))
  }

  /** The encoding of section 2.3 of RFC 3986: unreserved characters as they are, every other one as its UTF-8 bytes escaped. */
  function Rfc3986Encode(s: string): (r: string)
    ensures forall i | 0 <= i < |r| :: EncodedChar(r[i])
    ensures |r| >= |s|
  {
    if s == [] then ""
    else
      var head := RfcChar(s[0]);
      var tail := Rfc3986Encode(s[1..]);
      assert forall i | 0 <= i < |head| :: EncodedChar(head[i]);
      assert forall i | 0 <= i < |head + tail| :: (head + tail)[i] == (if i < |head| then head[i] else tail[i - |head|]);
      head + tail
  }

  /** `percentEncode` is exactly the encoding of section 2.3 of RFC 3986. */
  lemma {:induction false} PercentEncodeIsRfc3986(s: string)
    ensures UnescapeTilde(EscapeSubDelims(EncodeUriComponent(s))) == Rfc3986Encode(s)
  {
    if s != [] {
      var rest := EncodeUriComponent(s[1..]);
      SubstConcat(EncodeUriChar(s[0]), rest);
      SubstChar(s[0]);
      TildeSkipsChar(s[0], EscapeSubDelims(rest));
      PercentEncodeIsRfc3986(s[1..]);
    }
  }

  /** The path "/" of the string to sign is sent as "%2F". */
  lemma SlashEncoded()
    ensures PercentEncode("/") == "%2F"
  {
    PercentEncodeIsRfc3986("/");
    assert "/"[1..] == "";
    assert Utf8('/') == [47];
    assert HexDigit(2) == '2' && HexDigit(15) == 'F';
    assert Escape([47]) == ['%', HexDigit(2), HexDigit(15)] + Escape([]);
    assert RfcChar('/') == "%2F";
    assert Rfc3986Encode("/") == RfcChar('/') + Rfc3986Encode("");
  }

  /** A string of unreserved characters is sent as it is. */
  lemma UnreservedUnchanged(s: string)
    requires forall i | 0 <= i < |s| :: Unreserved(s[i])
    ensures PercentEncode(s) == s
  {
    PercentEncodeIsRfc3986(s);
    RfcUnreservedUnchanged(s);
  }

  lemma {:induction false} RfcUnreservedUnchanged(s: string)
    requires forall i | 0 <= i < |s| :: Unreserved(s[i])
    ensures Rfc3986Encode(s) == s
  {
    if s != [] {
      RfcUnreservedUnchanged(s[1..]);
    }
  }

  lemma {:induction false} ReplaceConcat(a: string, b: string, c: char, x: string)
    ensures ReplaceChar(a + b, c, x) == ReplaceChar(a, c, x) + ReplaceChar(b, c, x)
  {
    if a != [] {
      var h := if a[0] == c then x else [a[0]];
      assert (a + b)[0] == a[0] && (a + b)[1..] == a[1..] + b;
      assert ReplaceChar(a + b, c, x) == h + ReplaceChar(a[1..] + b, c, x);
      ReplaceConcat(a[1..], b, c, x);
      assert ReplaceChar(a, c, x) == h + ReplaceChar(a[1..], c, x);
    } else {
      assert a + b == b;
    }
  }

  lemma {:induction false} ReplaceAbsent(s: string, c: char, x: string)
    requires c !in s
    ensures ReplaceChar(s, c, x) == s
  {
    if s != [] {
      ReplaceAbsent(s[1..], c, x);
    }
  }

  lemma SubstConcat(a: string, b: string)
    ensures EscapeSubDelims(a + b) == EscapeSubDelims(a) + EscapeSubDelims(b)
  {
    var a1, b1 := ReplaceChar(a, '!', "%21"), ReplaceChar(b, '!', "%21");
    ReplaceConcat(a, b, '!', "%21");
    var a2, b2 := ReplaceChar(a1, '\'', "%27"), ReplaceChar(b1, '\'', "%27");
    ReplaceConcat(a1, b1, '\'', "%27");
    var a3, b3 := ReplaceChar(a2, '(', "%28"), ReplaceChar(b2, '(', "%28");
    ReplaceConcat(a2, b2, '(', "%28");
    var a4, b4 := ReplaceChar(a3, ')', "%29"), ReplaceChar(b3, ')', "%29");
    ReplaceConcat(a3, b3, ')', "%29");
    ReplaceConcat(a4, b4, '*', "%2A");
  }

  /** A string free of the five characters passes the replacements unchanged. */
  lemma SubstFree(s: string)
    requires '!' !in s && '\'' !in s && '(' !in s && ')' !in s && '*' !in s
    ensures EscapeSubDelims(s) == s
  {
    ReplaceAbsent(s, '!', "%21");
    ReplaceAbsent(s, '\'', "%27");
    ReplaceAbsent(s, '(', "%28");
    ReplaceAbsent(s, ')', "%29");
    ReplaceAbsent(s, '*', "%2A");
  }

  /** For one character, `encodeURIComponent` and the replacements give the RFC 3986 encoding. */
  lemma SubstChar(c: char)
    ensures EscapeSubDelims(EncodeUriChar(c)) == RfcChar(c)
  {
    if Unreserved(c) {
      SubstFree([c]);
    } else if UriComponentSafe(c) {
      SubDelim(c);
    } else {
      var e := Escape(Utf8(c));
      assert forall i | 0 <= i < |e| :: e[i] == '%' || IsHex(e[i]);
      SubstFree(e);
    }
  }

  /** Each of ! ' ( ) * is replaced by its UTF-8 escape. */
  lemma SubDelim(c: char)
    requires c == '!' || c == '\'' || c == '(' || c == ')' || c == '*'
    ensures EscapeSubDelims([c]) == Escape(Utf8(c))
  {
    var e := Escape(Utf8(c));
    assert e == ['%', HexDigit(2), HexDigit((c as int) % 16)];
    if c == '!' {
      SubDelimReplaced('!', "%21");
    } else if c == '\'' {
      SubDelimReplaced('\'', "%27");
    } else if c == '(' {
      SubDelimReplaced('(', "%28");
    } else if c == ')' {
      SubDelimReplaced(')', "%29");
    } else {
      SubDelimReplaced('*', "%2A");
    }
  }

  /** The one replacement that matches turns `c` into `x`; the others pass over both. */
  lemma SubDelimReplaced(c: char, x: string)
    requires (c, x) in [('!', "%21"), ('\'', "%27"), ('(', "%28"), (')', "%29"), ('*', "%2A")]
    ensures EscapeSubDelims([c]) == x
  {
    assert '!' !in x && '\'' !in x && '(' !in x && ')' !in x && '*' !in x;
    var s1 := ReplaceChar([c], '!', "%21");
    assert s1 == (if c == '!' then x else [c]) by {
      if c == '!' { Replaced(c, '!', "%21", x); } else { ReplaceAbsent([c], '!', "%21"); }
    }
    var s2 := ReplaceChar(s1, '\'', "%27");
    assert s2 == (if c in "!'" then x else [c]) by {
      if c == '\'' { Replaced(c, '\'', "%27", x); } else { ReplaceAbsent(s1, '\'', "%27"); }
    }
    var s3 := ReplaceChar(s2, '(', "%28");
    assert s3 == (if c in "!'(" then x else [c]) by {
      if c == '(' { Replaced(c, '(', "%28", x); } else { ReplaceAbsent(s2, '(', "%28"); }
    }
    var s4 := ReplaceChar(s3, ')', "%29");
    assert s4 == (if c in "!'()" then x else [c]) by {
      if c == ')' { Replaced(c, ')', "%29", x); } else { ReplaceAbsent(s3, ')', "%29"); }
    }
    if c == '*' { Replaced(c, '*', "%2A", x); } else { ReplaceAbsent(s4, '*', "%2A"); }
  }

  lemma Replaced(c: char, d: char, x: string, e: string)
    requires c == d && x == e
    ensures ReplaceChar([c], d, x) == e
  {
    assert [c][1..] == [];
  }

  /** The tilde replacement passes over the encoding of one character. */
  lemma TildeSkipsChar(c: char, rest: string)
    ensures UnescapeTilde(RfcChar(c) + rest) == RfcChar(c) + UnescapeTilde(rest)
  {
    if Unreserved(c) {
      assert ([c] + rest)[1..] == rest;
    } else {
      var bytes := Utf8(c);
      assert forall i | 0 <= i < |bytes| :: bytes[i] != 0x7E by {
        if c as int < 0x80 {
          assert bytes == [c as int] && c != '~';
        }
      }
      TildeSkipsEscape(bytes, rest);
    }
  }

  lemma {:induction false} TildeSkipsEscape(bytes: seq<nat>, rest: string)
    requires Bytes(bytes) && forall i | 0 <= i < |bytes| :: bytes[i] != 0x7E
    ensures UnescapeTilde(Escape(bytes) + rest) == Escape(bytes) + UnescapeTilde(rest)
  {
    if bytes != [] {
      var b := bytes[0];
      assert b < 256 && b != 0x7E;
      NotTildePair(b);
      var h1, h2 := HexDigit(b / 16), HexDigit(b % 16);
      var tail := Escape(bytes[1..]) + rest;
      assert Escape(bytes) + rest == ['%', h1, h2] + tail;
      TildeSkipsTriple(h1, h2, tail);
      assert forall i | 0 <= i < |bytes[1..]| :: bytes[1..][i] == bytes[i + 1];
      TildeSkipsEscape(bytes[1..], rest);
    } else {
      assert Escape(bytes) + rest == rest;
    }
  }

  /** Only the byte 0x7E escapes to "%7E". */
  lemma NotTildePair(b: nat)
    requires b < 256 && b != 0x7E
    ensures b / 16 != 7 || b % 16 != 14
  {
    assert b == 16 * (b / 16) + b % 16;
  }

  lemma TildeSkipsTriple(h1: char, h2: char, tail: string)
    requires h1 != '%' && h2 != '%' && !(h1 == '7' && h2 == 'E')
    ensures UnescapeTilde(['%', h1, h2] + tail) == ['%', h1, h2] + UnescapeTilde(tail)
  {
    var s := ['%', h1, h2] + tail;
    var s1 := [h1, h2] + tail;
    var s2 := [h2] + tail;
    assert "%7E"[1] == '7' && "%7E"[2] == 'E';
    assert s[..3] == ['%', h1, h2] != "%7E";
    assert s[1..] == s1 && s1[1..] == s2 && s2[1..] == tail;
    assert s1[0] != '%' && s2[0] != '%';
    assert UnescapeTilde(s2) == [h2] + UnescapeTilde(tail);
    assert UnescapeTilde(s1) == [h1] + UnescapeTilde(s2);
    assert UnescapeTilde(s) == ['%'] + UnescapeTilde(s1);
  }
}
