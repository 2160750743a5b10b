/** `urllib.parse.quote_plus` and its inverse `unquote_plus` on the UTF-8
    bytes of a string, and the `k=v&k=v` query form built from them.
    quote_plus keeps the unreserved bytes of section 2.3 of RFC 3986
    (A-Z a-z 0-9 - . _ ~), writes a space as `+` (the
    application/x-www-form-urlencoded convention of section 17.13.4.1 of
    HTML 4.01) and percent-encodes every other byte as `%XX` with upper-case
    hexadecimal digits (section 2.1 of RFC 3986). */
module UrlEncode {

  type Byte = b: int | 0 <= b < 256
  type Bytes = seq<Byte>

  const Space: Byte := 32
  const Percent: Byte := 37
  const Ampersand: Byte := 38
  const Plus: Byte := 43
  const Equals: Byte := 61

  predicate IsAscii(s: string) {
    forall i | 0 <= i < |s| :: s[i] < 128 as char
  }

  /** The bytes of an ASCII literal. */
  function Ascii(s: string): (r: Bytes)
    requires IsAscii(s)
    ensures |r| == |s|
    ensures forall i | 0 <= i < |s| :: r[i] == s[i] as int
  {
    if s == [] then [] else [s[0] as int] + Ascii(s[1..])
  }

  /** The unreserved set of section 2.3 of RFC 3986. */
  predicate Unreserved(b: Byte) {
    || 'A' as int <= b <= 'Z' as int
    || 'a' as int <= b <= 'z' as int
    || '0' as int <= b <= '9' as int
    || b == '-' as int || b == '.' as int || b == '_' as int || b == '~' as int
  }

  /** Upper-case hexadecimal digit for a nibble, as `%02X` writes it. */
  function HexDigit(n: int): (d: Byte)
    requires 0 <= n < 16
    ensures IsUpperHex(d) && HexValue(d) == n
  {
    if n < 10 then '0' as int + n else 'A' as int + (n - 10)
  }

  predicate IsUpperHex(b: Byte) {
    '0' as int <= b <= '9' as int || 'A' as int <= b <= 'F' as int
  }

  /** `unquote` accepts hexadecimal digits in either case. */
  predicate IsHex(b: Byte) {
    IsUpperHex(b) || 'a' as int <= b <= 'f' as int
  }

  function HexValue(b: Byte): (n: int)
    requires IsHex(b)
    ensures 0 <= n < 16
  {
    if b <= '9' as int then b - '0' as int
    else if b <= 'F' as int then b - 'A' as int + 10
    else b - 'a' as int + 10
  }

  /** How quote_plus writes one byte. */
  function QuoteByte(b: Byte): Bytes {
    if Unreserved(b) then [b]
    else if b == Space then [Plus]
    else [Percent, HexDigit(b / 16), HexDigit(b % 16)]
  }

  /** `urllib.parse.quote_plus(s)` with the default `safe=''`. */
  function QuotePlus(s: Bytes): (r: Bytes)
    ensures |r| >= |s|
  {
    if s == [] then [] else QuoteByte(s[0]) + QuotePlus(s[1..])
  }

  /** Every byte quote_plus writes is unreserved, `+` or `%`. */
  lemma {:induction false} QuotePlusAlphabet(s: Bytes)
    ensures forall i | 0 <= i < |QuotePlus(s)| ::
      Unreserved(QuotePlus(s)[i]) || QuotePlus(s)[i] == Plus || QuotePlus(s)[i] == Percent
  {
    if s != [] {
      QuotePlusAlphabet(s[1..]);
      var head := QuoteByte(s[0]);
      forall i | 0 <= i < |QuotePlus(s)|
        ensures Unreserved(QuotePlus(s)[i]) || QuotePlus(s)[i] == Plus || QuotePlus(s)[i] == Percent
      {
        if i >= |head| {
          assert QuotePlus(s)[i] == QuotePlus(s[1..])[i - |head|];
        }
      }
    }
  }

  /** A string of unreserved bytes is its own quote_plus. */
  lemma {:induction false} QuotePlusKeepsUnreserved(s: Bytes)
    requires forall i | 0 <= i < |s| :: Unreserved(s[i])
    ensures QuotePlus(s) == s
  {
    if s != [] {
      QuotePlusKeepsUnreserved(s[1..]);
    }
  }

  /** `urllib.parse.unquote_plus(e)` on bytes: `+` is a space, `%` with two
      hexadecimal digits is the byte they spell, anything else stands for
      itself (a stray `%` included). */
  function UnquotePlus(e: Bytes): Bytes
  {
    if e == [] then []
    else if e[0] == Plus then [Space] + UnquotePlus(e[1..])
    else if e[0] == Percent && |e| >= 3 && IsHex(e[1]) && IsHex(e[2]) then
      [16 * HexValue(e[1]) + HexValue(e[2])] + UnquotePlus(e[3..])
    else [e[0]] + UnquotePlus(e[1..])
  }

  /** The canonical output form of quote_plus: unreserved bytes, `+`, and
      `%XX` triples (upper-case digits) that spell a byte quote_plus would not
      have kept or turned into `+`. */
  predicate Encoded(e: Bytes)
  {
    if e == [] then true
    else if Unreserved(e[0]) || e[0] == Plus then Encoded(e[1..])
    else
      && e[0] == Percent && |e| >= 3 && IsUpperHex(e[1]) && IsUpperHex(e[2])
      && !Unreserved(16 * HexValue(e[1]) + HexValue(e[2]))
      && 16 * HexValue(e[1]) + HexValue(e[2]) != Space
      && Encoded(e[3..])
  }

  lemma QuoteByteThenUnquote(b: Byte, rest: Bytes)
    ensures UnquotePlus(QuoteByte(b) + rest) == [b] + UnquotePlus(rest)
  {
    var e := QuoteByte(b) + rest;
    if Unreserved(b) {
      assert e[1..] == rest;
    } else if b == Space {
      assert e[1..] == rest;
    } else {
      assert e[3..] == rest;
      assert 16 * HexValue(e[1]) + HexValue(e[2]) == b;
    }
  }

  /** unquote_plus(quote_plus(s)) == s for every byte string. */
  lemma {:induction false} UnquoteQuote(s: Bytes)
    ensures UnquotePlus(QuotePlus(s)) == s
  {
    if s != [] {
      QuoteByteThenUnquote(s[0], QuotePlus(s[1..]));
      UnquoteQuote(s[1..]);
    }
  }

  /** quote_plus only produces the canonical form. */
  lemma {:induction false} QuotePlusIsEncoded(s: Bytes)
    ensures Encoded(QuotePlus(s))
  {
    if s != [] {
      var e := QuotePlus(s);
      QuotePlusIsEncoded(s[1..]);
      var b := s[0];
      if Unreserved(b) || b == Space {
        assert e[1..] == QuotePlus(s[1..]);
      } else {
        assert e[3..] == QuotePlus(s[1..]);
        assert 16 * HexValue(e[1]) + HexValue(e[2]) == b;
      }
    }
  }

  /** The other direction: every canonical encoding is quote_plus of what it
      decodes to, so quote_plus is a bijection onto Encoded strings. */
  lemma {:induction false} QuoteUnquote(e: Bytes)
    requires Encoded(e)
    ensures QuotePlus(UnquotePlus(e)) == e
  {
    if e != [] {
      if Unreserved(e[0]) {
        QuoteUnquote(e[1..]);
        assert UnquotePlus(e) == [e[0]] + UnquotePlus(e[1..]);
      } else if e[0] == Plus {
        QuoteUnquote(e[1..]);
        assert UnquotePlus(e) == [Space] + UnquotePlus(e[1..]);
      } else {
        var v: Byte := 16 * HexValue(e[1]) + HexValue(e[2]);
        QuoteUnquote(e[3..]);
        assert UnquotePlus(e) == [v] + UnquotePlus(e[3..]);
        assert HexDigit(v / 16) == e[1] && HexDigit(v % 16) == e[2];
        assert e == QuoteByte(v) + e[3..];
      }
    }
  }

  /** No byte that delimits a query (space, `&`, `=`, `?`, `#`) survives
      quote_plus. */
  lemma NoDelimiterLeaks(s: Bytes)
    ensures Space !in QuotePlus(s) && Ampersand !in QuotePlus(s) && Equals !in QuotePlus(s)
    ensures '?' as int !in QuotePlus(s) && '#' as int !in QuotePlus(s)
  {
    QuotePlusAlphabet(s);
  }

  // ---- `k=v&k=v` query strings ----

  /** One `k=v` pair as `urllib.parse.urlencode` writes it with quote_plus. */
  function QueryPair(p: (Bytes, Bytes)): Bytes {
    QuotePlus(p.0) + [Equals] + QuotePlus(p.1)
  }

  /** `urllib.parse.urlencode(pairs)`: the pairs joined by `&`, in order. */
  function UrlEncodePairs(ps: seq<(Bytes, Bytes)>): (q: Bytes)
    ensures q == [] <==> ps == []
  {
    if ps == [] then []
    else if |ps| == 1 then QueryPair(ps[0])
    else QueryPair(ps[0]) + [Ampersand] + UrlEncodePairs(ps[1..])
  }

  /** Position of the first `x` in `s`, or `|s|` when there is none. */
  function IndexOf(s: Bytes, x: Byte): (i: nat)
    ensures i <= |s|
    ensures i < |s| ==> s[i] == x
    ensures forall j | 0 <= j < i :: s[j] != x
  {
    if s == [] then 0
    else if s[0] == x then 0
    else 1 + IndexOf(s[1..], x)
  }

  lemma IndexOfAfter(a: Bytes, x: Byte, b: Bytes)
    requires x !in a
    ensures IndexOf(a + [x] + b, x) == |a|
    ensures IndexOf(a, x) == |a|
  {
    var s := a + [x] + b;
    assert s[|a|] == x;
    assert forall j | 0 <= j < |a| :: s[j] == a[j];
  }

  /** Decodes one `k=v` pair; a pair without `=` has an empty value. */
  function DecodePair(p: Bytes): (Bytes, Bytes) {
    var j := IndexOf(p, Equals);
    if j == |p| then (UnquotePlus(p), [])
    else (UnquotePlus(p[..j]), UnquotePlus(p[j + 1..]))
  }

  /** Splits a query at each `&` and decodes every pair, in order. */
  function DecodeQuery(q: Bytes): seq<(Bytes, Bytes)>
    decreases |q|
  {
    if q == [] then []
    else
      var i := IndexOf(q, Ampersand);
      if i == |q| then [DecodePair(q)]
      else [DecodePair(q[..i])] + DecodeQuery(q[i + 1..])
  }

  lemma DecodeQueryPair(p: (Bytes, Bytes))
    ensures DecodePair(QueryPair(p)) == p
    ensures Ampersand !in QueryPair(p)
  {
    NoDelimiterLeaks(p.0);
    NoDelimiterLeaks(p.1);
    var e := QueryPair(p);
    IndexOfAfter(QuotePlus(p.0), Equals, QuotePlus(p.1));
    assert e[..|QuotePlus(p.0)|] == QuotePlus(p.0);
    assert e[|QuotePlus(p.0)| + 1..] == QuotePlus(p.1);
    UnquoteQuote(p.0);
    UnquoteQuote(p.1);
  }

  /** Decoding an encoded query gives back every key and value, in order. */
  lemma {:induction false} DecodeUrlEncodePairs(ps: seq<(Bytes, Bytes)>)
    ensures DecodeQuery(UrlEncodePairs(ps)) == ps
  {
    if ps != [] {
      var q := UrlEncodePairs(ps);
      var head := QueryPair(ps[0]);
      DecodeQueryPair(ps[0]);
      if |ps| == 1 {
        assert q == head;
        IndexOfAfter(head, Ampersand, []);
        assert DecodeQuery(q) == [DecodePair(head)];
      } else {
        var tail := UrlEncodePairs(ps[1..]);
        assert q == head + [Ampersand] + tail;
        IndexOfAfter(head, Ampersand, tail);
        assert q[..|head|] == head;
        assert q[|head| + 1..] == tail;
        assert DecodeQuery(q) == [DecodePair(head)] + DecodeQuery(tail);
        DecodeUrlEncodePairs(ps[1..]);
      }
    }
  }
}
