/**
 * `generateToken` of apps/worker/src/utils/crypto.ts: 24 random bytes,
 * base64-encoded by `btoa` (RFC 4648 section 4, with `=` padding), then
 * made URL-safe by replacing `+` with `-` and `/` with `_` and stripping
 * the trailing `=` run, behind an optional prefix.
 *
 * The random bytes are a parameter. `DecodeUrl` is the inverse the token's
 * consumers would apply; it is not in the source and serves as the
 * round-trip partner of the encoding.
 */
module Token {
  import opened Wrappers
  import Md5

  type Byte = Md5.Byte

  /** A 6-bit value: one base64 digit. */
  type Sextet = x: int | 0 <= x < 64

  // ---------------------------------------------------------------------
  // Alphabets
  // ---------------------------------------------------------------------

  /** The URL-safe alphabet of RFC 4648 section 5: A-Z, a-z, 0-9, `-`, `_`. */
  function UrlChar(i: Sextet): (c: char)
    ensures c != '=' && c != '+' && c != '/'
  {
    if i < 26 then (('A' as int) + i) as char
    else if i < 52 then (('a' as int) + (i - 26)) as char
    else if i < 62 then (('0' as int) + (i - 52)) as char
    else if i == 62 then '-'
    else '_'
  }

  /** The standard alphabet of RFC 4648 section 4, which `btoa` uses. */
  function StdChar(i: Sextet): (c: char)
    ensures c != '='
  {
    if i == 62 then '+' else if i == 63 then '/' else UrlChar(i)
  }

  predicate IsUrlChar(c: char) {
    'A' <= c <= 'Z' || 'a' <= c <= 'z' || '0' <= c <= '9' || c == '-' || c == '_'
  }

  /** The digit value of a URL-safe character, `None` for any other character. */
  function UrlIndex(c: char): (r: Option<Sextet>)
    ensures r.Some? <==> IsUrlChar(c)
    ensures r.Some? ==> UrlChar(r.value) == c
  {
    if 'A' <= c <= 'Z' then Some((c as int) - ('A' as int))
    else if 'a' <= c <= 'z' then Some((c as int) - ('a' as int) + 26)
    else if '0' <= c <= '9' then Some((c as int) - ('0' as int) + 52)
    else if c == '-' then Some(62)
    else if c == '_' then Some(63)
    else None
  }

  /** Every digit's character is URL-safe and maps back to that digit. */
  lemma UrlIndexOfChar(i: Sextet)
    ensures IsUrlChar(UrlChar(i)) && UrlIndex(UrlChar(i)) == Some(i)
  {
  }

  // ---------------------------------------------------------------------
  // Base64 of the source (`btoa`) and its URL-safe rewrite
  // ---------------------------------------------------------------------

  /** The 6-bit groups of the bytes: four per full group of three, two or three for a final partial group. */
  function Sextets(b: seq<Byte>): (s: seq<Sextet>)
    ensures |s| == (4 * |b| + 2) / 3
  {
    if |b| == 0 then []
    else if |b| == 1 then [b[0] / 4, (b[0] % 4) * 16]
    else if |b| == 2 then [b[0] / 4, (b[0] % 4) * 16 + b[1] / 16, (b[1] % 16) * 4]
    else [b[0] / 4, (b[0] % 4) * 16 + b[1] / 16, (b[1] % 16) * 4 + b[2] / 64, b[2] % 64] + Sextets(b[3..])
  }

  function MapStd(s: seq<Sextet>): (r: string)
    ensures |r| == |s| && forall k :: 0 <= k < |s| ==> r[k] == StdChar(s[k])
  {
    if s == [] then [] else [StdChar(s[0])] + MapStd(s[1..])
  }

  function MapUrl(s: seq<Sextet>): (r: string)
    ensures |r| == |s| && forall k :: 0 <= k < |s| ==> r[k] == UrlChar(s[k])
  {
    if s == [] then [] else [UrlChar(s[0])] + MapUrl(s[1..])
  }

  /** The `=` characters that complete the last group of four. */
  function Padding(n: nat): (r: string)
    ensures |r| == (3 - n % 3) % 3 && forall k :: 0 <= k < |r| ==> r[k] == '='
  {
    if n % 3 == 1 then "==" else if n % 3 == 2 then "=" else ""
  }

  /** `btoa(String.fromCharCode(...bytes))`. */
  function Base64(b: seq<Byte>): string {
    MapStd(Sextets(b)) + Padding(|b|)
  }

  /** `btoa` output is four characters per started group of three bytes. */
  lemma Base64Length(b: seq<Byte>)
    ensures |Base64(b)| == 4 * ((|b| + 2) / 3)
  {
  }

  /** `.replace(/<from>/g, to)`: every occurrence of one character replaced. */
  function ReplaceAll(s: string, from: char, to: char): (r: string)
    ensures |r| == |s|
    ensures forall k :: 0 <= k < |s| ==> r[k] == (if s[k] == from then to else s[k])
  {
    if s == [] then [] else [if s[0] == from then to else s[0]] + ReplaceAll(s[1..], from, to)
  }

  /** `.replace(/=+$/, "")`: the trailing run of `=` removed. */
  function StripPadding(s: string): (r: string)
    ensures |r| <= |s| && r == s[..|r|]
    ensures forall k :: |r| <= k < |s| ==> s[k] == '='
    ensures |r| == 0 || r[|r| - 1] != '='
  {
    if s == [] || s[|s| - 1] != '=' then s else StripPadding(s[..|s| - 1])
  }

  /** The rewrite the source applies to `btoa`'s output. */
  function UrlSafe(s: string): string {
    StripPadding(ReplaceAll(ReplaceAll(s, '+', '-'), '/', '_'))
  }

  /** The token body written directly in the URL-safe alphabet, without padding. */
  function UrlEncode(b: seq<Byte>): string {
    MapUrl(Sextets(b))
  }

  /** Stripping the padding from a string that does not end in `=` leaves that string. */
  lemma {:induction false} StripPaddingAfter(s: string, pad: string)
    requires |s| == 0 || s[|s| - 1] != '='
    requires forall k :: 0 <= k < |pad| ==> pad[k] == '='
    ensures StripPadding(s + pad) == s
    decreases |pad|
  {
    if pad == [] {
      assert s + pad == s;
    } else {
      var t := s + pad;
      assert t[..|t| - 1] == s + pad[..|pad| - 1];
      StripPaddingAfter(s, pad[..|pad| - 1]);
    }
  }

  /** The replace-and-strip pipeline over `btoa` is exactly the URL-safe encoding. */
  lemma UrlSafeOfBase64(b: seq<Byte>)
    ensures UrlSafe(Base64(b)) == UrlEncode(b)
  {
    var xs := Sextets(b);
    var replaced := ReplaceAll(ReplaceAll(Base64(b), '+', '-'), '/', '_');
    assert replaced == MapUrl(xs) + Padding(|b|);
    StripPaddingAfter(MapUrl(xs), Padding(|b|));
  }

  // ---------------------------------------------------------------------
  // The token
  // ---------------------------------------------------------------------

  /** `generateToken(prefix)`, with the 24 bytes of `crypto.getRandomValues` given. */
  function GenerateToken(prefix: string, random: seq<Byte>): (token: string)
    requires |random| == 24
    ensures |token| == |prefix| + 32 && token[..|prefix|] == prefix
    ensures forall k :: |prefix| <= k < |token| ==> IsUrlChar(token[k])
  {
    UrlSafeOfBase64(random);
    var body := UrlEncode(random);
    assert forall k :: 0 <= k < |body| ==> IsUrlChar(body[k]) by {
      forall k | 0 <= k < |body|
        ensures IsUrlChar(body[k])
      {
        UrlIndexOfChar(Sextets(random)[k]);
      }
    }
    prefix + UrlSafe(Base64(random))
  }

  // ---------------------------------------------------------------------
  // Decoding: the inverse of the URL-safe encoding
  // ---------------------------------------------------------------------

  /** The digit values of a string, `None` if any character is outside the URL-safe alphabet. */
  function UrlDigits(s: string): (r: Option<seq<Sextet>>)
    ensures r.Some? ==> |r.value| == |s|
  {
    if s == [] then Some([])
    else match (UrlIndex(s[0]), UrlDigits(s[1..]))
      case (Some(d), Some(ds)) => Some([d] + ds)
      case _ => None
  }

  /** The byte made of the low 6 - 2i bits of one digit and the high 2 + 2i bits of the next. */
  function Join(hi: Sextet, lo: Sextet, i: nat): Byte
    requires i < 3
  {
    if i == 0 then hi * 4 + lo / 16
    else if i == 1 then (hi % 16) * 16 + lo / 4
    else (hi % 4) * 64 + lo
  }

  /** Groups of four digits back to three bytes; a final group of two or three gives one or two bytes. */
  function BytesOf(d: seq<Sextet>): (r: Option<seq<Byte>>)
  {
    if |d| == 0 then Some([])
    else if |d| == 1 then None
    else if |d| == 2 then Some([Join(d[0], d[1], 0)])
    else if |d| == 3 then Some([Join(d[0], d[1], 0), Join(d[1], d[2], 1)])
    else
      match BytesOf(d[4..])
      case None => None
      case Some(rest) => Some([Join(d[0], d[1], 0), Join(d[1], d[2], 1), Join(d[2], d[3], 2)] + rest)
  }

  function DecodeUrl(s: string): Option<seq<Byte>> {
    match UrlDigits(s)
    case None => None
    case Some(d) => BytesOf(d)
  }

  lemma {:induction false} UrlDigitsOfMap(xs: seq<Sextet>)
    ensures UrlDigits(MapUrl(xs)) == Some(xs)
  {
    if xs != [] {
      var s := MapUrl(xs);
      UrlIndexOfChar(xs[0]);
      assert s[0] == UrlChar(xs[0]);
      assert s[1..] == MapUrl(xs[1..]);
      UrlDigitsOfMap(xs[1..]);
      assert [xs[0]] + xs[1..] == xs;
    }
  }

  /** Splitting a byte into digits and joining them again gives the byte back. */
  lemma JoinSplit(b0: Byte, b1: Byte, b2: Byte)
    ensures Join(b0 / 4, (b0 % 4) * 16, 0) == b0
    ensures Join(b0 / 4, (b0 % 4) * 16 + b1 / 16, 0) == b0
    ensures Join((b0 % 4) * 16 + b1 / 16, (b1 % 16) * 4, 1) == b1
    ensures Join((b0 % 4) * 16 + b1 / 16, (b1 % 16) * 4 + b2 / 64, 1) == b1
    ensures Join((b1 % 16) * 4 + b2 / 64, b2 % 64, 2) == b2
  {
  }

  lemma {:induction false} BytesOfSextets(b: seq<Byte>)
    ensures BytesOf(Sextets(b)) == Some(b)
    decreases |b|
  {
    if |b| == 1 {
      JoinSplit(b[0], 0, 0);
      assert b == [b[0]];
    } else if |b| == 2 {
      var xs := Sextets(b);
      JoinSplit(b[0], b[1], 0);
      assert Join(xs[0], xs[1], 0) == b[0] && Join(xs[1], xs[2], 1) == b[1];
      assert b == [b[0], b[1]];
    } else if |b| >= 3 {
      var xs := Sextets(b);
      assert xs[4..] == Sextets(b[3..]);
      BytesOfSextets(b[3..]);
      JoinSplit(b[0], b[1], b[2]);
      assert Join(xs[0], xs[1], 0) == b[0] && Join(xs[1], xs[2], 1) == b[1] && Join(xs[2], xs[3], 2) == b[2];
      assert b == [b[0], b[1], b[2]] + b[3..];
    }
  }

  /** Decoding a token body gives back the random bytes it was made from. */
  lemma DecodeUrlEncode(b: seq<Byte>)
    ensures DecodeUrl(UrlEncode(b)) == Some(b)
  {
    UrlDigitsOfMap(Sextets(b));
    BytesOfSextets(b);
  }

  /** Two tokens with the same prefix are equal only when their random bytes are. */
  lemma GenerateTokenInjective(prefix: string, r1: seq<Byte>, r2: seq<Byte>)
    requires |r1| == 24 && |r2| == 24
    ensures GenerateToken(prefix, r1) == GenerateToken(prefix, r2) <==> r1 == r2
  {
    if GenerateToken(prefix, r1) == GenerateToken(prefix, r2) {
      UrlSafeOfBase64(r1);
      UrlSafeOfBase64(r2);
      var t := GenerateToken(prefix, r1);
      assert UrlEncode(r1) == t[|prefix|..] == UrlEncode(r2);
      DecodeUrlEncode(r1);
      DecodeUrlEncode(r2);
    }
  }
}
