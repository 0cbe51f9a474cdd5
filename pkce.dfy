/** The PKCE helpers of server.js: the code verifier is the lower-case hex
    text of 64 random bytes, and the code challenge is the unpadded
    base64url text of the SHA-256 digest of the verifier (the S256 method of
    section 4.2 of RFC 7636). The random bytes and the SHA-256 function are
    parameters; hex and base64url are written out. */
module Pkce {
  import opened Common

  type Byte = b: int | 0 <= b < 256

  /** A SHA-256 digest: 32 bytes. */
  type Digest = d: seq<Byte> | |d| == 32 witness seq(32, i => 0)

  /** A hash function with SHA-256's signature; which one is left open. */
  type Sha256 = seq<Byte> -> Digest

  // ---------------------------------------------------------------- hex

  /** The lower-case hex digit for a nibble. */
  function HexChar(n: int): (c: char)
    requires 0 <= n < 16
    ensures IsLowerHex(c)
  {
    if n < 10 then ('0' as int + n) as char else ('a' as int + n - 10) as char
  }

  predicate IsLowerHex(c: char) {
    '0' <= c <= '9' || 'a' <= c <= 'f'
  }

  /** The value of a hex digit, None for any other character. */
  function NibbleOf(c: char): (r: Option<int>)
    ensures r.Some? ==> 0 <= r.value < 16
  {
    if '0' <= c <= '9' then Some(c as int - '0' as int)
    else if 'a' <= c <= 'f' then Some(c as int - 'a' as int + 10)
    else None
  }

  lemma NibbleOfHexChar(n: int)
    requires 0 <= n < 16
    ensures NibbleOf(HexChar(n)) == Some(n)
  {
  }

  /** `buffer.toString('hex')`: two lower-case digits per byte, high nibble
      first. */
  function Hex(bytes: seq<Byte>): (s: string)
    ensures |s| == 2 * |bytes|
    ensures forall i :: 0 <= i < |s| ==> IsLowerHex(s[i])
  {
    if |bytes| == 0 then ""
    else [HexChar(bytes[0] / 16), HexChar(bytes[0] % 16)] + Hex(bytes[1..])
  }

  /** Reads hex text back into bytes; None for odd length or a non-digit. */
  function Unhex(s: string): Option<seq<Byte>>
  {
    if |s| == 0 then Some([])
    else if |s| == 1 then None
    else match (NibbleOf(s[0]), NibbleOf(s[1]), Unhex(s[2..]))
      case (Some(hi), Some(lo), Some(rest)) => Some([hi * 16 + lo] + rest)
      case _ => None
  }

  /** Hex text loses nothing: reading it back gives the bytes. */
  lemma {:induction false} HexRoundTrip(bytes: seq<Byte>)
    ensures Unhex(Hex(bytes)) == Some(bytes)
  {
    if |bytes| > 0 {
      var s := Hex(bytes);
      NibbleOfHexChar(bytes[0] / 16);
      NibbleOfHexChar(bytes[0] % 16);
      assert s[2..] == Hex(bytes[1..]);
      HexRoundTrip(bytes[1..]);
      assert [bytes[0] / 16 * 16 + bytes[0] % 16] + bytes[1..] == bytes;
    }
  }

  /** Different random bytes give different verifiers. */
  lemma HexInjective(a: seq<Byte>, b: seq<Byte>)
    requires Hex(a) == Hex(b)
    ensures a == b
  {
    HexRoundTrip(a);
    HexRoundTrip(b);
  }

  // ------------------------------------------------------------ verifier

  /** An unreserved character of section 2.3 of RFC 3986, the alphabet of a
      code verifier. */
  predicate Unreserved(c: char) {
    'A' <= c <= 'Z' || 'a' <= c <= 'z' || '0' <= c <= '9' || c == '-' || c == '.' || c == '_' || c == '~'
  }

  /** A code verifier as section 4.1 of RFC 7636 defines it: 43 to 128
      unreserved characters. */
  predicate ValidVerifier(v: string) {
    43 <= |v| <= 128 && forall i :: 0 <= i < |v| ==> Unreserved(v[i])
  }

  /** `generateCodeVerifier()`: `crypto.randomBytes(64).toString('hex')`,
      with the 64 random bytes given. */
  function CodeVerifier(random: seq<Byte>): (v: string)
    requires |random| == 64
    ensures |v| == 128
    ensures forall i :: 0 <= i < |v| ==> IsLowerHex(v[i])
    ensures ValidVerifier(v)
  {
    Hex(random)
  }

  // ----------------------------------------------------------- base64url

  /** The character for a 6-bit value in the URL-safe alphabet of section 5
      of RFC 4648. */
  function SextetChar(n: int): (c: char)
    requires 0 <= n < 64
    ensures IsBase64Url(c)
  {
    if n < 26 then ('A' as int + n) as char
    else if n < 52 then ('a' as int + n - 26) as char
    else if n < 62 then ('0' as int + n - 52) as char
    else if n == 62 then '-'
    else '_'
  }

  predicate IsBase64Url(c: char) {
    'A' <= c <= 'Z' || 'a' <= c <= 'z' || '0' <= c <= '9' || c == '-' || c == '_'
  }

  /** The 6-bit value of a URL-safe base64 character, None for others. */
  function SextetOf(c: char): (r: Option<int>)
    ensures r.Some? ==> 0 <= r.value < 64
  {
    if 'A' <= c <= 'Z' then Some(c as int - 'A' as int)
    else if 'a' <= c <= 'z' then Some(c as int - 'a' as int + 26)
    else if '0' <= c <= '9' then Some(c as int - '0' as int + 52)
    else if c == '-' then Some(62)
    else if c == '_' then Some(63)
    else None
  }

  lemma SextetOfChar(n: int)
    requires 0 <= n < 64
    ensures SextetOf(SextetChar(n)) == Some(n)
  {
  }

  /** `buffer.toString('base64url')`: four characters per three bytes, and
      two or three characters for a final one or two bytes, no padding. */
  function Base64Url(b: seq<Byte>): (s: string)
    ensures |s| == (4 * |b| + 2) / 3
    ensures forall i :: 0 <= i < |s| ==> IsBase64Url(s[i])
  {
    if |b| == 0 then ""
    else if |b| == 1 then
      [SextetChar(b[0] / 4), SextetChar(b[0] % 4 * 16)]
    else if |b| == 2 then
      [SextetChar(b[0] / 4), SextetChar(b[0] % 4 * 16 + b[1] / 16), SextetChar(b[1] % 16 * 4)]
    else
      [SextetChar(b[0] / 4), SextetChar(b[0] % 4 * 16 + b[1] / 16),
       SextetChar(b[1] % 16 * 4 + b[2] / 64), SextetChar(b[2] % 64)]
      + Base64Url(b[3..])
  }

  /** Reads unpadded base64url text back into bytes; None for a length that
      leaves one character over or a character outside the alphabet. */
  function Base64UrlDecode(s: string): Option<seq<Byte>>
  {
    if |s| < 2 then (if |s| == 0 then Some([]) else None)
    else
      var c0, c1 := SextetOf(s[0]), SextetOf(s[1]);
      if c0.None? || c1.None? then None
      else
        var b0 := c0.value * 4 + c1.value / 16;
        if |s| == 2 then Some([b0])
        else
          var c2 := SextetOf(s[2]);
          if c2.None? then None
          else
            var b1 := c1.value % 16 * 16 + c2.value / 4;
            if |s| == 3 then Some([b0, b1])
            else
              var c3, rest := SextetOf(s[3]), Base64UrlDecode(s[4..]);
              if c3.None? || rest.None? then None
              else Some([b0, b1, c2.value % 4 * 64 + c3.value] + rest.value)
  }

  /** The arithmetic of one group: the four sextets of three bytes give the
      three bytes back. */
  lemma GroupRoundTrip(b0: Byte, b1: Byte, b2: Byte)
    ensures (b0 / 4) * 4 + (b0 % 4 * 16 + b1 / 16) / 16 == b0
    ensures (b0 % 4 * 16 + b1 / 16) % 16 * 16 + (b1 % 16 * 4 + b2 / 64) / 4 == b1
    ensures (b1 % 16 * 4 + b2 / 64) % 4 * 64 + b2 % 64 == b2
  {
  }

  /** A final single byte survives encoding and decoding. */
  lemma RoundTripOne(b0: Byte)
    ensures Base64UrlDecode(Base64Url([b0])) == Some([b0])
  {
    SextetOfChar(b0 / 4);
    SextetOfChar(b0 % 4 * 16);
    GroupRoundTrip(b0, 0, 0);
    assert Base64Url([b0]) == [SextetChar(b0 / 4), SextetChar(b0 % 4 * 16)];
  }

  /** A final pair of bytes survives encoding and decoding. */
  lemma RoundTripTwo(b0: Byte, b1: Byte)
    ensures Base64UrlDecode(Base64Url([b0, b1])) == Some([b0, b1])
  {
    SextetOfChar(b0 / 4);
    SextetOfChar(b0 % 4 * 16 + b1 / 16);
    SextetOfChar(b1 % 16 * 4);
    GroupRoundTrip(b0, b1, 0);
    assert Base64Url([b0, b1]) == [SextetChar(b0 / 4), SextetChar(b0 % 4 * 16 + b1 / 16), SextetChar(b1 % 16 * 4)];
  }

  /** How the encoder writes a full group of three bytes. */
  lemma EncodeGroup(b0: Byte, b1: Byte, b2: Byte, rest: seq<Byte>)
    ensures Base64Url([b0, b1, b2] + rest)
         == [SextetChar(b0 / 4), SextetChar(b0 % 4 * 16 + b1 / 16),
             SextetChar(b1 % 16 * 4 + b2 / 64), SextetChar(b2 % 64)]
            + Base64Url(rest)
  {
    var b := [b0, b1, b2] + rest;
    assert b[0] == b0 && b[1] == b1 && b[2] == b2 && b[3..] == rest;
  }

  /** The four sextets of a full group are 6-bit values. */
  lemma GroupSextets(b0: Byte, b1: Byte, b2: Byte)
    ensures 0 <= b0 / 4 < 64 && 0 <= b0 % 4 * 16 + b1 / 16 < 64
    ensures 0 <= b1 % 16 * 4 + b2 / 64 < 64 && 0 <= b2 % 64 < 64
  {
  }

  /** How the decoder reads a full group of four characters. */
  lemma DecodeGroup(s: string, c0: int, c1: int, c2: int, c3: int, rest: seq<Byte>)
    requires |s| >= 4
    requires SextetOf(s[0]) == Some(c0) && SextetOf(s[1]) == Some(c1)
    requires SextetOf(s[2]) == Some(c2) && SextetOf(s[3]) == Some(c3)
    requires Base64UrlDecode(s[4..]) == Some(rest)
    ensures Base64UrlDecode(s) == Some([c0 * 4 + c1 / 16, c1 % 16 * 16 + c2 / 4, c2 % 4 * 64 + c3] + rest)
  {
  }

  /** Base64url text loses nothing: decoding it gives the bytes back. */
  lemma {:induction false} Base64UrlRoundTrip(b: seq<Byte>)
    ensures Base64UrlDecode(Base64Url(b)) == Some(b)
  {
    if |b| == 1 {
      assert b == [b[0]];
      RoundTripOne(b[0]);
    } else if |b| == 2 {
      assert b == [b[0], b[1]];
      RoundTripTwo(b[0], b[1]);
    } else if |b| >= 3 {
      var rest := b[3..];
      Base64UrlRoundTrip(rest);
      RoundTripGroup(b[0], b[1], b[2], rest);
      assert [b[0], b[1], b[2]] + rest == b;
    }
  }

  /** Four alphabet characters in front of text that decodes read back as
      the three bytes their sextets spell. */
  lemma DecodeSextets(c0: int, c1: int, c2: int, c3: int, d0: Byte, d1: Byte, d2: Byte,
                      t: string, rest: seq<Byte>)
    requires 0 <= c0 < 64 && 0 <= c1 < 64 && 0 <= c2 < 64 && 0 <= c3 < 64
    requires d0 == c0 * 4 + c1 / 16 && d1 == c1 % 16 * 16 + c2 / 4 && d2 == c2 % 4 * 64 + c3
    requires Base64UrlDecode(t) == Some(rest)
    ensures Base64UrlDecode([SextetChar(c0), SextetChar(c1), SextetChar(c2), SextetChar(c3)] + t)
         == Some([d0, d1, d2] + rest)
  {
    var s := [SextetChar(c0), SextetChar(c1), SextetChar(c2), SextetChar(c3)] + t;
    SextetOfChar(c0);
    SextetOfChar(c1);
    SextetOfChar(c2);
    SextetOfChar(c3);
    assert s[4..] == t;
    DecodeGroup(s, c0, c1, c2, c3, rest);
  }

  /** The text of a full group in front of text that decodes reads back as
      the group's three bytes. */
  lemma DecodeEncodedGroup(b0: Byte, b1: Byte, b2: Byte, t: string, rest: seq<Byte>)
    requires Base64UrlDecode(t) == Some(rest)
    ensures Base64UrlDecode([SextetChar(b0 / 4), SextetChar(b0 % 4 * 16 + b1 / 16),
                             SextetChar(b1 % 16 * 4 + b2 / 64), SextetChar(b2 % 64)] + t)
         == Some([b0, b1, b2] + rest)
  {
    GroupSextets(b0, b1, b2);
    GroupRoundTrip(b0, b1, b2);
    DecodeSextets(b0 / 4, b0 % 4 * 16 + b1 / 16, b1 % 16 * 4 + b2 / 64, b2 % 64, b0, b1, b2, t, rest);
  }

  /** A full group in front of text that decodes survives encoding and
      decoding. */
  lemma RoundTripGroup(b0: Byte, b1: Byte, b2: Byte, rest: seq<Byte>)
    requires Base64UrlDecode(Base64Url(rest)) == Some(rest)
    ensures Base64UrlDecode(Base64Url([b0, b1, b2] + rest)) == Some([b0, b1, b2] + rest)
  {
    EncodeGroup(b0, b1, b2, rest);
    DecodeEncodedGroup(b0, b1, b2, Base64Url(rest), rest);
  }

  // ----------------------------------------------------------- challenge

  predicate IsAscii(s: string) {
    forall i :: 0 <= i < |s| ==> s[i] < 128 as char
  }

  /** The bytes `hash.update(s)` digests for an ASCII string (its UTF-8
      encoding, one byte per character). */
  function AsciiBytes(s: string): (b: seq<Byte>)
    requires IsAscii(s)
    ensures |b| == |s|
    ensures forall i :: 0 <= i < |s| ==> b[i] == s[i] as int
  {
    seq(|s|, i requires 0 <= i < |s| => s[i] as int)
  }

  /** `generateCodeChallenge(verifier)`: BASE64URL(SHA256(ASCII(verifier))),
      43 URL-safe characters for a 32-byte digest. */
  function CodeChallenge(sha256: Sha256, verifier: string): (c: string)
    requires IsAscii(verifier)
    ensures |c| == 43
    ensures forall i :: 0 <= i < |c| ==> IsBase64Url(c[i])
  {
    Base64Url(sha256(AsciiBytes(verifier)))
  }

  /** A verifier made of hex digits is ASCII, so it can be hashed as above. */
  lemma VerifierIsAscii(random: seq<Byte>)
    requires |random| == 64
    ensures IsAscii(CodeVerifier(random))
  {
  }

  /** Two verifiers get the same challenge only if SHA-256 maps them to the
      same digest: the encoding step loses nothing. */
  lemma ChallengeDeterminedByDigest(sha256: Sha256, v1: string, v2: string)
    requires IsAscii(v1) && IsAscii(v2)
    ensures CodeChallenge(sha256, v1) == CodeChallenge(sha256, v2) <==>
              sha256(AsciiBytes(v1)) == sha256(AsciiBytes(v2))
  {
    Base64UrlRoundTrip(sha256(AsciiBytes(v1)));
    Base64UrlRoundTrip(sha256(AsciiBytes(v2)));
  }
}
