/**
  The browser's `btoa`, which the application uses as its password "encoding":
  standard Base64 over the characters of a string, each of which must fit in one
  byte (otherwise `btoa` throws, modelled as `None`).
*/
module Base64 {
  import opened Wrappers

  /** Every character fits in one byte, which is what `btoa` accepts. */
  predicate IsLatin1(s: string) {
    forall i :: 0 <= i < |s| ==> s[i] as int < 256
  }

  /** The standard alphabet: A-Z, a-z, 0-9, '+', '/'. */
  function SextetChar(v: nat): char
    requires v < 64
  {
    if v < 26 then ('A' as int + v) as char
    else if v < 52 then ('a' as int + v - 26) as char
    else if v < 62 then ('0' as int + v - 52) as char
    else if v == 62 then '+'
    else '/'
  }

  /** The 6-bit value of an alphabet character (0 for anything else). */
  function SextetValue(c: char): (v: nat)
    ensures v < 64
  {
    if 'A' <= c <= 'Z' then c as int - 'A' as int
    else if 'a' <= c <= 'z' then c as int - 'a' as int + 26
    else if '0' <= c <= '9' then c as int - '0' as int + 52
    else if c == '+' then 62
    else if c == '/' then 63
    else 0
  }

  lemma SextetRoundTrip(v: nat)
    requires v < 64
    ensures SextetValue(SextetChar(v)) == v && SextetChar(v) != '='
  {
  }

  /** One group: `n` (1 to 3) bytes as four alphabet characters, padded with '='. */
  function EncodeGroup(b0: nat, b1: nat, b2: nat, n: nat): (g: string)
    requires b0 < 256 && b1 < 256 && b2 < 256 && 1 <= n <= 3
    ensures |g| == 4
  {
    [SextetChar(b0 / 4), SextetChar((b0 % 4) * 16 + b1 / 16),
     if n == 1 then '=' else SextetChar((b1 % 16) * 4 + b2 / 64),
     if n < 3 then '=' else SextetChar(b2 % 64)]
  }

  /** Base64 of a byte string, padded with '=' to a multiple of four characters. */
  function Encode(s: string): (r: string)
    requires IsLatin1(s)
    ensures |r| % 4 == 0
    decreases |s|
  {
    if |s| == 0 then ""
    else if |s| == 1 then EncodeGroup(s[0] as int, 0, 0, 1)
    else if |s| == 2 then EncodeGroup(s[0] as int, s[1] as int, 0, 2)
    else EncodeGroup(s[0] as int, s[1] as int, s[2] as int, 3) + Encode(s[3..])
  }

  /** Every started group of three bytes takes four characters. */
  lemma {:induction false} EncodedLength(s: string)
    requires IsLatin1(s)
    ensures |Encode(s)| == 4 * ((|s| + 2) / 3)
    decreases |s|
  {
    if |s| >= 3 {
      EncodedLength(s[3..]);
      assert (|s| + 2) / 3 == (|s[3..]| + 2) / 3 + 1;
    }
  }

  function ByteChar(b: nat): char
    requires b < 256
  {
    b as char
  }

  /** The bytes of one group of four characters. */
  function DecodeGroup(g: string): string
    requires |g| == 4
  {
    var v0, v1, v2, v3 := SextetValue(g[0]), SextetValue(g[1]), SextetValue(g[2]), SextetValue(g[3]);
    var b0 := ByteChar(v0 * 4 + v1 / 16);
    if g[2] == '=' then [b0]
    else
      var b1 := ByteChar((v1 % 16) * 16 + v2 / 4);
      if g[3] == '=' then [b0, b1]
      else [b0, b1, ByteChar((v2 % 4) * 64 + v3)]
  }

  /** `atob`: decodes a padded Base64 string back to bytes. */
  function Decode(r: string): string
    requires |r| % 4 == 0
    decreases |r|
  {
    if r == [] then "" else DecodeGroup(r[..4]) + Decode(r[4..])
  }

  /** The three bytes of a group are recovered from its four sextets. */
  lemma GroupArithmetic(b0: nat, b1: nat, b2: nat)
    requires b0 < 256 && b1 < 256 && b2 < 256
    ensures (b0 / 4) * 4 + ((b0 % 4) * 16 + b1 / 16) / 16 == b0
    ensures (((b0 % 4) * 16 + b1 / 16) % 16) * 16 + ((b1 % 16) * 4 + b2 / 64) / 4 == b1
    ensures (((b1 % 16) * 4 + b2 / 64) % 4) * 64 + b2 % 64 == b2
  {
  }

  lemma GroupRoundTrip(b0: nat, b1: nat, b2: nat, n: nat)
    requires b0 < 256 && b1 < 256 && b2 < 256 && 1 <= n <= 3
    ensures DecodeGroup(EncodeGroup(b0, b1, b2, n)) == [ByteChar(b0), ByteChar(b1), ByteChar(b2)][..n]
  {
    GroupArithmetic(b0, b1, b2);
    SextetRoundTrip(b0 / 4);
    SextetRoundTrip((b0 % 4) * 16 + b1 / 16);
    SextetRoundTrip((b1 % 16) * 4 + b2 / 64);
    SextetRoundTrip(b2 % 64);
  }

  /** `atob(btoa(s)) == s`. */
  lemma {:induction false} DecodeEncode(s: string)
    requires IsLatin1(s)
    ensures Decode(Encode(s)) == s
    decreases |s|
  {
    if |s| == 1 {
      GroupRoundTrip(s[0] as int, 0, 0, 1);
      assert Encode(s)[4..] == [];
    } else if |s| == 2 {
      GroupRoundTrip(s[0] as int, s[1] as int, 0, 2);
      assert Encode(s)[4..] == [];
    } else if |s| >= 3 {
      var g := EncodeGroup(s[0] as int, s[1] as int, s[2] as int, 3);
      GroupRoundTrip(s[0] as int, s[1] as int, s[2] as int, 3);
      DecodeEncode(s[3..]);
      assert (g + Encode(s[3..]))[..4] == g;
      assert (g + Encode(s[3..]))[4..] == Encode(s[3..]);
      assert s == s[..3] + s[3..];
    }
  }

  /** `btoa(s)`: `None` when `btoa` would throw (a character above U+00FF). */
  function Btoa(s: string): (r: Option<string>)
    ensures r.Some? <==> IsLatin1(s)
    ensures r.Some? ==> |r.value| % 4 == 0 && Decode(r.value) == s
  {
    if IsLatin1(s) then
      DecodeEncode(s);
      Some(Encode(s))
    else None
  }

  /** Two passwords encode alike only when they are the same password. */
  lemma BtoaInjective(a: string, b: string)
    requires Btoa(a).Some? && Btoa(a) == Btoa(b)
    ensures a == b
  {
    assert Decode(Btoa(a).value) == a;
    assert Decode(Btoa(b).value) == b;
  }
}
