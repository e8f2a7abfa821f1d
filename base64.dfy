/** Base64 as `btoa` and `atob` do it: the encoding of section 4 of RFC 4648
    (alphabet A-Z a-z 0-9 + /, padding with '=') and the "forgiving-base64
    decode" of the WHATWG Infra standard that `atob` runs. */
module Base64 {

  import opened Wrappers

  newtype byte = x: int | 0 <= x < 256

  predicate IsSextet(v: int) { 0 <= v < 64 }

  predicate AllSextets(v: seq<int>) {
    forall i :: 0 <= i < |v| ==> IsSextet(v[i])
  }

  /** Table 1 of RFC 4648: value 0..25 is 'A'..'Z', 26..51 'a'..'z',
      52..61 '0'..'9', 62 '+', 63 '/'. */
  function EncodeChar(v: int): (c: char)
    requires IsSextet(v)
  {
    if v < 26 then ('A' as int + v) as char
    else if v < 52 then ('a' as int + v - 26) as char
    else if v < 62 then ('0' as int + v - 52) as char
    else if v == 62 then '+'
    else '/'
  }

  /** The inverse of the table; `None` for a character outside the alphabet. */
  function DecodeChar(c: char): (r: Option<int>)
    ensures r.Some? ==> IsSextet(r.value) && EncodeChar(r.value) == c
  {
    if 'A' <= c <= 'Z' then Some(c as int - 'A' as int)
    else if 'a' <= c <= 'z' then Some(c as int - 'a' as int + 26)
    else if '0' <= c <= '9' then Some(c as int - '0' as int + 52)
    else if c == '+' then Some(62)
    else if c == '/' then Some(63)
    else None
  }

  lemma DecodeEncodeChar(v: int)
    requires IsSextet(v)
    ensures DecodeChar(EncodeChar(v)) == Some(v)
  {
  }

  /** Bytes from up to four 6-bit values: two give one byte, three give two,
      four give three; the low bits left over are dropped. */
  function Join(v: seq<int>): (r: seq<byte>)
    requires 2 <= |v| <= 4 && AllSextets(v)
    ensures |r| == |v| - 1
  {
    var x0 := (v[0] * 4 + v[1] / 16) as byte;
    if |v| == 2 then [x0]
    else
      var x1 := ((v[1] % 16) * 16 + v[2] / 4) as byte;
      if |v| == 3 then [x0, x1]
      else [x0, x1, ((v[2] % 4) * 64 + v[3]) as byte]
  }

  /** Up to three bytes as 6-bit values, most significant bits first,
      zero-filled on the right: one byte gives two values, two give three,
      three give four. */
  function Split(b: seq<byte>): (r: seq<int>)
    requires 1 <= |b| <= 3
    ensures |r| == |b| + 1 && AllSextets(r)
    ensures Join(r) == b
  {
    var b0 := b[0] as int;
    var b1 := if |b| >= 2 then b[1] as int else 0;
    var b2 := if |b| == 3 then b[2] as int else 0;
    GroupRoundTrip(b0, b1, b2);
    var r := [b0 / 4, (b0 % 4) * 16 + b1 / 16, (b1 % 16) * 4 + b2 / 64, b2 % 64];
    r[..|b| + 1]
  }

  /** The number of 6-bit groups of `n` bytes: four per whole 3-byte group,
      and one more than the bytes of a shorter final group. */
  function SextetCount(n: nat): nat {
    if n == 0 then 0 else if n < 3 then n + 1 else 4 + SextetCount(n - 3)
  }

  /** The 6-bit groups of `b` without padding (section 4 of RFC 4648). */
  function Sextets(b: seq<byte>): (r: seq<int>)
    ensures |r| == SextetCount(|b|)
    ensures AllSextets(r)
  {
    if |b| == 0 then []
    else if |b| < 3 then Split(b)
    else Split(b[..3]) + Sextets(b[3..])
  }

  function Padding(n: nat): string {
    if n % 3 == 1 then "==" else if n % 3 == 2 then "=" else ""
  }

  function EncodeChars(v: seq<int>): (s: string)
    requires AllSextets(v)
    ensures |s| == |v|
    ensures forall i :: 0 <= i < |v| ==> s[i] == EncodeChar(v[i])
  {
    seq(|v|, i requires 0 <= i < |v| => EncodeChar(v[i]))
  }

  /** `btoa` over a byte string: RFC 4648 section 4 with padding, a whole
      number of 4-character groups. */
  function Encode(b: seq<byte>): (s: string)
    ensures |s| % 4 == 0
  {
    EncodedLength(|b|);
    EncodeChars(Sextets(b)) + Padding(|b|)
  }

  /** The sextets and the padding of `n` bytes fill whole 4-character groups. */
  lemma {:induction false} EncodedLength(n: nat)
    ensures (SextetCount(n) + |Padding(n)|) % 4 == 0
  {
    if n >= 3 {
      EncodedLength(n - 3);
      assert Padding(n) == Padding(n - 3);
      assert SextetCount(n) + |Padding(n)| == 4 + SextetCount(n - 3) + |Padding(n - 3)|;
    }
  }

  /** Bytes from a padding-free sequence of 6-bit values (the decode step of
      forgiving-base64). */
  function DecodeSextets(v: seq<int>): (r: seq<byte>)
    requires AllSextets(v) && |v| % 4 != 1
    ensures |r| == 3 * (|v| / 4) + (if |v| % 4 == 0 then 0 else |v| % 4 - 1)
  {
    if |v| == 0 then []
    else if |v| < 4 then Join(v)
    else Join(v[..4]) + DecodeSextets(v[4..])
  }

  predicate IsAsciiSpace(c: char) {
    c == '\t' || c == '\n' || c == '\U{C}' || c == '\r' || c == ' '
  }

  function RemoveAsciiSpace(s: string): (r: string)
    ensures |r| <= |s|
  {
    if s == [] then []
    else if IsAsciiSpace(s[0]) then RemoveAsciiSpace(s[1..])
    else [s[0]] + RemoveAsciiSpace(s[1..])
  }

  /** Sextet values of every character, or `None` if one is outside the alphabet. */
  function DecodeChars(s: string): (r: Option<seq<int>>)
    ensures r.Some? ==> |r.value| == |s| && AllSextets(r.value)
  {
    if s == [] then Some([])
    else match (DecodeChar(s[0]), DecodeChars(s[1..]))
      case (Some(v), Some(vs)) => Some([v] + vs)
      case _ => None
  }

  /** When the length is a multiple of four, one or two trailing '=' removed. */
  function StripPadding(d: string): (r: string)
    ensures |r| <= |d|
  {
    if |d| % 4 != 0 then d
    else if |d| >= 2 && d[|d| - 2..] == "==" then d[..|d| - 2]
    else if |d| >= 1 && d[|d| - 1] == '=' then d[..|d| - 1]
    else d
  }

  /** `atob`: white space removed; when the length is a multiple of four, one
      or two trailing '=' removed; then a remainder of one, or any character
      outside the alphabet, is an error (`InvalidCharacterError`). */
  function Decode(s: string): (r: Option<seq<byte>>)
    ensures r.Some? ==> 4 * |r.value| <= 3 * |s|
  {
    var d' := StripPadding(RemoveAsciiSpace(s));
    if |d'| % 4 == 1 then None
    else match DecodeChars(d')
      case None => None
      case Some(v) => Some(DecodeSextets(v))
  }

  /** One 3-byte group survives the trip through its four 6-bit values. */
  lemma GroupRoundTrip(b0: int, b1: int, b2: int)
    requires 0 <= b0 < 256 && 0 <= b1 < 256 && 0 <= b2 < 256
    ensures (b0 / 4) * 4 + ((b0 % 4) * 16 + b1 / 16) / 16 == b0
    ensures (((b0 % 4) * 16 + b1 / 16) % 16) * 16 + ((b1 % 16) * 4 + b2 / 64) / 4 == b1
    ensures (((b1 % 16) * 4 + b2 / 64) % 4) * 64 + b2 % 64 == b2
  {
  }

  lemma {:induction false} SextetCountNotOneMod4(n: nat)
    ensures SextetCount(n) % 4 != 1
  {
    if n >= 3 {
      var x := SextetCount(n - 3);
      SextetCountNotOneMod4(n - 3);
      assert SextetCount(n) == x + 4;
      assert (x + 4) % 4 == x % 4;
    }
  }

  lemma {:induction false} SextetsRoundTrip(b: seq<byte>)
    ensures |Sextets(b)| % 4 != 1
    ensures DecodeSextets(Sextets(b)) == b
    decreases |b|
  {
    SextetCountNotOneMod4(|b|);
    if |b| >= 3 {
      var v := Sextets(b);
      var w := Sextets(b[3..]);
      assert v == Split(b[..3]) + w;
      SextetsRoundTrip(b[3..]);
      assert v[..4] == Split(b[..3]) && v[4..] == w;
      assert b == b[..3] + b[3..];
    }
  }

  lemma {:induction false} DecodeCharsOfEncoded(v: seq<int>)
    requires AllSextets(v)
    ensures DecodeChars(EncodeChars(v)) == Some(v)
    decreases |v|
  {
    if v != [] {
      var s := EncodeChars(v);
      assert s[1..] == EncodeChars(v[1..]);
      DecodeCharsOfEncoded(v[1..]);
      DecodeEncodeChar(v[0]);
      assert v == [v[0]] + v[1..];
    }
  }

  lemma {:induction false} NoSpaceUnchanged(s: string)
    requires forall i :: 0 <= i < |s| ==> !IsAsciiSpace(s[i])
    ensures RemoveAsciiSpace(s) == s
    decreases |s|
  {
    if s != [] {
      NoSpaceUnchanged(s[1..]);
      assert s == [s[0]] + s[1..];
    }
  }

  lemma EncodedHasNoSpace(b: seq<byte>)
    ensures RemoveAsciiSpace(Encode(b)) == Encode(b)
  {
    var v := Sextets(b);
    var s := Encode(b);
    forall i | 0 <= i < |s| ensures !IsAsciiSpace(s[i]) {
      if i < |v| { assert s[i] == EncodeChar(v[i]); }
    }
    NoSpaceUnchanged(s);
  }

  /** Removing the padding of a whole number of 4-character groups gives
      back a body that does not itself end in '='. */
  lemma StripPaddingOf(body: string, pad: string)
    requires pad == "" || pad == "=" || pad == "=="
    requires |body + pad| % 4 == 0
    requires |body| > 0 ==> body[|body| - 1] != '='
    requires pad != "" ==> |body| > 0
    ensures StripPadding(body + pad) == body
  {
    var d := body + pad;
    if pad == "==" {
      assert d[|d| - 2..] == "==";
      assert d[..|d| - 2] == body;
    } else if pad == "=" {
      assert d[|d| - 2] == body[|body| - 1];
      assert d[..|d| - 1] == body;
    } else {
      assert d == body;
    }
  }

  lemma PaddingStripped(b: seq<byte>)
    ensures StripPadding(Encode(b)) == EncodeChars(Sextets(b))
  {
    var v := Sextets(b);
    var body := EncodeChars(v);
    var s := Encode(b);
    var pad := Padding(|b|);
    assert body + pad == Encode(b);
    if pad != "" {
      assert |b| != 0;
      assert SextetCount(|b|) > 0;
    }
    if |body| > 0 {
      assert body[|body| - 1] == EncodeChar(v[|v| - 1]);
    }
    StripPaddingOf(body, pad);
  }

  /** What `atob` reads back is exactly what `btoa` was given. */
  lemma RoundTrip(b: seq<byte>)
    ensures Decode(Encode(b)) == Some(b)
  {
    EncodedHasNoSpace(b);
    PaddingStripped(b);
    DecodeCharsOfEncoded(Sextets(b));
    SextetsRoundTrip(b);
  }
}
