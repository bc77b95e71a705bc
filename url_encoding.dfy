/**
 * The `application/x-www-form-urlencoded` serializer and parser that
 * `URLSearchParams` uses: names and values are written as UTF-8 bytes,
 * ASCII letters, digits and `*-._` stay as they are, a space becomes `+`,
 * and every other byte becomes `%HH`. Pairs are joined by `=` and `&`.
 */
module UrlEncoding {

  type Byte = b: int | 0 <= b < 256

  /** A query name/value pair as `URLSearchParams` holds it. */
  datatype Param = Param(name: string, value: string)

  predicate IsAsciiAlphanumeric(c: char) {
    ('0' <= c <= '9') || ('A' <= c <= 'Z') || ('a' <= c <= 'z')
  }

  /** The characters the serializer leaves as they are. */
  predicate IsUnreserved(c: char) {
    IsAsciiAlphanumeric(c) || c == '*' || c == '-' || c == '.' || c == '_'
  }

  /** The characters the serializer can produce. */
  predicate IsSafe(c: char) {
    IsUnreserved(c) || c == '+' || c == '%'
  }

  /** The UTF-8 encoding of one Unicode scalar value. */
  function Utf8(c: char): (r: seq<Byte>)
    ensures 1 <= |r| <= 4
    ensures |r| == 1 <==> c as int < 0x80
    ensures |r| == 1 ==> r[0] == c as int
    ensures |r| > 1 ==> r[0] >= 0xC0 && forall i | 1 <= i < |r| :: 0x80 <= r[i] < 0xC0
  {
    var cp := c as int;
    if cp < 0x80 then [cp]
    else if cp < 0x800 then [0xC0 + cp / 64, 0x80 + cp % 64]
    else if cp < 0x1_0000 then [0xE0 + cp / 4096, 0x80 + (cp / 64) % 64, 0x80 + cp % 64]
    else [0xF0 + cp / 262144, 0x80 + (cp / 4096) % 64, 0x80 + (cp / 64) % 64, 0x80 + cp % 64]
  }

  /** The UTF-8 encoding of a whole string. */
  function Utf8String(s: string): (r: seq<Byte>)
    ensures |r| >= |s|
  {
    if s == [] then [] else Utf8(s[0]) + Utf8String(s[1..])
  }

  /** The upper-case hexadecimal digit for `d`. */
  function HexDigit(d: int): (c: char)
    requires 0 <= d < 16
    ensures IsAsciiAlphanumeric(c) && IsHex(c) && HexValue(c) == d
  {
    if d < 10 then ('0' as int + d) as char else ('A' as int + d - 10) as char
  }

  predicate IsHex(c: char) {
    ('0' <= c <= '9') || ('A' <= c <= 'F') || ('a' <= c <= 'f')
  }

  function HexValue(c: char): (d: int)
    requires IsHex(c)
    ensures 0 <= d < 16
  {
    if '0' <= c <= '9' then c as int - '0' as int
    else if 'A' <= c <= 'F' then c as int - 'A' as int + 10
    else c as int - 'a' as int + 10
  }

  /** `%HH` for each byte. */
  function PercentBytes(bs: seq<Byte>): (r: string)
    ensures |r| == 3 * |bs|
    ensures forall i | 0 <= i < |r| :: IsSafe(r[i])
  {
    if bs == [] then []
    else ['%', HexDigit(bs[0] / 16), HexDigit(bs[0] % 16)] + PercentBytes(bs[1..])
  }

  /** The serialization of one character. */
  function EncodeChar(c: char): (r: string)
    ensures IsUnreserved(c) ==> r == [c]
    ensures c == ' ' ==> r == "+"
    ensures !IsUnreserved(c) && c != ' ' ==> r == PercentBytes(Utf8(c))
    ensures forall i | 0 <= i < |r| :: IsSafe(r[i])
  {
    if IsUnreserved(c) then [c]
    else if c == ' ' then "+"
    else PercentBytes(Utf8(c))
  }

  /** The serialization of a name or a value. */
  function Encode(s: string): (r: string)
    ensures forall i | 0 <= i < |r| :: IsSafe(r[i])
    ensures (forall i | 0 <= i < |s| :: IsUnreserved(s[i])) ==> r == s
  {
    if s == [] then [] else EncodeChar(s[0]) + Encode(s[1..])
  }

  /** One serialized pair: `name=value`, both encoded. */
  function PairText(p: Param): string {
    Encode(p.name) + "=" + Encode(p.value)
  }

  /** `URLSearchParams.toString()`: `name=value` pairs joined by `&`. */
  function Serialize(ps: seq<Param>): (r: string)
    ensures r == [] <==> ps == []
  {
    if ps == [] then []
    else if |ps| == 1 then PairText(ps[0])
    else PairText(ps[0]) + "&" + Serialize(ps[1..])
  }

  /**
   * The parser's percent-decoding of one name or value: `+` is a space,
   * `%HH` is the byte it names, and any other character stands for its
   * own UTF-8 bytes.
   */
  function Decode(s: string): seq<Byte> {
    if s == [] then []
    else if s[0] == '+' then [0x20] + Decode(s[1..])
    else if s[0] == '%' && |s| >= 3 && IsHex(s[1]) && IsHex(s[2]) then
      [HexValue(s[1]) * 16 + HexValue(s[2])] + Decode(s[3..])
    else Utf8(s[0]) + Decode(s[1..])
  }

  /** The pieces of `s` between occurrences of `sep`. */
  function SplitOn(s: string, sep: char): (r: seq<string>)
    ensures |r| >= 1
  {
    if s == [] then [[]]
    else
      var rest := SplitOn(s[1..], sep);
      if s[0] == sep then [[]] + rest else [[s[0]] + rest[0]] + rest[1..]
  }

  /** `s` cut at its first `sep`; without one, the value is empty. */
  function BreakAt(s: string, sep: char): (string, string) {
    if s == [] then ([], [])
    else if s[0] == sep then ([], s[1..])
    else
      var (a, b) := BreakAt(s[1..], sep);
      ([s[0]] + a, b)
  }

  /** A decoded pair, as bytes. */
  datatype BytePair = BytePair(name: seq<Byte>, value: seq<Byte>)

  /** The form-urlencoded parser: split on `&`, cut each piece at its first `=`, decode both halves. */
  function Parse(q: string): seq<BytePair> {
    if q == [] then []
    else
      var pieces := SplitOn(q, '&');
      seq(|pieces|, i requires 0 <= i < |pieces| =>
        var (n, v) := BreakAt(pieces[i], '='); BytePair(Decode(n), Decode(v)))
  }

  /** What parsing gives back for each pair: the UTF-8 bytes of its name and value. */
  function AsBytes(ps: seq<Param>): (r: seq<BytePair>)
    ensures |r| == |ps|
    ensures forall i | 0 <= i < |ps| :: r[i] == BytePair(Utf8String(ps[i].name), Utf8String(ps[i].value))
  {
    seq(|ps|, i requires 0 <= i < |ps| => BytePair(Utf8String(ps[i].name), Utf8String(ps[i].value)))
  }

  lemma {:induction false} DecodePercentBytes(bs: seq<Byte>, rest: string)
    ensures Decode(PercentBytes(bs) + rest) == bs + Decode(rest)
  {
    if bs != [] {
      var b, tail := bs[0], PercentBytes(bs[1..]) + rest;
      calc {
        Decode(PercentBytes(bs) + rest);
        { assert PercentBytes(bs) + rest == ['%', HexDigit(b / 16), HexDigit(b % 16)] + tail; }
        Decode(['%', HexDigit(b / 16), HexDigit(b % 16)] + tail);
        { DecodeTriple(b, tail); }
        [b] + Decode(tail);
        { DecodePercentBytes(bs[1..], rest); }
        [b] + (bs[1..] + Decode(rest));
        { assert [b] + bs[1..] == bs; }
        bs + Decode(rest);
      }
    } else {
      assert PercentBytes(bs) + rest == rest;
    }
  }

  /** One `%HH` triple decodes to its byte. */
  lemma DecodeTriple(b: Byte, tail: string)
    ensures Decode(['%', HexDigit(b / 16), HexDigit(b % 16)] + tail) == [b] + Decode(tail)
  {
    var s := ['%', HexDigit(b / 16), HexDigit(b % 16)] + tail;
    assert s[3..] == tail;
    assert s[0] == '%' && IsHex(s[1]) && IsHex(s[2]);
    assert HexValue(s[1]) * 16 + HexValue(s[2]) == b;
  }

  lemma DecodeEncodeChar(c: char, rest: string)
    ensures Decode(EncodeChar(c) + rest) == Utf8(c) + Decode(rest)
  {
    if IsUnreserved(c) {
      assert (EncodeChar(c) + rest)[1..] == rest;
    } else if c == ' ' {
      assert (EncodeChar(c) + rest)[1..] == rest;
    } else {
      DecodePercentBytes(Utf8(c), rest);
    }
  }

  /** Parsing undoes serialization of a name or value, down to its UTF-8 bytes. */
  lemma {:induction false} DecodeEncode(s: string)
    ensures Decode(Encode(s)) == Utf8String(s)
  {
    if s != [] {
      DecodeEncodeChar(s[0], Encode(s[1..]));
      DecodeEncode(s[1..]);
    }
  }

  lemma {:induction false} SplitOnPlain(a: string, sep: char)
    requires forall i | 0 <= i < |a| :: a[i] != sep
    ensures SplitOn(a, sep) == [a]
  {
    if a != [] {
      SplitOnPlain(a[1..], sep);
      assert [a[0]] + a[1..] == a;
    }
  }

  lemma {:induction false} SplitOnFirst(a: string, sep: char, b: string)
    requires forall i | 0 <= i < |a| :: a[i] != sep
    ensures SplitOn(a + [sep] + b, sep) == [a] + SplitOn(b, sep)
  {
    if a == [] {
      assert (a + [sep] + b)[1..] == b;
    } else {
      assert (a + [sep] + b)[1..] == a[1..] + [sep] + b;
      SplitOnFirst(a[1..], sep, b);
      assert [a[0]] + a[1..] == a;
    }
  }

  lemma {:induction false} BreakAtFirst(a: string, sep: char, b: string)
    requires forall i | 0 <= i < |a| :: a[i] != sep
    ensures BreakAt(a + [sep] + b, sep) == (a, b)
  {
    if a == [] {
      assert (a + [sep] + b)[1..] == b;
    } else {
      assert (a + [sep] + b)[1..] == a[1..] + [sep] + b;
      BreakAtFirst(a[1..], sep, b);
      assert [a[0]] + a[1..] == a;
    }
  }

  /** The serialized pairs of `ps`, one piece each, in order. */
  function Pieces(ps: seq<Param>): (r: seq<string>)
    ensures |r| == |ps|
    ensures forall i | 0 <= i < |ps| :: r[i] == PairText(ps[i])
  {
    if ps == [] then [] else [PairText(ps[0])] + Pieces(ps[1..])
  }

  /** Splitting a serialization on `&` gives back one piece per pair. */
  lemma {:induction false} SplitSerialized(ps: seq<Param>)
    requires ps != []
    ensures SplitOn(Serialize(ps), '&') == Pieces(ps)
  {
    PairHasNoAmpersand(ps[0]);
    if |ps| == 1 {
      SplitOnPlain(PairText(ps[0]), '&');
    } else {
      SplitSerialized(ps[1..]);
      SplitAfterPiece(PairText(ps[0]), Serialize(ps[1..]));
    }
  }

  /** A piece without `&`, then `&`, then more: the piece comes first. */
  lemma SplitAfterPiece(piece: string, rest: string)
    requires forall i | 0 <= i < |piece| :: piece[i] != '&'
    ensures SplitOn(piece + "&" + rest, '&') == [piece] + SplitOn(rest, '&')
  {
    SplitOnFirst(piece, '&', rest);
    assert piece + "&" + rest == piece + ['&'] + rest;
  }

  /** A serialized pair holds no `&`. */
  lemma PairHasNoAmpersand(p: Param)
    ensures forall i | 0 <= i < |PairText(p)| :: PairText(p)[i] != '&'
  {
    SafePairHasNoAmpersand(Encode(p.name), Encode(p.value));
  }

  /** A pair of safe strings joined by `=` holds no `&`. */
  lemma SafePairHasNoAmpersand(n: string, v: string)
    requires forall i | 0 <= i < |n| :: IsSafe(n[i])
    requires forall i | 0 <= i < |v| :: IsSafe(v[i])
    ensures forall i | 0 <= i < |n + "=" + v| :: (n + "=" + v)[i] != '&'
  {
    forall i | 0 <= i < |n + "=" + v| ensures (n + "=" + v)[i] != '&' {
      if i < |n| {
        assert (n + "=" + v)[i] == n[i];
      } else if i > |n| {
        assert (n + "=" + v)[i] == v[i - |n| - 1];
      }
    }
  }

  /** One serialized pair, cut at its `=` and decoded, gives the pair's bytes. */
  lemma ParsePair(p: Param)
    ensures var (n, v) := BreakAt(PairText(p), '=');
      BytePair(Decode(n), Decode(v)) == BytePair(Utf8String(p.name), Utf8String(p.value))
  {
    BreakAtFirst(Encode(p.name), '=', Encode(p.value));
    assert PairText(p) == Encode(p.name) + ['='] + Encode(p.value);
    DecodeEncode(p.name);
    DecodeEncode(p.value);
  }

  /**
   * Round trip: parsing the serialized query gives back every pair, in
   * order, as the UTF-8 bytes of its name and value.
   */
  lemma ParseSerialize(ps: seq<Param>)
    ensures Parse(Serialize(ps)) == AsBytes(ps)
  {
    if ps != [] {
      SplitSerialized(ps);
      forall i | 0 <= i < |ps|
        ensures Parse(Serialize(ps))[i] == AsBytes(ps)[i]
      {
        ParsePair(ps[i]);
      }
    }
  }
}
