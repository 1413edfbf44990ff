/** UTF-8 (RFC 3629), as `str.encode("utf-8")` and its strict decoder. */
module Utf8 {
  import opened Prelude

  function EncodeChar(c: char): (b: seq<Byte>)
    ensures 1 <= |b| <= 4
  {
    var p := c as int;
    if p < 0x80 then [p]
    else if p < 0x800 then [0xC0 + p / 0x40, 0x80 + p % 0x40]
    else if p < 0x1_0000 then [0xE0 + p / 0x1000, 0x80 + p / 0x40 % 0x40, 0x80 + p % 0x40]
    else [0xF0 + p / 0x4_0000, 0x80 + p / 0x1000 % 0x40, 0x80 + p / 0x40 % 0x40, 0x80 + p % 0x40]
  }

  function Encode(s: string): seq<Byte> {
    if s == "" then [] else EncodeChar(s[0]) + Encode(s[1..])
  }

  predicate Continues(b: seq<Byte>, n: nat) {
    n < |b| && forall i :: 1 <= i <= n ==> 0x80 <= b[i] < 0xC0
  }

  predicate Scalar(p: int) {
    0 <= p < 0xD800 || 0xE000 <= p < 0x11_0000
  }

  /** The first character and how many bytes it took: shortest form, no surrogates. */
  function DecodeOne(b: seq<Byte>): Option<(char, nat)>
    requires b != []
  {
    var p: int := b[0];
    if p < 0x80 then Some((p as char, 1))
    else if 0xC0 <= p < 0xE0 && Continues(b, 1) then
      Shortest((p - 0xC0) * 0x40 + Low(b[1]), 0x80, 2)
    else if 0xE0 <= p < 0xF0 && Continues(b, 2) then
      Shortest((p - 0xE0) * 0x1000 + Low(b[1]) * 0x40 + Low(b[2]), 0x800, 3)
    else if 0xF0 <= p && Continues(b, 3) then
      Shortest((p - 0xF0) * 0x4_0000 + Low(b[1]) * 0x1000 + Low(b[2]) * 0x40 + Low(b[3]), 0x1_0000, 4)
    else None
  }

  /** The six bits a continuation byte carries. */
  function Low(b: Byte): int {
    b as int - 0x80
  }

  function Shortest(p: int, least: int, n: nat): Option<(char, nat)> {
    if p >= least && Scalar(p) then Some((p as char, n)) else None
  }

  function Decode(b: seq<Byte>): Option<string> {
    if b == [] then Some("")
    else
      match DecodeOne(b)
      case None => None
      case Some(one) =>
        if one.1 == 0 || one.1 > |b| then None
        else
          match Decode(b[one.1..])
          case None => None
          case Some(rest) => Some([one.0] + rest)
  }

  lemma Digits(p: int)
    requires 0 <= p < 0x11_0000
    ensures p / 0x40 * 0x40 + p % 0x40 == p
    ensures p / 0x1000 * 0x1000 + p / 0x40 % 0x40 * 0x40 + p % 0x40 == p
    ensures p / 0x4_0000 * 0x4_0000 + p / 0x1000 % 0x40 * 0x1000 + p / 0x40 % 0x40 * 0x40 + p % 0x40 == p
  {
    assert p / 0x40 / 0x40 == p / 0x1000;
    assert p / 0x1000 / 0x40 == p / 0x4_0000;
  }

  lemma DecodeShort(c: char, b: seq<Byte>)
    requires c as int < 0x800
    ensures DecodeOne(EncodeChar(c) + b) == Some((c, |EncodeChar(c)|))
  {
    Digits(c as int);
  }

  lemma DecodeThree(c: char, b: seq<Byte>)
    requires 0x800 <= c as int < 0x1_0000
    ensures DecodeOne(EncodeChar(c) + b) == Some((c, |EncodeChar(c)|))
  {
    var p, s := c as int, EncodeChar(c) + b;
    Digits(p);
    assert Low(s[1]) == p / 0x40 % 0x40 && Low(s[2]) == p % 0x40 && s[0] == 0xE0 + p / 0x1000;
    assert Continues(s, 2);
    hide EncodeChar;
  }

  lemma DecodeFour(c: char, b: seq<Byte>)
    requires 0x1_0000 <= c as int
    ensures DecodeOne(EncodeChar(c) + b) == Some((c, |EncodeChar(c)|))
  {
    var p, s := c as int, EncodeChar(c) + b;
    Digits(p);
    assert Low(s[1]) == p / 0x1000 % 0x40 && Low(s[2]) == p / 0x40 % 0x40 && Low(s[3]) == p % 0x40;
    assert s[0] == 0xF0 + p / 0x4_0000;
    assert Continues(s, 3);
    assert |EncodeChar(c)| == 4;
    hide EncodeChar;
  }

  lemma DecodeChar(c: char, b: seq<Byte>)
    ensures DecodeOne(EncodeChar(c) + b) == Some((c, |EncodeChar(c)|))
  {
    hide DecodeOne;
    hide EncodeChar;
    if c as int < 0x800 {
      DecodeShort(c, b);
    } else if c as int < 0x1_0000 {
      DecodeThree(c, b);
    } else {
      DecodeFour(c, b);
    }
  }

  lemma {:induction false} RoundTrip(s: string)
    ensures Decode(Encode(s)) == Some(s)
  {
    if s != "" {
      DecodeChar(s[0], Encode(s[1..]));
      RoundTrip(s[1..]);
      assert Encode(s)[|EncodeChar(s[0])|..] == Encode(s[1..]);
      assert s == [s[0]] + s[1..];
    }
  }
}
