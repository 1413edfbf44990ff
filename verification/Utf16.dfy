/** UTF-16BE (RFC 2781 section 2), as `str.encode("utf-16-be")` and its strict decoder.

    A Dafny `char` is a Unicode scalar value, which is exactly what the encoder accepts.
  */
module Utf16 {
  import opened Prelude

  /** A 16-bit code unit, most significant byte first. */
  function Unit(u: int): (b: seq<Byte>)
    requires 0 <= u < 0x1_0000
  {
    [u / 256, u % 256]
  }

  function EncodeChar(c: char): (b: seq<Byte>)
    ensures |b| == 2 || |b| == 4
  {
    var p := c as int;
    if p < 0x1_0000 then
      Unit(p)
    else
      var v := p - 0x1_0000;
      Unit(0xD800 + v / 0x400) + Unit(0xDC00 + v % 0x400)
  }

  function Encode(s: string): (b: seq<Byte>)
    ensures s != "" ==> |b| >= 2
  {
    if s == "" then [] else EncodeChar(s[0]) + Encode(s[1..])
  }

  /** The strict decoder: a truncated unit or an unpaired surrogate is an error. */
  function Decode(b: seq<Byte>): Option<string> {
    if b == [] then
      Some("")
    else if |b| < 2 then
      None
    else
      var u: int := b[0] as int * 256 + b[1];
      if 0xDC00 <= u < 0xE000 then
        None
      else if 0xD800 <= u < 0xDC00 then
        if |b| < 4 then
          None
        else
          var l: int := b[2] as int * 256 + b[3];
          if 0xDC00 <= l < 0xE000 then
            Prepend((0x1_0000 + (u - 0xD800) * 0x400 + (l - 0xDC00)) as char, Decode(b[4..]))
          else
            None
      else
        Prepend(u as char, Decode(b[2..]))
  }

  function Prepend(c: char, rest: Option<string>): Option<string> {
    match rest
    case None => None
    case Some(s) => Some([c] + s)
  }

  lemma DecodeChar(c: char, b: seq<Byte>)
    ensures Decode(EncodeChar(c) + b) == Prepend(c, Decode(b))
  {
    var e := EncodeChar(c);
    assert (e + b)[|e|..] == b;
  }

  lemma {:induction false} RoundTrip(s: string)
    ensures Decode(Encode(s)) == Some(s)
  {
    if s != "" {
      DecodeChar(s[0], Encode(s[1..]));
      RoundTrip(s[1..]);
      assert s == [s[0]] + s[1..];
    }
  }
}
