/** Base64 (RFC 4648 section 4), with its padding, down to the bit groups. */
module Base64 {
  import opened Prelude

  type Sextet = n: int | 0 <= n < 64

  /** The standard alphabet. */
  function Symbol(n: Sextet): (c: char) {
    if n < 26 then ('A' as int + n) as char
    else if n < 52 then ('a' as int + (n - 26)) as char
    else if n < 62 then ('0' as int + (n - 52)) as char
    else if n == 62 then '+'
    else '/'
  }

  function ValueOf(c: char): Option<Sextet> {
    if 'A' <= c <= 'Z' then Some(c as int - 'A' as int)
    else if 'a' <= c <= 'z' then Some(c as int - 'a' as int + 26)
    else if '0' <= c <= '9' then Some(c as int - '0' as int + 52)
    else if c == '+' then Some(62)
    else if c == '/' then Some(63)
    else None
  }

  lemma SymbolValue(n: Sextet)
    ensures ValueOf(Symbol(n)) == Some(n)
    ensures Symbol(n) != '=' && Symbol(n) != '-' && Symbol(n) != ',' && Symbol(n) != '&'
    ensures 0x20 <= Symbol(n) as int <= 0x7E
  {
  }

  /** The 6-bit groups of a byte string, the last one completed with zero bits. */
  function Sextets(b: seq<Byte>): (s: seq<Sextet>)
    ensures |s| == (|b| * 4 + 2) / 3
  {
    if |b| == 0 then []
    else if |b| == 1 then [b[0] / 4, b[0] % 4 * 16]
    else if |b| == 2 then [b[0] / 4, b[0] % 4 * 16 + b[1] / 16, b[1] % 16 * 4]
    else [b[0] / 4, b[0] % 4 * 16 + b[1] / 16, b[1] % 16 * 4 + b[2] / 64, b[2] % 64] + Sextets(b[3..])
  }

  function Symbols(s: seq<Sextet>): (t: string)
    ensures |t| == |s|
  {
    seq(|s|, i requires 0 <= i < |s| => Symbol(s[i]))
  }

  /** How many `=` complete a text of `n` symbols to a whole quantum: `-n % 4`. */
  function PadCount(n: nat): (k: nat)
    ensures k < 4 && (n + k) % 4 == 0
  {
    (4 - n % 4) % 4
  }

  function Pads(k: nat): (t: string)
    ensures |t| == k
    ensures forall i :: 0 <= i < k ==> t[i] == '='
  {
    seq(k, i => '=')
  }

  /** `base64.b64encode`. */
  function Encode(b: seq<Byte>): (t: string)
    ensures |t| % 4 == 0
  {
    var t := Symbols(Sextets(b));
    t + Pads(PadCount(|t|))
  }

  /** The bytes held by whole 8-bit groups of the sextets; leftover bits are dropped. */
  function Bytes(s: seq<Sextet>): (b: seq<Byte>) {
    if |s| < 2 then []
    else
      var b0: Byte := s[0] as int * 4 + s[1] / 16;
      if |s| == 2 then [b0] else
      var b1: Byte := s[1] as int % 16 * 16 + s[2] / 4;
      if |s| == 3 then [b0, b1] else
      var b2: Byte := s[2] as int % 4 * 64 + s[3];
      [b0, b1, b2] + Bytes(s[4..])
  }

  function Values(t: string): Option<seq<Sextet>> {
    if t == "" then Some([])
    else
      match ValueOf(t[0])
      case None => None
      case Some(v) =>
        match Values(t[1..])
        case None => None
        case Some(rest) => Some([v] + rest)
  }

  /** `str.rstrip("=")`. */
  function StripPads(t: string): (r: string)
    ensures r <= t
    ensures r != "" ==> r[|r| - 1] != '='
  {
    if t != "" && t[|t| - 1] == '=' then StripPads(t[..|t| - 1]) else t
  }

  /** Padded text made of alphabet symbols and the right number of `=`. */
  predicate WellFormed(t: string) {
    var body := StripPads(t);
    && Values(body).Some?
    && |body| % 4 != 1
    && t == body + Pads(PadCount(|body|))
  }

  /** `base64.b64decode` on well-formed text. */
  function Decode(t: string): (b: seq<Byte>)
    requires WellFormed(t)
  {
    Bytes(Values(StripPads(t)).value)
  }

  // --- the groups are the ones RFC 4648 describes -----------------------------

  /** Element `i`, or zero past the end: the zero bits "added on the right". */
  function At(x: seq<int>, i: nat): int {
    if i < |x| then x[i] else 0
  }

  /** The input read as 24-bit groups, three bytes each, the last one zero-filled. */
  function ByteGroups(b: seq<Byte>): seq<int>
    decreases |b|
  {
    if b == [] then
      []
    else
      var group := (At(b, 0) * 0x100 + At(b, 1)) * 0x100 + At(b, 2);
      [group] + ByteGroups(if |b| < 3 then [] else b[3..])
  }

  /** The output read as 24-bit groups, four sextets each, the last one zero-filled. */
  function SextetGroups(s: seq<Sextet>): seq<int>
    decreases |s|
  {
    if s == [] then
      []
    else
      var group := ((At(s, 0) * 0x40 + At(s, 1)) * 0x40 + At(s, 2)) * 0x40 + At(s, 3);
      [group] + SextetGroups(if |s| < 4 then [] else s[4..])
  }

  lemma OneGroup(a: Byte, b: Byte, c: Byte)
    ensures ((a / 4 * 0x40 + (a % 4 * 16 + b / 16)) * 0x40 + (b % 16 * 4 + c / 64)) * 0x40 + c % 64
         == (a * 0x100 + b) * 0x100 + c
  {
  }

  /** Section 4 of RFC 4648: the sextets spell the same 24-bit groups as the bytes. */
  lemma {:induction false} SameGroups(b: seq<Byte>)
    ensures SextetGroups(Sextets(b)) == ByteGroups(b)
  {
    if b != [] {
      OneGroup(b[0], if |b| < 2 then 0 else b[1], if |b| < 3 then 0 else b[2]);
      if |b| >= 3 {
        SameGroups(b[3..]);
        assert Sextets(b)[4..] == Sextets(b[3..]);
      }
    }
  }

  // --- decoding ---------------------------------------------------------------

  /** Four sextets hold the three bytes they were cut from. */
  lemma QuantumRegroups(b0: Byte, b1: Byte, b2: Byte)
    ensures b0 / 4 * 4 + (b0 % 4 * 16 + b1 / 16) / 16 == b0
    ensures (b0 % 4 * 16 + b1 / 16) % 16 * 16 + (b1 % 16 * 4 + b2 / 64) / 4 == b1
    ensures (b1 % 16 * 4 + b2 / 64) % 4 * 64 + b2 % 64 == b2
  {
  }

  lemma SextetsShort(b: seq<Byte>)
    ensures |b| == 1 ==> Sextets(b) == [b[0] / 4, b[0] % 4 * 16]
    ensures |b| == 2 ==> Sextets(b) == [b[0] / 4, b[0] % 4 * 16 + b[1] / 16, b[1] % 16 * 4]
  {
  }

  lemma BytesShort(s: seq<Sextet>)
    ensures |s| == 2 ==> |Bytes(s)| == 1 && Bytes(s)[0] == s[0] as int * 4 + s[1] / 16
    ensures |s| == 3 ==> |Bytes(s)| == 2 && Bytes(s)[0] == s[0] as int * 4 + s[1] / 16
                         && Bytes(s)[1] == s[1] as int % 16 * 16 + s[2] / 4
  {
  }

  lemma ShortRegroups(b: seq<Byte>)
    requires |b| == 1 || |b| == 2
    ensures Bytes(Sextets(b)) == b
  {
    hide Bytes;
    SextetsShort(b);
    var s := Sextets(b);
    hide Sextets;
    BytesShort(s);
    QuantumRegroups(b[0], if |b| == 2 then b[1] else 0, 0);
  }

  lemma {:induction false} BytesOfSextets(b: seq<Byte>)
    ensures Bytes(Sextets(b)) == b
  {
    if |b| == 1 || |b| == 2 {
      ShortRegroups(b);
    } else if |b| >= 3 {
      BytesOfSextets(b[3..]);
      QuantumRegroups(b[0], b[1], b[2]);
      var s := Sextets(b);
      assert s[4..] == Sextets(b[3..]);
      assert b == [b[0], b[1], b[2]] + b[3..];
      hide Sextets;
    }
  }

  lemma {:induction false} ValuesOfSymbols(s: seq<Sextet>)
    ensures Values(Symbols(s)) == Some(s)
  {
    if s != [] {
      SymbolValue(s[0]);
      ValuesOfSymbols(s[1..]);
      assert Symbols(s)[1..] == Symbols(s[1..]);
      assert s == [s[0]] + s[1..];
    } else {
      assert Symbols(s) == "";
    }
  }

  lemma {:induction false} StripAppended(t: string, k: nat)
    requires t != "" ==> t[|t| - 1] != '='
    ensures StripPads(t + Pads(k)) == t
  {
    if k == 0 {
      assert t + Pads(0) == t;
    } else {
      assert (t + Pads(k))[..|t| + k - 1] == t + Pads(k - 1);
      StripAppended(t, k - 1);
    }
  }

  /** What `rstrip("=")` leaves of an encoding: its symbols, all of them and only them. */
  lemma StripEncoded(b: seq<Byte>)
    ensures StripPads(Encode(b)) == Symbols(Sextets(b))
  {
    var s := Sextets(b);
    if s != [] {
      SymbolValue(s[|s| - 1]);
    }
    StripAppended(Symbols(s), PadCount(|s|));
  }

  lemma RoundTrip(b: seq<Byte>)
    ensures WellFormed(Encode(b)) && Decode(Encode(b)) == b
  {
    var s := Sextets(b);
    StripEncoded(b);
    ValuesOfSymbols(s);
    BytesOfSextets(b);
    Quanta(b);
  }

  /** An encoding never leaves a single symbol in its last quantum. */
  lemma Quanta(b: seq<Byte>)
    ensures |Sextets(b)| % 4 != 1
  {
  }
}
