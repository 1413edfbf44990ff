/** What section 5.1.3 of RFC 3501 says of mailbox names, apart from how they are computed: the
    names as lists of pieces, and the proof that the encoder finds the one list there is.
  */
module MailboxNames {
  import opened Prelude
  import opened ModifiedUtf7
  import Base64
  import Utf16

  /** `Run`: consecutive characters, the bytes of their UTF-16 and the 6-bit groups sent. */
  datatype Piece =
    | Same(c: char)
    | Ampersand
    | Run(text: string, bytes: seq<Byte>, sextets: seq<Base64.Sextet>)

  /** `n` characters in a row, `c` the first. */
  function Range(c: char, n: nat): (s: string)
    requires c as int + n < 0xD800
    ensures |s| == n && forall i :: 0 <= i < n ==> s[i] == (c as int + i) as char
  {
    seq(n, i requires 0 <= i < n => (c as int + i) as char)
  }

  /** The modified base64 alphabet: the letters, the digits, `+` and `,`. */
  function Alphabet(): (s: string)
    ensures |s| == 64
  {
    Range('A', 26) + Range('a', 26) + Range('0', 10) + "+,"
  }

  /** Two bytes as a number, most significant first. */
  function Word(high: int, low: int): int {
    high * 0x100 + low
  }

  /** UTF-16 by the formulas of RFC 2781 section 2. */
  predicate Utf16Of(text: string, b: seq<Byte>)
    decreases |text|
  {
    if text == "" then b == []
    else if text[0] as int < 0x1_0000 then
      && |b| >= 2
      && Word(b[0], b[1]) == text[0] as int
      && Utf16Of(text[1..], b[2..])
    else
      && |b| >= 4
      && var high, low := Word(b[0], b[1]) - 0xD800, Word(b[2], b[3]) - 0xDC00;
      && 0 <= high < 0x400 && 0 <= low < 0x400
      && 0x1_0000 + high * 0x400 + low == text[0] as int
      && Utf16Of(text[1..], b[4..])
  }

  predicate Shiftable(c: char) {
    c != '&' && !Printable(c)
  }

  /** The shortest 6-bit groups that hold the bytes, completed with zero bits. */
  predicate Holds6(sextets: seq<Base64.Sextet>, b: seq<Byte>) {
    && 0 <= 6 * |sextets| - 8 * |b| < 6
    && Base64.SextetGroups(sextets) == Base64.ByteGroups(b)
  }

  predicate IsPiece(p: Piece) {
    match p
    case Same(c) => Printable(c) && c != '&'
    case Ampersand => true
    case Run(text, bytes, sextets) =>
      && text != "" && (forall c :: c in text ==> Shiftable(c))
      && Utf16Of(text, bytes)
      && Holds6(sextets, bytes)
  }

  /** Pieces in a row: no run is followed by another. */
  predicate ArePieces(ps: seq<Piece>) {
    && (forall p :: p in ps ==> IsPiece(p))
    && forall i :: 0 <= i < |ps| - 1 && ps[i].Run? ==> !ps[i + 1].Run?
  }

  function NameOf(ps: seq<Piece>): string {
    if ps == [] then ""
    else
      (match ps[0]
       case Same(c) => [c]
       case Ampersand => "&"
       case Run(text, _, _) => text) + NameOf(ps[1..])
  }

  function Symbols(sextets: seq<Base64.Sextet>): string {
    seq(|sextets|, i requires 0 <= i < |sextets| => Alphabet()[sextets[i]])
  }

  function SentOf(ps: seq<Piece>): string {
    if ps == [] then ""
    else
      (match ps[0]
       case Same(c) => [c]
       case Ampersand => "&-"
       case Run(_, _, sextets) => "&" + Symbols(sextets) + "-") + SentOf(ps[1..])
  }

  /** `sent` is the modified UTF-7 of `name`. */
  ghost predicate Encodes(name: string, sent: string) {
    exists ps :: ArePieces(ps) && NameOf(ps) == name && SentOf(ps) == sent
  }

  // --- one run ------------------------------------------------------------------------

  lemma WordOnce(a: Byte, b: Byte, n: int)
    requires 0 <= n < 0x1_0000
    ensures Word(a, b) == n <==> [a, b] == Utf16.Unit(n)
  {
  }

  lemma PairOnce(a: int, b: int, n: nat)
    requires 0 <= b < 0x400
    ensures a * 0x400 + b == n <==> a == n / 0x400 && b == n % 0x400
  {
  }

  lemma ShortChar(text: string, b: seq<Byte>)
    requires text != "" && |b| >= 2 && text[0] as int < 0x1_0000
    ensures Word(b[0], b[1]) == text[0] as int <==> b[..2] == Utf16.EncodeChar(text[0])
  {
    WordOnce(b[0], b[1], text[0] as int);
    assert b[..2] == [b[0], b[1]];
    hide Utf16.Unit;
  }

  lemma LongChar(text: string, b: seq<Byte>)
    requires text != "" && |b| >= 4 && text[0] as int >= 0x1_0000
    ensures (var high, low := Word(b[0], b[1]) - 0xD800, Word(b[2], b[3]) - 0xDC00;
             0 <= high < 0x400 && 0 <= low < 0x400 && 0x1_0000 + high * 0x400 + low == text[0] as int)
       <==> b[..4] == Utf16.EncodeChar(text[0])
  {
    var n := text[0] as int - 0x1_0000;
    var high, low := Word(b[0], b[1]) - 0xD800, Word(b[2], b[3]) - 0xDC00;
    WordOnce(b[0], b[1], 0xD800 + n / 0x400);
    WordOnce(b[2], b[3], 0xDC00 + n % 0x400);
    hide Utf16.Unit, Word;
    assert b[..4] == [b[0], b[1]] + [b[2], b[3]];
    if 0 <= low < 0x400 {
      PairOnce(high, low, n);
    }
    var u, v := Utf16.Unit(0xD800 + n / 0x400), Utf16.Unit(0xDC00 + n % 0x400);
    UnitSize(0xD800 + n / 0x400);
    UnitSize(0xDC00 + n % 0x400);
    assert b[..4] == u + v ==> [b[0], b[1]] == u && [b[2], b[3]] == v by {
      assert (u + v)[..2] == u && (u + v)[2..] == v;
      assert b[..4][..2] == [b[0], b[1]] && b[..4][2..] == [b[2], b[3]];
    }
  }

  lemma UnitSize(n: int)
    requires 0 <= n < 0x1_0000
    ensures |Utf16.Unit(n)| == 2
  {
  }

  lemma {:induction false} Utf16Is(text: string, b: seq<Byte>)
    ensures Utf16Of(text, b) <==> b == Utf16.Encode(text)
    decreases |text|
  {
    if text != "" {
      hide Word, Utf16.EncodeChar;
      var e := Utf16.EncodeChar(text[0]);
      CharSize(text[0]);
      if |b| >= |e| {
        Utf16Is(text[1..], b[|e|..]);
        if |e| == 2 {
          ShortChar(text, b);
        } else {
          LongChar(text, b);
        }
        Cut(b, e, Utf16.Encode(text[1..]));
      }
    }
  }

  lemma CharSize(c: char)
    ensures |Utf16.EncodeChar(c)| == if c as int < 0x1_0000 then 2 else 4
  {
  }

  lemma Cut(b: seq<Byte>, e: seq<Byte>, rest: seq<Byte>)
    requires |b| >= |e|
    ensures b == e + rest <==> b[..|e|] == e && b[|e|..] == rest
  {
    assert b == b[..|e|] + b[|e|..];
  }

  lemma GroupOnce(a0: Base64.Sextet, a1: Base64.Sextet, a2: Base64.Sextet, a3: Base64.Sextet,
                  b0: Base64.Sextet, b1: Base64.Sextet, b2: Base64.Sextet, b3: Base64.Sextet)
    requires ((a0 * 0x40 + a1) * 0x40 + a2) * 0x40 + a3 == ((b0 * 0x40 + b1) * 0x40 + b2) * 0x40 + b3
    ensures a0 == b0 && a1 == b1 && a2 == b2 && a3 == b3
  {
  }

  /** Equally many 6-bit groups that spell the same 24-bit groups are the same. */
  lemma {:induction false} GroupsDetermine(a: seq<Base64.Sextet>, b: seq<Base64.Sextet>)
    requires |a| == |b| && Base64.SextetGroups(a) == Base64.SextetGroups(b)
    ensures a == b
  {
    if a != [] {
      assert Base64.SextetGroups(a)[0] == Base64.SextetGroups(b)[0];
      GroupOnce(a[0], Base64.At(a, 1), Base64.At(a, 2), Base64.At(a, 3), b[0], Base64.At(b, 1), Base64.At(b, 2), Base64.At(b, 3));
      if |a| >= 4 {
        assert Base64.SextetGroups(a)[1..] == Base64.SextetGroups(a[4..]);
        assert Base64.SextetGroups(b)[1..] == Base64.SextetGroups(b[4..]);
        GroupsDetermine(a[4..], b[4..]);
        assert a == a[..4] + a[4..] && b == b[..4] + b[4..];
      }
    }
  }

  lemma HeldOnce(s: seq<Base64.Sextet>, b: seq<Byte>)
    ensures Holds6(s, b) <==> s == Base64.Sextets(b)
  {
    Base64.SameGroups(b);
    if Holds6(s, b) {
      GroupsDetermine(s, Base64.Sextets(b));
    }
  }

  lemma SymbolIs(n: Base64.Sextet)
    ensures Alphabet()[n] == if Base64.Symbol(n) == '/' then ',' else Base64.Symbol(n)
  {
  }

  lemma RunIs(text: string, b: seq<Byte>, s: seq<Base64.Sextet>)
    requires Utf16Of(text, b) && Holds6(s, b)
    ensures Symbols(s) == Chunk(text)
  {
    Utf16Is(text, b);
    HeldOnce(s, b);
    Base64.StripEncoded(b);
    SymbolsSwap(s);
  }

  lemma SymbolsSwap(s: seq<Base64.Sextet>)
    ensures Symbols(s) == Replace(Base64.Symbols(s), '/', ',')
  {
    hide Base64.Symbol;
    var t := Replace(Base64.Symbols(s), '/', ',');
    forall i | 0 <= i < |s| ensures Symbols(s)[i] == t[i] {
      SymbolIs(s[i]);
    }
  }

  // --- the encoder finds the pieces ---------------------------------------------------

  lemma {:induction false} EncodedRun(buffer: string, text: string, rest: string)
    requires forall c :: c in text ==> Shiftable(c)
    ensures Encoded(buffer, text + rest) == Encoded(buffer + text, rest)
    decreases |text|
  {
    hide Shifted;
    if text == "" {
      assert text + rest == rest && buffer + text == buffer;
    } else {
      EncodedRun(buffer + [text[0]], text[1..], rest);
      assert Shiftable(text[0]);
      assert (text + rest)[1..] == text[1..] + rest;
      assert buffer + [text[0]] + text[1..] == buffer + text;
    }
  }

  /** A run ends where the name ends or a character is sent as itself. */
  lemma EncodedFlush(text: string, rest: string)
    requires rest == "" || !Shiftable(rest[0])
    ensures Encoded(text, rest) == Shifted(text) + Encoded("", rest)
  {
    EncodedEnd(text);
    assert Shifted("") == "";
    hide Shifted, Encoded;
    if rest == "" {
      EncodedEnd("");
      assert Shifted(text) + "" == Shifted(text);
    } else {
      var next := (if rest[0] == '&' then "&-" else [rest[0]]) + Encoded("", rest[1..]);
      EncodedNext(text, rest);
      EncodedNext("", rest);
      assert "" + next == next;
    }
  }

  lemma EncodedEnd(text: string)
    ensures Encoded(text, "") == Shifted(text)
  {
  }

  lemma EncodedNext(text: string, rest: string)
    requires rest != "" && !Shiftable(rest[0])
    ensures Encoded(text, rest)
         == Shifted(text) + ((if rest[0] == '&' then "&-" else [rest[0]]) + Encoded("", rest[1..]))
  {
    hide Shifted;
  }

  lemma EncodedPlain(c: char, rest: string)
    requires Printable(c)
    ensures Encoded("", [c] + rest) == (if c == '&' then "&-" else [c]) + Encoded("", rest)
  {
    assert ([c] + rest)[1..] == rest;
    assert Shifted("") == "";
  }

  lemma NameStarts(ps: seq<Piece>)
    requires ArePieces(ps) && (ps == [] || !ps[0].Run?)
    ensures NameOf(ps) == "" || !Shiftable(NameOf(ps)[0])
  {
    if ps != [] {
      assert IsPiece(ps[0]);
    }
  }

  lemma TailPieces(ps: seq<Piece>)
    requires ArePieces(ps) && ps != []
    ensures IsPiece(ps[0]) && ArePieces(ps[1..])
    ensures ps[0].Run? && |ps| > 1 ==> !ps[1].Run?
  {
  }

  /** Any pieces of a name are sent as the encoder sends the name. */
  lemma {:induction false} PiecesSent(ps: seq<Piece>)
    requires ArePieces(ps)
    ensures SentOf(ps) == Encoded("", NameOf(ps))
  {
    if ps != [] {
      TailPieces(ps);
      PiecesSent(ps[1..]);
      var rest := NameOf(ps[1..]);
      match ps[0]
      case Same(c) => EncodedPlain(c, rest);
      case Ampersand => EncodedPlain('&', rest);
      case Run(text, bytes, sextets) =>
        NameStarts(ps[1..]);
        RunIs(text, bytes, sextets);
        EncodedRun("", text, rest);
        assert "" + text == text;
        EncodedFlush(text, rest);
    }
  }

  /** The pieces of a name, `buffer` being the run before it. */
  function PiecesOf(buffer: string, rest: string): seq<Piece>
    decreases |rest|
  {
    if rest == "" then RunOf(buffer)
    else if rest[0] == '&' then RunOf(buffer) + [Ampersand] + PiecesOf("", rest[1..])
    else if Printable(rest[0]) then RunOf(buffer) + [Same(rest[0])] + PiecesOf("", rest[1..])
    else PiecesOf(buffer + [rest[0]], rest[1..])
  }

  function RunOf(text: string): seq<Piece> {
    if text == "" then []
    else
      var bytes := Utf16.Encode(text);
      [Run(text, bytes, Base64.Sextets(bytes))]
  }

  lemma RunIsPiece(text: string)
    requires forall c :: c in text ==> Shiftable(c)
    ensures ArePieces(RunOf(text)) && NameOf(RunOf(text)) == text
  {
    var bytes := Utf16.Encode(text);
    Utf16Is(text, bytes);
    HeldOnce(Base64.Sextets(bytes), bytes);
    hide Utf16Of, Holds6;
    if text != "" {
      assert RunOf(text)[1..] == [];
    }
  }

  lemma RunThen(text: string, p: Piece, ps: seq<Piece>)
    requires forall c :: c in text ==> Shiftable(c)
    requires IsPiece(p) && !p.Run? && ArePieces(ps)
    ensures ArePieces(RunOf(text) + [p] + ps)
  {
    RunIsPiece(text);
    var run := RunOf(text);
    assert |run| <= 1;
    hide RunOf, IsPiece;
    var all := run + [p] + ps;
    assert forall i :: 0 <= i < |ps| ==> all[|run| + 1 + i] == ps[i];
    assert all[|run|] == p;
  }

  lemma {:induction false} NameBoth(a: seq<Piece>, b: seq<Piece>)
    ensures NameOf(a + b) == NameOf(a) + NameOf(b)
  {
    if a == [] {
      assert a + b == b;
    } else {
      assert (a + b)[1..] == a[1..] + b;
      NameBoth(a[1..], b);
    }
  }

  lemma RunThenName(text: string, p: Piece, ps: seq<Piece>)
    requires NameOf(RunOf(text)) == text
    ensures NameOf(RunOf(text) + [p] + ps) == text + (NameOf([p]) + NameOf(ps))
  {
    hide NameOf, RunOf;
    NameBoth(RunOf(text) + [p], ps);
    NameBoth(RunOf(text), [p]);
  }

  lemma {:induction false} PiecesExist(buffer: string, rest: string)
    requires forall c :: c in buffer ==> Shiftable(c)
    ensures ArePieces(PiecesOf(buffer, rest)) && NameOf(PiecesOf(buffer, rest)) == buffer + rest
    decreases |rest|
  {
    hide ArePieces, NameOf, RunOf;
    if rest == "" {
      RunIsPiece(buffer);
      assert buffer + rest == buffer;
    } else if Shiftable(rest[0]) {
      PiecesExist(buffer + [rest[0]], rest[1..]);
      assert buffer + [rest[0]] + rest[1..] == buffer + rest;
    } else {
      PiecesExist("", rest[1..]);
      var p := if rest[0] == '&' then Ampersand else Same(rest[0]);
      var ps := PiecesOf("", rest[1..]);
      hide PiecesOf;
      RunIsPiece(buffer);
      RunThen(buffer, p, ps);
      RunThenName(buffer, p, ps);
      OneName(p);
      PiecesNext(buffer, rest);
      assert buffer + ([rest[0]] + rest[1..]) == buffer + rest;
    }
  }

  lemma OneName(p: Piece)
    requires !p.Run?
    ensures NameOf([p]) == if p.Ampersand? then "&" else [p.c]
  {
  }

  lemma PiecesNext(buffer: string, rest: string)
    requires rest != "" && !Shiftable(rest[0])
    ensures PiecesOf(buffer, rest)
         == RunOf(buffer) + [if rest[0] == '&' then Ampersand else Same(rest[0])] + PiecesOf("", rest[1..])
  {
  }

  /** The text that RFC 3501 prescribes for a name exists, is the only one, and is what the
      encoder sends. */
  lemma EncodingIs(name: string, sent: string)
    ensures Encodes(name, sent) <==> sent == Encoded("", name)
  {
    PiecesExist("", name);
    assert "" + name == name;
    PiecesSent(PiecesOf("", name));
    if Encodes(name, sent) {
      var ps :| ArePieces(ps) && NameOf(ps) == name && SentOf(ps) == sent;
      PiecesSent(ps);
    }
  }

  // --- what the decoder reads -----------------------------------------------------------

  /** Six more bits on the right. */
  function Six(high: int, low: int): int {
    high * 0x40 + low
  }

  /** The bytes that 6-bit groups hold whole; bits left over are of no account. */
  predicate Carries(v: seq<Base64.Sextet>, b: seq<Byte>)
    decreases |v|
  {
    if |v| == 0 then b == []
    else if |v| == 1 then false
    else if |v| == 2 then |b| == 1 && b[0] as int == Six(v[0], v[1]) / 0x10
    else if |v| == 3 then |b| == 2 && Word(b[0], b[1]) == Six(Six(v[0], v[1]), v[2]) / 4
    else
      && |b| >= 3
      && Word(Word(b[0], b[1]), b[2]) == Six(Six(Six(v[0], v[1]), v[2]), v[3])
      && Carries(v[4..], b[3..])
  }

  lemma {:induction false} CarriesIs(v: seq<Base64.Sextet>, b: seq<Byte>)
    requires Carries(v, b)
    ensures b == Base64.Bytes(v)
  {
    if |v| == 3 {
      var x: Byte, y: Byte := v[0] as int * 4 + v[1] / 16, v[1] as int % 16 * 16 + v[2] / 4;
      assert Word(x, y) == Six(Six(v[0], v[1]), v[2]) / 4;
      WordTwice(b[0], b[1], x, y);
    } else if |v| >= 4 {
      CarriesIs(v[4..], b[3..]);
      QuantumOnce(v, b);
      assert b == b[..3] + b[3..];
    }
  }

  lemma WordTwice(a: Byte, b: Byte, x: Byte, y: Byte)
    requires Word(a, b) == Word(x, y)
    ensures a == x && b == y
  {
  }

  lemma QuantumOnce(v: seq<Base64.Sextet>, b: seq<Byte>)
    requires |v| >= 4 && |b| >= 3
    requires Word(Word(b[0], b[1]), b[2]) == Six(Six(Six(v[0], v[1]), v[2]), v[3])
    ensures b[0] as int == v[0] as int * 4 + v[1] / 16
    ensures b[1] as int == v[1] as int % 16 * 16 + v[2] / 4
    ensures b[2] as int == v[2] as int % 4 * 64 + v[3]
  {
  }

  lemma SwapBack(v: seq<Base64.Sextet>)
    ensures Replace(Symbols(v), ',', '/') == Base64.Symbols(v)
  {
    hide Base64.Symbol;
    var t := Replace(Symbols(v), ',', '/');
    forall i | 0 <= i < |v| ensures t[i] == Base64.Symbols(v)[i] {
      SymbolIs(v[i]);
      Base64.SymbolValue(v[i]);
    }
  }

  lemma SymbolsDecode(v: seq<Base64.Sextet>)
    requires |v| % 4 != 1
    ensures var padded := Base64.Symbols(v) + Base64.Pads(Base64.PadCount(|v|));
            Base64.WellFormed(padded) && Base64.Decode(padded) == Base64.Bytes(v)
  {
    var t := Base64.Symbols(v);
    if v != [] {
      Base64.SymbolValue(v[|v| - 1]);
    }
    Base64.StripAppended(t, Base64.PadCount(|v|));
    Base64.ValuesOfSymbols(v);
  }

  /** The strict UTF-16 decoder accepts exactly what spells a text. */
  lemma {:induction false} Utf16Decodes(b: seq<Byte>)
    ensures Utf16.Decode(b).Some? ==> Utf16Of(Utf16.Decode(b).value, b)
    decreases |b|
  {
    if Utf16.Decode(b).Some? && b != [] {
      var n := if 0xD800 <= Word(b[0], b[1]) < 0xDC00 then 4 else 2;
      Utf16Decodes(b[n..]);
      var text := Utf16.Decode(b).value;
      assert text[1..] == Utf16.Decode(b[n..]).value;
    }
  }

  lemma Utf16Twice(b: seq<Byte>, text: string)
    requires Utf16Of(text, b)
    ensures Utf16.Decode(b) == Some(text)
  {
    Utf16Is(text, b);
    Utf16.RoundTrip(text);
  }

  /** A shift whose symbols hold bytes `b` reads as the text `b` spells in UTF-16; where it
      spells none, the shift is kept as it stands. */
  lemma ShiftReads(v: seq<Base64.Sextet>, b: seq<Byte>, verbatim: string, lenient: Lenient)
    requires Carries(v, b) && |v| % 4 != 1
    ensures forall text :: Utf16Of(text, b) ==> DecodeChunk(Symbols(v), verbatim, lenient) == text
    ensures (forall text :: !Utf16Of(text, b)) ==> DecodeChunk(Symbols(v), verbatim, lenient) == verbatim
  {
    hide Utf16Of;
    CarriesIs(v, b);
    SwapBack(v);
    SymbolsDecode(v);
    Utf16Decodes(b);
    forall text | Utf16Of(text, b) ensures Utf16.Decode(b) == Some(text) {
      Utf16Twice(b, text);
    }
    hide Base64.WellFormed, Base64.Decode;
  }

  /** What is not made of the symbols, and not read otherwise either, is kept as it stands. */
  lemma OthersKept(chunk: string, verbatim: string, lenient: Lenient)
    requires '/' !in chunk && '=' !in chunk
    requires forall v :: |v| % 4 != 1 ==> chunk != Symbols(v)
    requires forall t :: lenient(t) == None
    ensures DecodeChunk(chunk, verbatim, lenient) == verbatim
  {
    var swapped := Replace(chunk, ',', '/');
    var padded := swapped + Base64.Pads(Base64.PadCount(|swapped|));
    if chunk != "" {
      assert chunk[|chunk| - 1] in chunk;
    }
    Base64.StripAppended(swapped, Base64.PadCount(|swapped|));
    if Base64.WellFormed(padded) {
      var v := Base64.Values(swapped).value;
      ValuesAre(swapped);
      SwapForth(chunk, v);
      assert false;
    }
  }

  lemma {:induction false} ValuesAre(t: string)
    requires Base64.Values(t).Some?
    ensures Base64.Symbols(Base64.Values(t).value) == t
  {
    if t != "" {
      ValuesAre(t[1..]);
      ValueIs(t[0]);
      hide Base64.ValueOf, Base64.Symbol;
      var v := Base64.Values(t).value;
      assert v[1..] == Base64.Values(t[1..]).value;
      assert Base64.Symbols(v) == [Base64.Symbol(v[0])] + Base64.Symbols(v[1..]);
      assert t == [t[0]] + t[1..];
    }
  }

  lemma ValueIs(c: char)
    requires Base64.ValueOf(c).Some?
    ensures Base64.Symbol(Base64.ValueOf(c).value) == c
  {
  }

  lemma SwapForth(chunk: string, v: seq<Base64.Sextet>)
    requires '/' !in chunk && Base64.Symbols(v) == Replace(chunk, ',', '/')
    ensures chunk == Symbols(v)
  {
    SymbolsSwap(v);
    var t := Replace(Base64.Symbols(v), '/', ',');
    forall i | 0 <= i < |chunk| ensures t[i] == chunk[i] {
      assert chunk[i] in chunk;
    }
  }
}
