/** Quoted strings on the IMAP command line, as the client prints them and as a server reads
    them (RFC 3501 sections 4.3 and 9).
  */
module ImapQuoting {
  import opened Prelude
  import ModifiedUtf7
  import Utf8

  const DQUOTE: Byte := 34
  const BACKSLASH: Byte := 92

  /** The characters refused, because they can end the command line. */
  predicate Control(c: char) {
    (c as int) < 0x20 && c != '\t'
  }

  predicate Clean(value: string) {
    forall i :: 0 <= i < |value| ==> !Control(value[i])
  }

  /** `str.replace` of one character by a string. */
  function Replaced(s: string, c: char, put: string): string {
    if s == "" then "" else (if s[0] == c then put else [s[0]]) + Replaced(s[1..], c, put)
  }

  function Escaped(value: string): string {
    Replaced(Replaced(value, '\\', "\\\\"), '"', "\\\"")
  }

  /** None is the error on a control character. */
  function Quote(value: string): Option<string> {
    if Clean(value) then Some("\"" + Escaped(value) + "\"") else None
  }

  /** `_quoted`: the same, as UTF-8. */
  function Quoted(value: string): Option<seq<Byte>> {
    if Clean(value) then Some([DQUOTE] + Utf8.Encode(Escaped(value)) + [DQUOTE]) else None
  }

  // --- the server's side -------------------------------------------------------------------

  /** What no quoted string may hold: NUL, CR and LF. */
  predicate Forbidden(b: Byte) {
    b == 0 || b == 10 || b == 13
  }

  /** The value and what follows its closing quote, from just after the opening one. */
  function Inside(b: seq<Byte>): Option<(seq<Byte>, seq<Byte>)> {
    if b == [] || Forbidden(b[0]) then None
    else if b[0] == DQUOTE then Some(([], b[1..]))
    else if b[0] == BACKSLASH then
      if |b| >= 2 && (b[1] == DQUOTE || b[1] == BACKSLASH) then With(b[1], Inside(b[2..])) else None
    else With(b[0], Inside(b[1..]))
  }

  function With(c: Byte, parsed: Option<(seq<Byte>, seq<Byte>)>): Option<(seq<Byte>, seq<Byte>)> {
    match parsed
    case None => None
    case Some((value, rest)) => Some(([c] + value, rest))
  }

  function ParseQuoted(b: seq<Byte>): Option<(seq<Byte>, seq<Byte>)> {
    if b == [] || b[0] != DQUOTE then None else Inside(b[1..])
  }

  // --- escaping ----------------------------------------------------------------------------

  function EscapedByte(b: Byte): seq<Byte> {
    if b == DQUOTE || b == BACKSLASH then [BACKSLASH, b] else [b]
  }

  function EscapedBytes(bs: seq<Byte>): seq<Byte> {
    if bs == [] then [] else EscapedByte(bs[0]) + EscapedBytes(bs[1..])
  }

  lemma {:induction false} ReplacedConcat(s: string, t: string, c: char, put: string)
    ensures Replaced(s + t, c, put) == Replaced(s, c, put) + Replaced(t, c, put)
  {
    if s == "" {
      assert s + t == t;
    } else {
      assert (s + t)[1..] == s[1..] + t;
      ReplacedConcat(s[1..], t, c, put);
    }
  }

  function EscapedChar(c: char): string {
    if c == '"' || c == '\\' then ['\\', c] else [c]
  }

  lemma EscapedFirst(c: char, s: string)
    ensures Escaped([c] + s) == EscapedChar(c) + Escaped(s)
  {
    var first := if c == '\\' then "\\\\" else [c];
    assert ([c] + s)[1..] == s;
    assert Replaced([c] + s, '\\', "\\\\") == first + Replaced(s, '\\', "\\\\");
    ReplacedConcat(first, Replaced(s, '\\', "\\\\"), '"', "\\\"");
    assert Replaced(first, '"', "\\\"") == EscapedChar(c) by {
      assert first[1..] == if c == '\\' then "\\" else "";
      assert first[1..] != "" ==> first[1..][1..] == "";
    }
  }

  lemma {:induction false} EscapedBytesConcat(a: seq<Byte>, b: seq<Byte>)
    ensures EscapedBytes(a + b) == EscapedBytes(a) + EscapedBytes(b)
  {
    if a == [] {
      assert a + b == b;
    } else {
      assert (a + b)[1..] == a[1..] + b;
      EscapedBytesConcat(a[1..], b);
    }
  }

  lemma {:induction false} HighBytesStay(bs: seq<Byte>)
    requires forall i :: 0 <= i < |bs| ==> bs[i] >= 0x80
    ensures EscapedBytes(bs) == bs
  {
    if bs != [] {
      HighBytesStay(bs[1..]);
      assert bs == [bs[0]] + bs[1..];
    }
  }

  lemma EscapedCharBytes(c: char)
    ensures Utf8.Encode(EscapedChar(c)) == EscapedBytes(Utf8.EncodeChar(c))
  {
    var e := EscapedChar(c);
    EncodeOne(c);
    if c as int < 0x80 {
      assert Utf8.EncodeChar(c)[1..] == [];
      if |e| == 2 {
        EncodeOne('\\');
        EncodeConcat(['\\'], [c]);
        assert e == ['\\'] + [c];
      }
    } else {
      HighBytesStay(Utf8.EncodeChar(c));
    }
  }

  lemma EncodeOne(c: char)
    ensures Utf8.Encode([c]) == Utf8.EncodeChar(c)
  {
    assert [c][1..] == "";
  }

  lemma {:induction false} EncodeConcat(s: string, t: string)
    ensures Utf8.Encode(s + t) == Utf8.Encode(s) + Utf8.Encode(t)
  {
    if s == "" {
      assert s + t == t;
    } else {
      assert (s + t)[1..] == s[1..] + t;
      EncodeConcat(s[1..], t);
    }
  }

  /** Escaping the characters is escaping the bytes: no byte of a longer character is a quote
      or a backslash. */
  lemma {:induction false} EscapedEncodes(s: string)
    ensures Utf8.Encode(Escaped(s)) == EscapedBytes(Utf8.Encode(s))
  {
    if s != "" {
      EscapedEncodes(s[1..]);
      EscapedStep(s);
    }
  }

  lemma EscapedStep(s: string)
    requires s != "" && Utf8.Encode(Escaped(s[1..])) == EscapedBytes(Utf8.Encode(s[1..]))
    ensures Utf8.Encode(Escaped(s)) == EscapedBytes(Utf8.Encode(s))
  {
    hide Escaped;
    hide EscapedBytes;
    hide EscapedChar;
    hide Utf8.EncodeChar;
    assert s == [s[0]] + s[1..];
    EscapedFirst(s[0], s[1..]);
    EncodeConcat(EscapedChar(s[0]), Escaped(s[1..]));
    EscapedCharBytes(s[0]);
    EscapedBytesConcat(Utf8.EncodeChar(s[0]), Utf8.Encode(s[1..]));
  }

  lemma {:induction false} CleanEncodes(s: string)
    requires Clean(s)
    ensures forall i :: 0 <= i < |Utf8.Encode(s)| ==> !Forbidden(Utf8.Encode(s)[i])
  {
    if s != "" {
      CleanEncodes(s[1..]);
    }
  }

  // --- round trips ---------------------------------------------------------------------------

  lemma InsideOne(b: Byte, tail: seq<Byte>, value: seq<Byte>, rest: seq<Byte>)
    requires !Forbidden(b) && Inside(tail) == Some((value, rest))
    ensures Inside(EscapedByte(b) + tail) == Some(([b] + value, rest))
  {
    var e := EscapedByte(b);
    assert (e + tail)[|e|..] == tail;
    assert |(e + tail)| >= 1 && (e + tail)[0] == e[0];
  }

  lemma {:induction false} InsideEscaped(bs: seq<Byte>, rest: seq<Byte>)
    requires forall i :: 0 <= i < |bs| ==> !Forbidden(bs[i])
    ensures Inside(EscapedBytes(bs) + ([DQUOTE] + rest)) == Some((bs, rest))
  {
    hide Inside;
    hide Forbidden;
    hide EscapedByte;
    if bs == [] {
      InsideClosed(rest);
      assert EscapedBytes(bs) + ([DQUOTE] + rest) == [DQUOTE] + rest;
    } else {
      InsideEscaped(bs[1..], rest);
      EscapedFrom(bs, rest);
      InsideOne(bs[0], EscapedBytes(bs[1..]) + ([DQUOTE] + rest), bs[1..], rest);
      assert bs == [bs[0]] + bs[1..];
    }
  }

  lemma InsideClosed(rest: seq<Byte>)
    ensures Inside([DQUOTE] + rest) == Some(([], rest))
  {
    assert ([DQUOTE] + rest)[1..] == rest;
  }

  lemma EscapedFrom(bs: seq<Byte>, rest: seq<Byte>)
    requires bs != []
    ensures EscapedBytes(bs) + ([DQUOTE] + rest) == EscapedByte(bs[0]) + (EscapedBytes(bs[1..]) + ([DQUOTE] + rest))
  {
    hide EscapedByte;
  }

  /** A value is accepted exactly when it has no control character; a server then reads it
      back, whatever quotes and backslashes it holds, and stops at the closing quote. */
  lemma QuotedRoundTrip(value: string, rest: seq<Byte>)
    ensures Quoted(value).Some? <==> Clean(value)
    ensures Quoted(value).Some? ==>
              && ParseQuoted(Quoted(value).value + rest) == Some((Utf8.Encode(value), rest))
              && Utf8.Decode(Utf8.Encode(value)) == Some(value)
  {
    hide Inside;
    hide EscapedBytes;
    hide Escaped;
    hide Utf8.Encode;
    hide Utf8.Decode;
    if Clean(value) {
      var bs := Utf8.Encode(value);
      EscapedEncodes(value);
      CleanEncodes(value);
      InsideEscaped(bs, rest);
      Utf8.RoundTrip(value);
      assert (Quoted(value).value + rest)[1..] == EscapedBytes(bs) + ([DQUOTE] + rest);
    }
  }

  /** `quote` puts on the wire what `_quoted` does. */
  lemma QuoteIsQuoted(value: string)
    ensures Quote(value).Some? <==> Quoted(value).Some?
    ensures Quote(value).Some? ==> Utf8.Encode(Quote(value).value) == Quoted(value).value
  {
    if Clean(value) {
      var e := Escaped(value);
      assert "\""[1..] == "";
      assert Utf8.Encode("\"") == [DQUOTE];
      EncodeConcat("\"", e);
      EncodeConcat("\"" + e, "\"");
    }
  }

  lemma PrintableIsClean(raw: string)
    requires forall c :: c in raw ==> ModifiedUtf7.Printable(c)
    ensures Clean(raw)
  {
    forall i | 0 <= i < |raw|
      ensures !Control(raw[i])
    {
      assert raw[i] in raw;
    }
  }

  /** A folder name reaches the server as it was given: its encoding is always accepted by
      `quote`, read back whole, and decodes to the name. */
  lemma FolderNameArrives(name: string, lenient: ModifiedUtf7.Lenient, rest: seq<Byte>)
    ensures var raw := ModifiedUtf7.Encoded("", name);
            && Quote(raw).Some?
            && ParseQuoted(Utf8.Encode(Quote(raw).value) + rest) == Some((Utf8.Encode(raw), rest))
            && ModifiedUtf7.Decoded(raw, lenient) == name
  {
    hide *;
    var raw := ModifiedUtf7.Encoded("", name);
    ModifiedUtf7.EncodingIsPrintable(name);
    ModifiedUtf7.RoundTrip(name, lenient);
    PrintableIsClean(raw);
    QuoteIsQuoted(raw);
    QuotedRoundTrip(raw, rest);
    assert Quote(raw).Some?;
    assert ParseQuoted(Utf8.Encode(Quote(raw).value) + rest) == Some((Utf8.Encode(raw), rest));
    assert ModifiedUtf7.Decoded(raw, lenient) == name;
  }
}
