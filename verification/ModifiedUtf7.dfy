/** Modified UTF-7, the encoding of IMAP mailbox names (RFC 3501 section 5.1.3).

    `lenient` stands for what Python's `base64.b64decode` makes of text that is not
    well-formed base64; the round trip never reaches it, so every theorem holds for any.
  */
module ModifiedUtf7 {
  import opened Prelude
  import Base64
  import Utf16

  type Lenient = string -> Option<seq<Byte>>

  predicate Printable(c: char) {
    0x20 <= c as int <= 0x7E
  }

  /** `str.replace` of one character by another. */
  function Replace(t: string, x: char, y: char): (r: string)
    ensures |r| == |t|
    ensures forall i :: 0 <= i < |t| ==> r[i] == if t[i] == x then y else t[i]
  {
    seq(|t|, i requires 0 <= i < |t| => if t[i] == x then y else t[i])
  }

  /** `str.find`: the first position of `c` at or after `start`, or -1. */
  function Find(t: string, c: char, start: nat): (i: int)
    requires start <= |t|
    ensures i == -1 || start <= i < |t|
    ensures i >= 0 ==> t[i] == c
    ensures forall k :: start <= k < (if i == -1 then |t| else i) ==> t[k] != c
    decreases |t| - start
  {
    if start == |t| then -1 else if t[start] == c then start else Find(t, c, start + 1)
  }

  // --- encoding ---------------------------------------------------------------

  /** The modified base64 of a run of characters: no padding, `,` for `/`. */
  function Chunk(buffer: string): string {
    Replace(Base64.StripPads(Base64.Encode(Utf16.Encode(buffer))), '/', ',')
  }

  /** What `flush` appends for the buffered characters. */
  function Shifted(buffer: string): string {
    if buffer == "" then "" else "&" + Chunk(buffer) + "-"
  }

  /** The encoding still to be produced when `buffer` is pending and `rest` unread. */
  function Encoded(buffer: string, rest: string): string
    decreases |rest|
  {
    if rest == "" then Shifted(buffer)
    else if rest[0] == '&' then Shifted(buffer) + ("&-" + Encoded("", rest[1..]))
    else if Printable(rest[0]) then Shifted(buffer) + ([rest[0]] + Encoded("", rest[1..]))
    else Encoded(buffer + [rest[0]], rest[1..])
  }

  method Flush(out: string, buffer: string) returns (out': string, buffer': string)
    ensures out' == out + Shifted(buffer)
    ensures buffer' == ""
  {
    if buffer == "" {
      return out, "";
    }
    var encoded := Base64.Encode(Utf16.Encode(buffer));
    out' := out + ("&" + Replace(Base64.StripPads(encoded), '/', ',') + "-");
    buffer' := "";
  }

  /** `out` and the pending `buffer` are what the loop holds before reading `v[i]`. */
  ghost predicate Holds(out: string, buffer: string, v: string, i: nat) {
    i <= |v| && out + Encoded(buffer, v[i..]) == Encoded("", v)
  }

  /** A character sent as `text` after flushing, or one more character kept for the next run. */
  lemma HoldsNext(out: string, buffer: string, v: string, i: nat, text: string)
    requires Holds(out, buffer, v, i) && i < |v|
    requires text == if v[i] == '&' then "&-" else [v[i]]
    ensures Printable(v[i]) || v[i] == '&' ==> Holds(out + Shifted(buffer) + text, "", v, i + 1)
    ensures !Printable(v[i]) && v[i] != '&' ==> Holds(out, buffer + [v[i]], v, i + 1)
  {
    hide Shifted;
    assert v[i..][1..] == v[i + 1..];
  }

  method Encode(value: string) returns (out: string)
    ensures out == Encoded("", value)
  {
    hide Shifted;
    hide Encoded;
    out := "";
    var buffer := "";
    var i := 0;
    while i < |value|
      invariant 0 <= i <= |value| && Holds(out, buffer, value, i)
    {
      var c := value[i];
      HoldsNext(out, buffer, value, i, if c == '&' then "&-" else [c]);
      if c == '&' {
        out, buffer := Flush(out, buffer);
        out := out + "&-";
      } else if Printable(c) {
        out, buffer := Flush(out, buffer);
        out := out + [c];
      } else {
        buffer := buffer + [c];
      }
      i := i + 1;
    }
    HoldsEnd(out, buffer, value);
    out, buffer := Flush(out, buffer);
  }

  lemma HoldsEnd(out: string, buffer: string, v: string)
    requires Holds(out, buffer, v, |v|)
    ensures out + Shifted(buffer) == Encoded("", v)
  {
    assert v[|v|..] == "";
  }

  // --- decoding ---------------------------------------------------------------

  /** The text of one `&chunk-`, or `verbatim` when it does not decode. */
  function DecodeChunk(chunk: string, verbatim: string, lenient: Lenient): string {
    var swapped := Replace(chunk, ',', '/');
    var padded := swapped + Base64.Pads(Base64.PadCount(|swapped|));
    var bytes := if Base64.WellFormed(padded) then Some(Base64.Decode(padded)) else lenient(padded);
    match bytes
    case None => verbatim
    case Some(b) =>
      match Utf16.Decode(b)
      case None => verbatim
      case Some(s) => s
  }

  function Decoded(v: string, lenient: Lenient): string
    decreases |v|
  {
    if v == "" then ""
    else if v[0] != '&' then [v[0]] + Decoded(v[1..], lenient)
    else
      var end := Find(v, '-', 1);
      if end == -1 then v
      else
        var text := if end == 1 then "&" else DecodeChunk(v[1..end], v[..end + 1], lenient);
        text + Decoded(v[end + 1..], lenient)
  }

  lemma DecodedText(c: char, t: string, lenient: Lenient)
    requires c != '&'
    ensures Decoded([c] + t, lenient) == [c] + Decoded(t, lenient)
  {
    assert ([c] + t)[1..] == t;
  }

  lemma DecodedNullShift(t: string, lenient: Lenient)
    ensures Decoded("&-" + t, lenient) == "&" + Decoded(t, lenient)
  {
    var v := "&-" + t;
    assert Find(v, '-', 1) == 1;
    assert v[2..] == t;
  }

  lemma DecodedRun(chunk: string, t: string, lenient: Lenient)
    requires chunk != "" && forall i :: 0 <= i < |chunk| ==> chunk[i] != '-'
    ensures Decoded("&" + chunk + "-" + t, lenient)
         == DecodeChunk(chunk, "&" + chunk + "-", lenient) + Decoded(t, lenient)
  {
    var v := "&" + chunk + "-" + t;
    var end := |chunk| + 1;
    assert forall k :: 1 <= k < end ==> v[k] == chunk[k - 1];
    assert v[end] == '-';
    assert Find(v, '-', 1) == end;
    assert v[1..end] == chunk && v[..end + 1] == "&" + chunk + "-" && v[end + 1..] == t;
  }

  lemma DecodedUnterminated(v: string, lenient: Lenient)
    requires v != "" && v[0] == '&' && forall i :: 1 <= i < |v| ==> v[i] != '-'
    ensures Decoded(v, lenient) == v
  {
  }

  /** One round of the decoding loop at a closed shift. */
  lemma DecodeShift(v: string, index: nat, end: nat, lenient: Lenient)
    requires index < end < |v| && v[index] == '&' && v[end] == '-'
    requires forall k :: index + 1 <= k < end ==> v[k] != '-'
    ensures Decoded(v[index..], lenient)
         == (if index + 1 == end then "&" else DecodeChunk(v[index + 1..end], v[index..end + 1], lenient))
            + Decoded(v[end + 1..], lenient)
  {
    var chunk, rest := v[index + 1..end], v[end + 1..];
    assert v[index..] == "&" + chunk + "-" + rest;
    assert v[index..end + 1] == "&" + chunk + "-";
    if chunk == "" {
      assert v[index..] == "&-" + rest;
      DecodedNullShift(rest, lenient);
    } else {
      DecodedRun(chunk, rest, lenient);
    }
  }

  /** `out` is what the loop has produced when `index` is the next position to read. */
  ghost predicate Produced(out: string, v: string, index: nat, lenient: Lenient) {
    index <= |v| && out + Decoded(v[index..], lenient) == Decoded(v, lenient)
  }

  lemma ProduceText(out: string, v: string, index: nat, lenient: Lenient)
    requires Produced(out, v, index, lenient) && index < |v| && v[index] != '&'
    ensures Produced(out + [v[index]], v, index + 1, lenient)
  {
    DecodedText(v[index], v[index + 1..], lenient);
    assert v[index..] == [v[index]] + v[index + 1..];
  }

  lemma ProduceRest(out: string, v: string, index: nat, lenient: Lenient)
    requires Produced(out, v, index, lenient) && index < |v| && v[index] == '&'
    requires forall k :: index + 1 <= k < |v| ==> v[k] != '-'
    ensures out + v[index..] == Decoded(v, lenient)
  {
    DecodedUnterminated(v[index..], lenient);
  }

  lemma ProduceShift(out: string, v: string, index: nat, end: nat, text: string, lenient: Lenient)
    requires Produced(out, v, index, lenient) && index < end < |v| && v[index] == '&' && v[end] == '-'
    requires forall k :: index + 1 <= k < end ==> v[k] != '-'
    requires text == if index + 1 == end then "&" else DecodeChunk(v[index + 1..end], v[index..end + 1], lenient)
    ensures Produced(out + text, v, end + 1, lenient)
  {
    hide Decoded;
    hide DecodeChunk;
    DecodeShift(v, index, end, lenient);
    ProducedMore(out, text, Decoded(v[end + 1..], lenient));
  }

  lemma ProducedMore(out: string, text: string, rest: string)
    ensures out + (text + rest) == (out + text) + rest
  {
  }

  lemma ProduceEnd(out: string, v: string, lenient: Lenient)
    requires Produced(out, v, |v|, lenient)
    ensures out == Decoded(v, lenient)
  {
    assert v[|v|..] == "";
  }

  method Decode(value: string, lenient: Lenient) returns (out: string)
    ensures out == Decoded(value, lenient)
  {
    hide DecodeChunk;
    hide Decoded;
    out := "";
    var index := 0;
    while index < |value|
      invariant 0 <= index <= |value| && Produced(out, value, index, lenient)
      decreases |value| - index
    {
      var c := value[index];
      if c != '&' {
        ProduceText(out, value, index, lenient);
        out := out + [c];
        index := index + 1;
        continue;
      }
      var end := Find(value, '-', index + 1);
      if end == -1 {
        ProduceRest(out, value, index, lenient);
        out := out + value[index..];
        return;
      }
      var chunk := value[index + 1..end];
      var text := "&";
      if chunk != "" {
        text := DecodeChunk(chunk, value[index..end + 1], lenient);
      }
      ProduceShift(out, value, index, end, text, lenient);
      out := out + text;
      index := end + 1;
    }
    ProduceEnd(out, value, lenient);
  }

  // --- the round trip ---------------------------------------------------------

  /** The alphabet of modified base64: `A-Za-z0-9+,`. */
  predicate ChunkSymbol(c: char) {
    c == ',' || (Base64.ValueOf(c).Some? && c != '/')
  }

  lemma ChunkShape(buffer: string)
    requires buffer != ""
    ensures Chunk(buffer) != ""
    ensures forall i :: 0 <= i < |Chunk(buffer)| ==> ChunkSymbol(Chunk(buffer)[i])
    ensures Replace(Chunk(buffer), ',', '/') == Base64.StripPads(Base64.Encode(Utf16.Encode(buffer)))
  {
    var b := Utf16.Encode(buffer);
    var s := Base64.Sextets(b);
    Base64.StripEncoded(b);
    var t := Base64.Symbols(s);
    forall i | 0 <= i < |t|
      ensures ChunkSymbol(Chunk(buffer)[i])
      ensures Replace(Chunk(buffer), ',', '/')[i] == t[i]
    {
      Base64.SymbolValue(s[i]);
    }
  }

  lemma ChunkDecodes(buffer: string, verbatim: string, lenient: Lenient)
    requires buffer != ""
    ensures DecodeChunk(Chunk(buffer), verbatim, lenient) == buffer
  {
    var b := Utf16.Encode(buffer);
    ChunkShape(buffer);
    Base64.StripEncoded(b);
    Base64.RoundTrip(b);
    Utf16.RoundTrip(buffer);
  }

  lemma ShiftDecodes(buffer: string, t: string, lenient: Lenient)
    requires buffer != ""
    ensures Decoded(Shifted(buffer) + t, lenient) == buffer + Decoded(t, lenient)
  {
    var chunk := Chunk(buffer);
    ChunkShape(buffer);
    ChunkDecodes(buffer, "&" + chunk + "-", lenient);
    DecodedRun(chunk, t, lenient);
  }

  lemma ShiftOrNothing(buffer: string, t: string, lenient: Lenient)
    ensures Decoded(Shifted(buffer) + t, lenient) == buffer + Decoded(t, lenient)
  {
    if buffer == "" {
      assert Shifted(buffer) + t == t;
    } else {
      ShiftDecodes(buffer, t, lenient);
    }
  }

  /** A pending run, then the encoding `head` of one character `c` sent as itself. */
  lemma AfterRun(buffer: string, head: string, c: string, tail: string, rest: string, lenient: Lenient)
    requires Decoded(head + tail, lenient) == c + Decoded(tail, lenient)
    requires Decoded(tail, lenient) == rest
    ensures Decoded(Shifted(buffer) + (head + tail), lenient) == buffer + (c + rest)
  {
    ShiftOrNothing(buffer, head + tail, lenient);
  }

  lemma {:induction false} RoundTripFrom(buffer: string, rest: string, lenient: Lenient)
    ensures Decoded(Encoded(buffer, rest), lenient) == buffer + rest
    decreases |rest|
  {
    if rest == "" {
      ShiftOrNothing(buffer, "", lenient);
      assert Shifted(buffer) + "" == Shifted(buffer);
    } else if rest[0] == '&' || Printable(rest[0]) {
      var c := [rest[0]];
      var tail := Encoded("", rest[1..]);
      RoundTripFrom("", rest[1..], lenient);
      assert "" + rest[1..] == rest[1..];
      if rest[0] == '&' {
        DecodedNullShift(tail, lenient);
        AfterRun(buffer, "&-", c, tail, rest[1..], lenient);
      } else {
        DecodedText(rest[0], tail, lenient);
        AfterRun(buffer, c, c, tail, rest[1..], lenient);
      }
      assert c + rest[1..] == rest;
    } else {
      RoundTripFrom(buffer + [rest[0]], rest[1..], lenient);
      assert buffer + [rest[0]] + rest[1..] == buffer + rest;
    }
  }

  /** `decode(encode(s)) == s` for every string of Unicode scalar values. */
  lemma RoundTrip(s: string, lenient: Lenient)
    ensures Decoded(Encoded("", s), lenient) == s
  {
    RoundTripFrom("", s, lenient);
  }

  lemma Injective(a: string, b: string)
    requires Encoded("", a) == Encoded("", b)
    ensures a == b
  {
    var lenient: Lenient := t => None;
    RoundTrip(a, lenient);
    RoundTrip(b, lenient);
  }

  // --- the shape of an encoding -----------------------------------------------

  /** The grammar of section 5.1.3: printable characters stand for themselves, `&` opens
      a run of modified base64 that the next `-` closes. */
  predicate WellShifted(v: string)
    decreases |v|
  {
    if v == "" then true
    else if v[0] != '&' then Printable(v[0]) && WellShifted(v[1..])
    else
      var end := Find(v, '-', 1);
      && end != -1
      && (forall i :: 1 <= i < end ==> ChunkSymbol(v[i]))
      && WellShifted(v[end + 1..])
  }

  lemma TextIsWellShifted(c: char, t: string)
    requires Printable(c) && c != '&' && WellShifted(t)
    ensures WellShifted([c] + t)
  {
    assert ([c] + t)[1..] == t;
  }

  lemma RunIsWellShifted(chunk: string, t: string)
    requires forall i :: 0 <= i < |chunk| ==> ChunkSymbol(chunk[i])
    requires WellShifted(t)
    ensures WellShifted("&" + chunk + "-" + t)
  {
    var v := "&" + chunk + "-" + t;
    var end := |chunk| + 1;
    assert forall k :: 1 <= k < end ==> v[k] == chunk[k - 1];
    assert v[end] == '-';
    assert Find(v, '-', 1) == end;
    assert v[end + 1..] == t;
  }

  lemma ShiftedIsWellShifted(buffer: string, t: string)
    requires WellShifted(t)
    ensures WellShifted(Shifted(buffer) + t)
  {
    if buffer == "" {
      assert Shifted(buffer) + t == t;
    } else {
      ChunkShape(buffer);
      RunIsWellShifted(Chunk(buffer), t);
    }
  }

  lemma {:induction false} EncodedIsWellShifted(buffer: string, rest: string)
    ensures WellShifted(Encoded(buffer, rest))
    decreases |rest|
  {
    if rest == "" {
      assert Encoded(buffer, rest) == Shifted(buffer) + "";
      ShiftedIsWellShifted(buffer, "");
    } else if rest[0] == '&' {
      var tail := Encoded("", rest[1..]);
      EncodedIsWellShifted("", rest[1..]);
      RunIsWellShifted("", tail);
      assert "&" + "" + "-" + tail == "&-" + tail;
      ShiftedIsWellShifted(buffer, "&-" + tail);
    } else if Printable(rest[0]) {
      var tail := Encoded("", rest[1..]);
      EncodedIsWellShifted("", rest[1..]);
      TextIsWellShifted(rest[0], tail);
      ShiftedIsWellShifted(buffer, [rest[0]] + tail);
    } else {
      EncodedIsWellShifted(buffer + [rest[0]], rest[1..]);
    }
  }

  /** The `&` at position `i` has its closing `-` further on. */
  predicate ClosedAt(v: string, i: nat)
    requires i < |v|
  {
    exists j :: i < j < |v| && v[j] == '-'
  }

  lemma {:induction false} WellShiftedAscii(v: string)
    requires WellShifted(v)
    ensures forall i :: 0 <= i < |v| ==> Printable(v[i])
    ensures forall i :: 0 <= i < |v| && v[i] == '&' ==> ClosedAt(v, i)
    decreases |v|
  {
    if v != "" {
      var end := if v[0] != '&' then 0 else Find(v, '-', 1);
      var w := v[end + 1..];
      WellShiftedAscii(w);
      forall i | 0 <= i < |v|
        ensures Printable(v[i])
        ensures v[i] == '&' ==> ClosedAt(v, i)
      {
        if i > end {
          assert v[i] == w[i - end - 1];
          if v[i] == '&' {
            assert ClosedAt(w, i - end - 1);
            var j :| i - end - 1 < j < |w| && w[j] == '-';
            assert v[j + end + 1] == '-';
          }
        } else if v[0] == '&' {
          assert v[end] == '-';
        }
      }
    }
  }

  /** An encoding is printable ASCII, and every `&` in it is closed by a later `-`. */
  lemma EncodingIsPrintable(s: string)
    ensures WellShifted(Encoded("", s))
    ensures forall c :: c in Encoded("", s) ==> Printable(c)
    ensures forall i :: 0 <= i < |Encoded("", s)| && Encoded("", s)[i] == '&'
                    ==> ClosedAt(Encoded("", s), i)
  {
    EncodedIsWellShifted("", s);
    WellShiftedAscii(Encoded("", s));
  }

  /** A plain name passes through the decoder. */
  lemma {:induction false} PlainNameDecodes(v: string, lenient: Lenient)
    requires forall i :: 0 <= i < |v| ==> v[i] != '&'
    ensures Decoded(v, lenient) == v
  {
    if v != "" {
      PlainNameDecodes(v[1..], lenient);
      DecodedText(v[0], v[1..], lenient);
      assert v == [v[0]] + v[1..];
    }
  }

  /** A plain printable name is sent as it is. */
  lemma {:induction false} PlainNameEncodes(v: string)
    requires forall i :: 0 <= i < |v| ==> v[i] != '&' && Printable(v[i])
    ensures Encoded("", v) == v
  {
    if v != "" {
      PlainNameEncodes(v[1..]);
      assert v == [v[0]] + v[1..];
    }
  }
}
