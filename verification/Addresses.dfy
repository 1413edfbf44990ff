/** Address lists: how one address is printed, and how a list of them is taken apart again
    (RFC 5322 sections 3.2.4 and 3.4).
  */
module Addresses {
  import opened Prelude
  import opened Text
  import ImapQuoting

  /** The characters a name must be quoted for. */
  predicate Special(c: char) {
    c in "()<>@,;:\\\".[]"
  }

  predicate HasSpecial(name: string) {
    exists i :: 0 <= i < |name| && Special(name[i])
  }

  function DisplayName(name: string): string {
    if HasSpecial(name) then "\"" + ImapQuoting.Escaped(name) + "\"" else name
  }

  /** `Name <addr>`, the name quoted when it has to be. */
  function DisplayAddress(name: string, addr: string): string {
    if name == "" then addr
    else if addr == "" then DisplayName(name)
    else DisplayName(name) + " <" + addr + ">"
  }

  /** The specials of RFC 5322 section 3.2.3. */
  const SPECIALS: set<char> := {'(', ')', '<', '>', '[', ']', ':', ';', '@', '\\', ',', '.', '"'}

  /** A name is printed as it is exactly when it holds no special. */
  lemma PlainIff(name: string)
    ensures DisplayName(name) == name <==> forall c :: c in name ==> c !in SPECIALS
  {
    if HasSpecial(name) {
      var i :| 0 <= i < |name| && Special(name[i]);
      assert name[i] in name && name[i] in SPECIALS;
      EscapedLonger(name);
    } else {
      forall c | c in name ensures c !in SPECIALS {
        var i :| 0 <= i < |name| && name[i] == c;
      }
    }
  }

  lemma {:induction false} ReplacedLonger(s: string, c: char, put: string)
    requires |put| >= 1
    ensures |ImapQuoting.Replaced(s, c, put)| >= |s|
  {
    if s != "" {
      ReplacedLonger(s[1..], c, put);
    }
  }

  lemma EscapedLonger(name: string)
    ensures |ImapQuoting.Escaped(name)| >= |name|
  {
    ReplacedLonger(name, '\\', "\\\\");
    ReplacedLonger(ImapQuoting.Replaced(name, '\\', "\\\\"), '"', "\\\"");
  }

  // --- the scanner ---------------------------------------------------------------------------

  /** How far the scan is: the parts cut off, the part being read, and what it is inside of. */
  datatype Scan = Scan(parts: seq<string>, current: string, quoted: bool, escaped: bool, angle: nat) {
    function Keep(c: char): Scan {
      this.(current := current + [c])
    }

    function Step(c: char): Scan {
      if escaped then this.(escaped := false).Keep(c)
      else if c == '\\' && quoted then this.(escaped := true).Keep(c)
      else if c == '"' then this.(quoted := !quoted).Keep(c)
      else if c == '<' && !quoted then this.(angle := angle + 1).Keep(c)
      else if c == '>' && !quoted && angle > 0 then this.(angle := angle - 1).Keep(c)
      else if (c == ',' || c == ';') && !quoted && angle == 0 then this.(parts := parts + [current], current := "")
      else Keep(c)
    }
  }

  function ScanAll(s: Scan, text: string): Scan
    decreases |text|
  {
    if text == "" then s else ScanAll(s.Step(text[0]), text[1..])
  }

  const START := Scan([], "", false, false, 0)

  /** Every part stripped, the empty ones left out. */
  function Stripped(parts: seq<string>): seq<string> {
    if parts == [] then []
    else
      var n := |parts| - 1;
      var last := Strip(parts[n]);
      if last == "" then Stripped(parts[..n]) else Stripped(parts[..n]) + [last]
  }

  function Split(text: string): seq<string> {
    var s := ScanAll(START, text);
    Stripped(s.parts + [s.current])
  }

  method SplitOutsideQuotes(text: string) returns (r: seq<string>)
    ensures r == Split(text)
  {
    hide Strip;
    var parts: seq<string>, current := [], "";
    var quoted, escaped, angle := false, false, 0;
    var i := 0;
    assert text[0..] == text;
    while i < |text|
      invariant 0 <= i <= |text| && angle >= 0
      invariant ScanAll(Scan(parts, current, quoted, escaped, angle), text[i..]) == ScanAll(START, text)
    {
      var c := text[i];
      ScanStep(Scan(parts, current, quoted, escaped, angle), text, i);
      i := i + 1;
      if escaped {
        escaped := false;
      } else if c == '\\' && quoted {
        escaped := true;
      } else if c == '"' {
        quoted := !quoted;
      } else if c == '<' && !quoted {
        angle := angle + 1;
      } else if c == '>' && !quoted && angle > 0 {
        angle := angle - 1;
      } else if (c == ',' || c == ';') && !quoted && angle == 0 {
        parts := parts + [current];
        current := "";
        continue;
      }
      current := current + [c];
    }
    ScanEnd(Scan(parts, current, quoted, escaped, angle), text);
    parts := parts + [current];
    r := [];
    var k := 0;
    while k < |parts|
      invariant 0 <= k <= |parts|
      invariant r == Stripped(parts[..k])
    {
      assert parts[..k + 1][..k] == parts[..k];
      if Strip(parts[k]) != "" {
        r := r + [Strip(parts[k])];
      }
      k := k + 1;
    }
    assert parts[..k] == parts;
  }

  lemma ScanStep(s: Scan, text: string, i: nat)
    requires i < |text|
    ensures ScanAll(s, text[i..]) == ScanAll(s.Step(text[i]), text[i + 1..])
  {
    assert text[i..][1..] == text[i + 1..];
  }

  lemma ScanEnd(s: Scan, text: string)
    ensures ScanAll(s, text[|text|..]) == s
  {
  }

  // --- nothing is lost -----------------------------------------------------------------------

  /** The parts and what was between them. */
  function Glued(parts: seq<string>, cuts: string): string
    requires |parts| == |cuts|
  {
    if parts == [] then ""
    else Glued(parts[..|parts| - 1], cuts[..|cuts| - 1]) + parts[|parts| - 1] + [cuts[|cuts| - 1]]
  }

  ghost predicate Cut(s: Scan, text: string, cuts: string) {
    && |cuts| == |s.parts|
    && (forall i :: 0 <= i < |cuts| ==> cuts[i] == ',' || cuts[i] == ';')
    && text == Glued(s.parts, cuts) + s.current
  }

  /** The text is its parts, in order, with the separators they were cut at. */
  lemma {:induction false} ScanLosesNothing(s: Scan, before: string, cuts: string, text: string) returns (all: string)
    requires Cut(s, before, cuts)
    ensures Cut(ScanAll(s, text), before + text, all)
    decreases |text|
  {
    if text == "" {
      all := cuts;
      assert before + text == before;
    } else {
      var c, next := text[0], s.Step(text[0]);
      var more := if |next.parts| == |s.parts| then cuts else cuts + [c];
      StepCuts(s, before, cuts, c, more);
      all := ScanLosesNothing(next, before + [c], more, text[1..]);
      assert before + [c] + text[1..] == before + text;
    }
  }

  lemma StepShape(s: Scan, c: char)
    ensures var next := s.Step(c);
      || (next.parts == s.parts && next.current == s.current + [c])
      || ((c == ',' || c == ';') && next.parts == s.parts + [s.current] && next.current == "")
  {
    hide Glued, ScanAll;
  }

  lemma StepCuts(s: Scan, before: string, cuts: string, c: char, more: string)
    requires Cut(s, before, cuts)
    requires more == if |s.Step(c).parts| == |s.parts| then cuts else cuts + [c]
    ensures Cut(s.Step(c), before + [c], more)
  {
    hide Scan.Step, ScanAll;
    StepShape(s, c);
    var next := s.Step(c);
    if |next.parts| == |s.parts| {
      hide Glued;
      assert before + [c] == Glued(s.parts, cuts) + (s.current + [c]);
    } else {
      GluedMore(s.parts, cuts, s.current, c);
      hide Glued;
      assert before + [c] == Glued(s.parts, cuts) + s.current + [c];
    }
  }

  lemma GluedMore(parts: seq<string>, cuts: string, last: string, c: char)
    requires |parts| == |cuts|
    ensures Glued(parts + [last], cuts + [c]) == Glued(parts, cuts) + last + [c]
  {
    hide Scan.Step, ScanAll;
    assert (parts + [last])[..|parts|] == parts && (cuts + [c])[..|cuts|] == cuts;
  }

  // --- scanning what is printed --------------------------------------------------------------

  /** Neither in quotes nor in angles. */
  predicate Open(s: Scan) {
    !s.quoted && !s.escaped && s.angle == 0
  }

  /** A character that is only itself outside quotes. */
  predicate Plain(c: char) {
    c != '"' && c != '<' && c != '>' && c != ',' && c != ';'
  }

  predicate AllPlain(t: string) {
    forall i :: 0 <= i < |t| ==> Plain(t[i])
  }

  lemma {:induction false} ScanConcat(s: Scan, a: string, b: string)
    ensures ScanAll(s, a + b) == ScanAll(ScanAll(s, a), b)
    decreases |a|
  {
    hide Scan.Step;
    if a == "" {
      assert a + b == b;
    } else {
      assert (a + b)[1..] == a[1..] + b;
      ScanConcat(s.Step(a[0]), a[1..], b);
    }
  }

  lemma ScanThree(s: Scan, a: string, b: string, c: string)
    ensures ScanAll(s, a + b + c) == ScanAll(ScanAll(ScanAll(s, a), b), c)
  {
    hide ScanAll;
    ScanConcat(s, a, b);
    ScanConcat(s, a + b, c);
  }

  lemma ThreeParts(current: string, a: string, b: string, c: string)
    ensures current + a + b + c == current + (a + b + c)
  {
  }

  lemma ScanOne(s: Scan, c: char)
    ensures ScanAll(s, [c]) == s.Step(c)
  {
    assert [c][1..] == "";
  }

  lemma {:induction false} PlainScanned(s: Scan, t: string)
    requires !s.quoted && !s.escaped && AllPlain(t)
    ensures ScanAll(s, t) == s.(current := s.current + t)
    decreases |t|
  {
    if t == "" {
      assert s.current + t == s.current;
    } else {
      assert s.Step(t[0]) == s.Keep(t[0]);
      PlainScanned(s.Keep(t[0]), t[1..]);
      assert s.current + [t[0]] + t[1..] == s.current + t;
    }
  }

  /** Inside quotes, an escaped name is only itself, whatever it holds. */
  lemma {:induction false} EscapedScanned(s: Scan, name: string)
    requires s.quoted && !s.escaped
    ensures ScanAll(s, ImapQuoting.Escaped(name)) == s.(current := s.current + ImapQuoting.Escaped(name))
    decreases |name|
  {
    if name == "" {
      assert ImapQuoting.Escaped(name) == "";
      assert s.current + "" == s.current;
    } else {
      assert name == [name[0]] + name[1..];
      ImapQuoting.EscapedFirst(name[0], name[1..]);
      EscapedCharScanned(s, name[0]);
      var next := s.(current := s.current + ImapQuoting.EscapedChar(name[0]));
      EscapedScanned(next, name[1..]);
      ReadsMore(s, ImapQuoting.EscapedChar(name[0]), ImapQuoting.Escaped(name[1..]), next);
      hide ImapQuoting.Escaped;
      hide ImapQuoting.EscapedChar;
      hide ScanAll;
    }
  }

  lemma ReadsMore(s: Scan, a: string, b: string, next: Scan)
    requires next == s.(current := s.current + a)
    requires ScanAll(s, a) == next && ScanAll(next, b) == next.(current := next.current + b)
    ensures ScanAll(s, a + b) == s.(current := s.current + (a + b))
  {
    hide ScanAll;
    ScanConcat(s, a, b);
    assert s.current + a + b == s.current + (a + b);
  }

  lemma EscapedCharScanned(s: Scan, c: char)
    requires s.quoted && !s.escaped
    ensures ScanAll(s, ImapQuoting.EscapedChar(c)) == s.(current := s.current + ImapQuoting.EscapedChar(c))
  {
    if c == '"' || c == '\\' {
      ScanOne(s, '\\');
      ScanConcat(s, ['\\'], [c]);
      ScanOne(s.Step('\\'), c);
      assert ['\\', c] == ['\\'] + [c];
      assert s.current + ['\\'] + [c] == s.current + ['\\', c];
    } else {
      ScanOne(s, c);
    }
    hide ScanAll;
  }

  lemma QuotedScanned(s: Scan, name: string)
    requires Open(s)
    ensures ScanAll(s, "\"" + ImapQuoting.Escaped(name) + "\"") == s.(current := s.current + ("\"" + ImapQuoting.Escaped(name) + "\""))
  {
    hide ScanAll;
    hide ImapQuoting.Escaped;
    var e := ImapQuoting.Escaped(name);
    var s1 := s.(current := s.current + "\"", quoted := true);
    ScanOne(s, '"');
    EscapedScanned(s1, name);
    var s2 := s1.(current := s1.current + e);
    ScanOne(s2, '"');
    ScanThree(s, "\"", e, "\"");
    ThreeParts(s.current, "\"", e, "\"");
  }

  // --- where a list is cut --------------------------------------------------------------------

  /** A text by its quotes and brackets: characters, quoted strings and bracketed texts. */
  datatype Nested =
    | Nil
    | Char(c: char, rest: Nested)
    | Quotes(body: string, rest: Nested)
    | Brackets(inner: Nested, rest: Nested)

  /** Between quotes: no quote but after a backslash, and no backslash at the end. */
  predicate QuotedBody(b: string)
    decreases |b|
  {
    if b == "" then true
    else if b[0] == '\\' then |b| >= 2 && QuotedBody(b[2..])
    else b[0] != '"' && QuotedBody(b[1..])
  }

  /** Quotes and brackets open only what they close. Outside of both there is no separator;
      inside brackets there may be, and a closing one only ends them. */
  predicate Closed(n: Nested, inside: bool) {
    match n
    case Nil => true
    case Char(c, rest) => c != '"' && c != '<' && (if inside then c != '>' else c != ',' && c != ';') && Closed(rest, inside)
    case Quotes(body, rest) => QuotedBody(body) && Closed(rest, inside)
    case Brackets(inner, rest) => Closed(inner, true) && Closed(rest, inside)
  }

  function Spelled(n: Nested): string {
    match n
    case Nil => ""
    case Char(c, rest) => [c] + Spelled(rest)
    case Quotes(body, rest) => "\"" + body + "\"" + Spelled(rest)
    case Brackets(inner, rest) => "<" + Spelled(inner) + ">" + Spelled(rest)
  }

  lemma {:induction false} BodyScanned(s: Scan, b: string)
    requires s.quoted && !s.escaped && QuotedBody(b)
    ensures ScanAll(s, b) == s.(current := s.current + b)
    decreases |b|
  {
    if b == "" {
      assert s.current + b == s.current;
    } else if b[0] == '\\' {
      var s1 := s.(escaped := true).Keep(b[0]);
      var s2 := s.(current := s.current + [b[0]] + [b[1]]);
      assert s.Step(b[0]) == s1 && s1.Step(b[1]) == s2;
      assert b[1..][1..] == b[2..];
      BodyScanned(s2, b[2..]);
      assert s2.current + b[2..] == s.current + b;
    } else {
      BodyScanned(s.Keep(b[0]), b[1..]);
      assert s.current + [b[0]] + b[1..] == s.current + b;
    }
  }

  lemma QuotesScanned(s: Scan, b: string)
    requires !s.quoted && !s.escaped && QuotedBody(b)
    ensures ScanAll(s, "\"" + b + "\"") == s.(current := s.current + ("\"" + b + "\""))
  {
    hide ScanAll;
    var s1 := s.(current := s.current + "\"", quoted := true);
    ScanOne(s, '"');
    BodyScanned(s1, b);
    var s2 := s1.(current := s1.current + b);
    ScanOne(s2, '"');
    ScanThree(s, "\"", b, "\"");
    ThreeParts(s.current, "\"", b, "\"");
  }

  /** Whatever is inside quotes or brackets is read on, and nothing is cut. */
  lemma {:induction false} ClosedScanned(s: Scan, n: Nested)
    requires !s.quoted && !s.escaped && Closed(n, s.angle > 0)
    ensures ScanAll(s, Spelled(n)) == s.(current := s.current + Spelled(n))
    decreases n, 0
  {
    match n
    case Nil => assert s.current + "" == s.current;
    case Char(c, rest) =>
      var s1 := s.Keep(c);
      assert s.Step(c) == s1;
      ClosedScanned(s1, rest);
      ScanOne(s, c);
      ReadsMore(s, [c], Spelled(rest), s1);
    case Quotes(body, rest) =>
      var q := "\"" + body + "\"";
      var s1 := s.(current := s.current + q);
      QuotesScanned(s, body);
      ClosedScanned(s1, rest);
      ReadsMore(s, q, Spelled(rest), s1);
    case Brackets(inner, rest) =>
      var s1 := s.(current := s.current + "<" + Spelled(inner) + ">");
      BracketsScanned(s, inner);
      ClosedScanned(s1, rest);
      assert s1.current == s.current + ("<" + Spelled(inner) + ">");
      ReadsMore(s, "<" + Spelled(inner) + ">", Spelled(rest), s.(current := s.current + ("<" + Spelled(inner) + ">")));
  }

  lemma {:induction false} BracketsScanned(s: Scan, inner: Nested)
    requires !s.quoted && !s.escaped && Closed(inner, true)
    ensures ScanAll(s, "<" + Spelled(inner) + ">") == s.(current := s.current + "<" + Spelled(inner) + ">")
    decreases inner, 1
  {
    hide ScanAll, Spelled;
    var s1 := s.(current := s.current + "<", angle := s.angle + 1);
    ScanOne(s, '<');
    ClosedScanned(s1, inner);
    var s2 := s1.(current := s1.current + Spelled(inner));
    ScanOne(s2, '>');
    ScanThree(s, "<", Spelled(inner), ">");
  }

  /** The parts of a list, each after the separator that ends the one before it. */
  function ListOf(first: Nested, more: seq<(char, Nested)>): string {
    if more == [] then Spelled(first)
    else ListOf(first, more[..|more| - 1]) + ([more[|more| - 1].0] + Spelled(more[|more| - 1].1))
  }

  function PartsOf(first: Nested, more: seq<(char, Nested)>): seq<string> {
    if more == [] then [Spelled(first)]
    else PartsOf(first, more[..|more| - 1]) + [Spelled(more[|more| - 1].1)]
  }

  predicate Separator(c: char) {
    c == ',' || c == ';'
  }

  ghost predicate IsList(first: Nested, more: seq<(char, Nested)>) {
    Closed(first, false) && forall i :: 0 <= i < |more| ==> Separator(more[i].0) && Closed(more[i].1, false)
  }

  lemma {:induction false} ListIsCut(first: Nested, more: seq<(char, Nested)>)
    requires IsList(first, more)
    ensures var s := ScanAll(START, ListOf(first, more));
            Open(s) && s.parts + [s.current] == PartsOf(first, more)
    decreases |more|
  {
    hide ScanAll;
    if more == [] {
      ClosedScanned(START, first);
      assert "" + Spelled(first) == Spelled(first);
    } else {
      var n := |more| - 1;
      var (c, next) := more[n];
      ListIsCut(first, more[..n]);
      var s := ScanAll(START, ListOf(first, more[..n]));
      ScanConcat(START, ListOf(first, more[..n]), [c] + Spelled(next));
      ScanConcat(s, [c], Spelled(next));
      ScanOne(s, c);
      var s1 := s.(parts := s.parts + [s.current], current := "");
      assert s.Step(c) == s1;
      ClosedScanned(s1, next);
      assert "" + Spelled(next) == Spelled(next);
    }
  }

  /** A text whose quotes and brackets close is cut at every comma and semicolon outside of
      them, and nowhere else. */
  lemma SplitIs(first: Nested, more: seq<(char, Nested)>)
    requires IsList(first, more)
    ensures Split(ListOf(first, more)) == Stripped(PartsOf(first, more))
  {
    hide Stripped, ScanAll;
    ListIsCut(first, more);
  }

  lemma NameScanned(s: Scan, name: string)
    requires Open(s)
    ensures ScanAll(s, DisplayName(name)) == s.(current := s.current + DisplayName(name))
  {
    hide ScanAll;
    hide ImapQuoting.Escaped;
    if HasSpecial(name) {
      QuotedScanned(s, name);
    } else {
      forall i | 0 <= i < |name|
        ensures Plain(name[i])
      {
        assert !Special(name[i]);
      }
      PlainScanned(s, name);
    }
  }

  /** Free of the characters that structure a list, and of white space around it. */
  predicate ValidAddr(addr: string) {
    addr != "" && AllPlain(addr) && Trimmed(addr)
  }

  lemma AngleOpened(s: Scan)
    requires Open(s)
    ensures ScanAll(s, " <") == s.(current := s.current + " <", angle := 1)
  {
    ScanOne(s, ' ');
    ScanOne(s.Keep(' '), '<');
    ScanConcat(s, " ", "<");
    assert " " + "<" == " <";
    assert s.current + [' '] + ['<'] == s.current + " <";
    hide ScanAll;
  }

  lemma AngleScanned(s: Scan, addr: string)
    requires Open(s) && AllPlain(addr)
    ensures ScanAll(s, " <" + addr + ">") == s.(current := s.current + (" <" + addr + ">"))
  {
    hide ScanAll;
    AngleOpened(s);
    var s1 := s.(current := s.current + " <", angle := 1);
    PlainScanned(s1, addr);
    var s2 := s1.(current := s1.current + addr);
    ScanOne(s2, '>');
    assert s2.Step('>') == s2.(current := s2.current + ">", angle := 0);
    hide Scan.Step;
    ScanThree(s, " <", addr, ">");
    ThreeParts(s.current, " <", addr, ">");
  }

  lemma AddressScanned(s: Scan, name: string, addr: string)
    requires Open(s) && ValidAddr(addr)
    ensures ScanAll(s, DisplayAddress(name, addr)) == s.(current := s.current + DisplayAddress(name, addr))
  {
    hide ScanAll;
    hide DisplayName;
    hide Trimmed;
    if name == "" {
      PlainScanned(s, addr);
    } else {
      var d, a := DisplayName(name), " <" + addr + ">";
      NameScanned(s, name);
      AngleScanned(s.(current := s.current + d), addr);
      ReadsMore(s, d, a, s.(current := s.current + d));
      assert d + " <" + addr + ">" == d + a;
    }
  }

  // --- lists -----------------------------------------------------------------------------------

  datatype Address = Address(name: string, addr: string)

  function Printed(a: Address): string {
    DisplayAddress(a.name, a.addr)
  }

  /** `sep.join(...)`. */
  function Joined(list: seq<Address>, sep: string): string {
    if list == [] then ""
    else if |list| == 1 then Printed(list[0])
    else Joined(list[..|list| - 1], sep) + sep + Printed(list[|list| - 1])
  }

  /** A comma or semicolon, and any white space after it. */
  predicate Separates(sep: string) {
    sep != "" && (sep[0] == ',' || sep[0] == ';') && AllSpace(sep[1..])
  }

  predicate AllValid(list: seq<Address>) {
    forall i :: 0 <= i < |list| ==> ValidAddr(list[i].addr)
  }

  /** The pieces between the separators. */
  function Pieces(list: seq<Address>, pad: string): seq<string> {
    if list == [] then []
    else if |list| == 1 then [Printed(list[0])]
    else Pieces(list[..|list| - 1], pad) + [pad + Printed(list[|list| - 1])]
  }

  lemma SpacesArePlain(pad: string)
    requires AllSpace(pad)
    ensures AllPlain(pad)
  {
  }

  /** One more separator and address. */
  lemma NextScanned(s: Scan, sep: string, a: Address)
    requires Open(s) && Separates(sep) && ValidAddr(a.addr)
    ensures ScanAll(s, sep + Printed(a)) == s.(parts := s.parts + [s.current], current := sep[1..] + Printed(a))
  {
    hide ScanAll;
    hide Printed;
    hide AllSpace;
    hide ValidAddr;
    var pad := sep[1..];
    var s1 := s.(parts := s.parts + [s.current], current := "");
    ScanOne(s, sep[0]);
    SpacesArePlain(pad);
    PlainScanned(s1, pad);
    var s2 := s1.(current := "" + pad);
    assert s2.current == pad;
    PrintedScanned(s2, a);
    hide Scan.Step;
    ScanThree(s, [sep[0]], pad, Printed(a));
    assert [sep[0]] + pad == sep;
  }

  lemma PrintedScanned(s: Scan, a: Address)
    requires Open(s) && ValidAddr(a.addr)
    ensures ScanAll(s, Printed(a)) == s.(current := s.current + Printed(a))
  {
    hide ScanAll;
    hide DisplayAddress;
    AddressScanned(s, a.name, a.addr);
  }

  /** The scanner cuts a joined list at its separators and nowhere else. */
  lemma {:induction false} ListScanned(list: seq<Address>, sep: string)
    requires list != [] && AllValid(list) && Separates(sep)
    ensures var s := ScanAll(START, Joined(list, sep));
            Open(s) && s.parts + [s.current] == Pieces(list, sep[1..])
  {
    hide ScanAll;
    hide Printed;
    hide ValidAddr;
    hide Separates;
    if |list| == 1 {
      PrintedScanned(START, list[0]);
      assert "" + Printed(list[0]) == Printed(list[0]);
    } else {
      var n := |list| - 1;
      assert sep != "" by { SepNotEmpty(sep); }
      ListScanned(list[..n], sep);
      var s := ScanAll(START, Joined(list[..n], sep));
      NextScanned(s, sep, list[n]);
      ScanConcat(START, Joined(list[..n], sep), sep + Printed(list[n]));
      assert Joined(list, sep) == Joined(list[..n], sep) + (sep + Printed(list[n]));
    }
  }

  lemma SepNotEmpty(sep: string)
    requires Separates(sep)
    ensures sep != ""
  {
  }

  lemma StripToEnd(t: string)
    requires t != "" && !IsSpace(t[|t| - 1])
    ensures Strip(t) == StripLeft(t) != ""
  {
    EndStays(t);
  }

  lemma {:induction false} EndStays(t: string)
    requires t != "" && !IsSpace(t[|t| - 1])
    ensures StripLeft(t) != ""
  {
    hide IsSpace;
    if IsSpace(t[0]) {
      assert t[1..] != "" && t[1..][|t[1..]| - 1] == t[|t| - 1];
      EndStays(t[1..]);
      StripFirst(t);
      hide StripLeft;
    }
  }

  lemma StripFirst(t: string)
    requires t != "" && IsSpace(t[0])
    ensures StripLeft(t) == StripLeft(t[1..])
  {
    hide IsSpace;
  }

  lemma {:induction false} PadStripped(pad: string, t: string)
    requires AllSpace(pad)
    ensures StripLeft(pad + t) == StripLeft(t)
    decreases |pad|
  {
    hide IsSpace;
    if pad == "" {
      assert pad + t == t;
    } else {
      assert (pad + t)[1..] == pad[1..] + t;
      PadStripped(pad[1..], t);
    }
  }

  lemma PrintedEnds(a: Address)
    requires ValidAddr(a.addr)
    ensures Printed(a) != "" && !IsSpace(Printed(a)[|Printed(a)| - 1])
  {
    hide DisplayName;
    hide AllPlain;
  }

  lemma PieceStripped(pad: string, a: Address)
    requires AllSpace(pad) && ValidAddr(a.addr)
    ensures Strip(pad + Printed(a)) == StripLeft(Printed(a)) != ""
  {
    hide Printed;
    hide ValidAddr;
    hide StripLeft;
    hide Strip;
    hide IsSpace;
    PrintedEnds(a);
    var t := pad + Printed(a);
    assert t[|t| - 1] == Printed(a)[|Printed(a)| - 1];
    StripToEnd(t);
    PadStripped(pad, Printed(a));
  }

  /** Each address, without white space before it. */
  function Trims(list: seq<Address>): seq<string> {
    if list == [] then [] else Trims(list[..|list| - 1]) + [StripLeft(Printed(list[|list| - 1]))]
  }

  lemma {:induction false} PiecesStripped(list: seq<Address>, pad: string)
    requires AllValid(list) && AllSpace(pad)
    ensures Stripped(Pieces(list, pad)) == Trims(list)
  {
    hide Printed;
    hide ValidAddr;
    hide Strip;
    hide StripLeft;
    assert AllSpace("");
    hide AllSpace;
    if list != [] {
      var n := |list| - 1;
      PiecesStripped(list[..n], pad);
      var last := if n == 0 then Printed(list[0]) else pad + Printed(list[n]);
      PieceStripped("", list[n]);
      assert "" + Printed(list[n]) == Printed(list[n]);
      PieceStripped(pad, list[n]);
      assert Pieces(list, pad)[..n] == Pieces(list[..n], pad) && Pieces(list, pad)[n] == last by { PiecesMore(list, pad); }
      assert |Pieces(list, pad)| == n + 1 by { PiecesMore(list, pad); }
      hide Pieces;
    }
  }

  lemma PiecesMore(list: seq<Address>, pad: string)
    requires list != []
    ensures var n := |list| - 1;
            && |Pieces(list, pad)| == n + 1
            && Pieces(list, pad)[..n] == Pieces(list[..n], pad)
            && Pieces(list, pad)[n] == if n == 0 then Printed(list[0]) else pad + Printed(list[n])
  {
    hide Printed;
    if |list| > 1 {
      PiecesMore(list[..|list| - 1], pad);
    }
  }

  /** The printed addresses. */
  function Prints(list: seq<Address>): seq<string> {
    if list == [] then [] else Prints(list[..|list| - 1]) + [Printed(list[|list| - 1])]
  }

  /** A name that is quoted, or does not start with white space. */
  predicate ValidName(name: string) {
    name == "" || HasSpecial(name) || !IsSpace(name[0])
  }

  lemma PrintedStarts(a: Address)
    requires ValidAddr(a.addr)
    ensures StripLeft(Printed(a)) == Printed(a) <==> ValidName(a.name)
  {
    hide ImapQuoting.Escaped;
    hide HasSpecial;
    hide AllPlain;
    hide IsSpace;
    var p := Printed(a);
    assert p[0] == if a.name == "" then a.addr[0] else if HasSpecial(a.name) then '"' else a.name[0];
    assert !IsSpace('"') by { QuoteIsNoSpace(); }
    assert StripLeft(p) == p <==> !IsSpace(p[0]);
  }

  lemma QuoteIsNoSpace()
    ensures !IsSpace('"')
  {
  }

  lemma SameEnds(a: seq<string>, b: seq<string>, x: string, y: string)
    requires |a| == |b|
    ensures a + [x] == b + [y] <==> a == b && x == y
  {
    assert (a + [x])[..|a|] == a && (b + [y])[..|b|] == b;
    assert (a + [x])[|a|] == x && (b + [y])[|b|] == y;
  }

  lemma {:induction false} TrimsIff(list: seq<Address>)
    requires AllValid(list)
    ensures |Trims(list)| == |Prints(list)|
    ensures Trims(list) == Prints(list) <==> AllNamesValid(list)
  {
    hide Printed;
    hide ValidAddr;
    hide StripLeft;
    hide AllNamesValid;
    if list == [] {
      assert AllNamesValid([]) by { NoNames(); }
    } else {
      var n := |list| - 1;
      TrimsIff(list[..n]);
      PrintedStarts(list[n]);
      NamesMore(list);
      SameEnds(Trims(list[..n]), Prints(list[..n]), StripLeft(Printed(list[n])), Printed(list[n]));
    }
  }

  predicate AllNamesValid(list: seq<Address>) {
    forall i :: 0 <= i < |list| ==> ValidName(list[i].name)
  }

  lemma NoNames()
    ensures AllNamesValid([])
  {
  }

  lemma NamesMore(list: seq<Address>)
    requires list != []
    ensures AllNamesValid(list) <==> AllNamesValid(list[..|list| - 1]) && ValidName(list[|list| - 1].name)
  {
    hide ValidName;
    var n := |list| - 1;
    assert forall i :: 0 <= i < n ==> list[..n][i] == list[i];
  }

  /** A list of printed addresses, joined with commas or semicolons, is taken apart into the
      same addresses, whatever quotes, backslashes and commas the names hold: exactly when no
      unquoted name starts with white space. */
  lemma ListRoundTrip(list: seq<Address>, sep: string)
    requires AllValid(list) && Separates(sep)
    ensures Split(Joined(list, sep)) == Prints(list) <==> AllNamesValid(list)
  {
    hide ScanAll;
    hide Pieces;
    hide Stripped;
    hide Trims;
    hide AllNamesValid;
    hide ValidAddr;
    hide AllSpace;
    TrimsIff(list);
    if list == [] {
      NothingSplit();
    } else {
      ListScanned(list, sep);
      PiecesStripped(list, sep[1..]);
    }
    hide Prints;
  }

  lemma NothingSplit()
    ensures Split("") == []
  {
    assert [] + [""] == [""];
    assert [""][..0] == [];
    StripTrims("");
  }

  /** A name that starts with a space loses it: the list does not come back. Both callers of
      the printer trim their names first, so only a direct call gets here. */
  lemma LeadingSpaceIsLost()
    ensures Split(Joined([Address(" Ann", "ann@x")], ", ")) == ["Ann <ann@x>"]
    ensures Prints([Address(" Ann", "ann@x")]) == [" Ann <ann@x>"]
  {
    hide ScanAll;
    hide Strip;
    var a := Address(" Ann", "ann@x");
    AnnIsValid();
    assert Separates(", ") by { CommaSeparates(); }
    ListScanned([a], ", ");
    PiecesStripped([a], ", "[1..]);
    AnnPrinted();
    assert [a][..0] == [];
    hide Printed;
    hide Pieces;
    hide Stripped;
  }

  lemma CommaSeparates()
    ensures Separates(", ") && AllSpace(", "[1..])
  {
    assert ", "[1..] == " ";
  }

  lemma AnnIsValid()
    ensures ValidAddr("ann@x")
  {
  }

  lemma AnnPrinted()
    ensures var p := Printed(Address(" Ann", "ann@x"));
            p == " Ann <ann@x>" && StripLeft(p) == "Ann <ann@x>"
  {
    hide StripLeft;
    hide IsSpace;
    AnnHasNoSpecials();
    hide HasSpecial;
    var p := " Ann <ann@x>";
    assert p == " " + "Ann <ann@x>";
    assert AllSpace(" ") && !IsSpace('A') by { AnnSpaces(); }
    StripLeftPadded(" ", "Ann <ann@x>");
  }

  lemma AnnHasNoSpecials()
    ensures !HasSpecial(" Ann")
  {
  }

  lemma AnnSpaces()
    ensures AllSpace(" ") && !IsSpace('A')
  {
  }
}
