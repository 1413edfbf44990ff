/** A server reading the search back: the line taken apart, and each key with its arguments. */
module SearchReader {
  import opened Prelude
  import opened ImapQuoting
  import opened SearchLine
  import opened SearchCriteria
  import Utf8

  // --- numbers and dates ---------------------------------------------------------------------

  predicate IsDigit(c: char) {
    '0' <= c <= '9'
  }

  function Value(c: char): nat
    requires IsDigit(c)
  {
    c as int - '0' as int
  }

  /** `number`: digits only. */
  function ReadDecimal(s: string): Option<nat> {
    if s == "" || !IsDigit(s[|s| - 1]) then None
    else if |s| == 1 then Some(Value(s[0]))
    else
      match ReadDecimal(s[..|s| - 1])
      case None => None
      case Some(n) => Some(n * 10 + Value(s[|s| - 1]))
  }

  /** `date-month`. */
  function MonthNamed(name: string): Option<Month> {
    if name == "Jan" then Some(1)
    else if name == "Feb" then Some(2)
    else if name == "Mar" then Some(3)
    else if name == "Apr" then Some(4)
    else if name == "May" then Some(5)
    else if name == "Jun" then Some(6)
    else if name == "Jul" then Some(7)
    else if name == "Aug" then Some(8)
    else if name == "Sep" then Some(9)
    else if name == "Oct" then Some(10)
    else if name == "Nov" then Some(11)
    else if name == "Dec" then Some(12)
    else None
  }

  /** `date-day "-" date-month "-" 4DIGIT`, the day in two digits. */
  function ReadDate(s: string): Option<Date> {
    if |s| != 11 || s[2] != '-' || s[6] != '-' then None
    else
      var day, month, year := ReadDecimal(s[..2]), MonthNamed(s[3..6]), ReadDecimal(s[7..]);
      if day.None? || month.None? || year.None? || !(1 <= day.value <= 31) || !(1 <= year.value <= 9999) then None
      else Some(Date(year.value, month.value, day.value))
  }

  lemma {:induction false} DecimalReads(n: nat)
    ensures ReadDecimal(Decimal(n)) == Some(n)
    ensures forall i :: 0 <= i < |Decimal(n)| ==> IsDigit(Decimal(n)[i])
  {
    if n >= 10 {
      DecimalReads(n / 10);
      assert Decimal(n)[..|Decimal(n)| - 1] == Decimal(n / 10);
    }
  }

  lemma DecimalLength(n: nat)
    requires n <= 9999
    ensures |Decimal(n)| == 4 <==> n >= 1000
    ensures |Decimal(n)| <= 4
  {
    if n >= 10 {
      assert |Decimal(n)| == |Decimal(n / 10)| + 1;
      if n / 10 >= 10 {
        assert |Decimal(n / 10)| == |Decimal(n / 10 / 10)| + 1;
        if n / 10 / 10 >= 10 {
          assert |Decimal(n / 10 / 10)| == |Decimal(n / 10 / 10 / 10)| + 1;
          assert n / 10 / 10 / 10 < 10;
        }
      }
    }
  }

  lemma MonthReads(m: Month)
    ensures |MONTHS[m - 1]| == 3 && MonthNamed(MONTHS[m - 1]) == Some(m)
  {
    var n := MONTHS[m - 1];
    assert |n| == 3;
    assert n == [n[0], n[1], n[2]];
  }

  lemma TwoDigits(n: int)
    requires 0 <= n < 100
    ensures ReadDecimal([Digit(n / 10), Digit(n % 10)]) == Some(n)
  {
    var s := [Digit(n / 10), Digit(n % 10)];
    assert s[..1] == [Digit(n / 10)];
  }

  /** A date is read back exactly when its year has the four digits the grammar asks for. */
  lemma DateReads(d: Date)
    ensures ReadDate(ImapDate(d)) == if d.year >= 1000 then Some(d) else None
  {
    hide ReadDecimal;
    hide Decimal;
    hide MonthNamed;
    var s := ImapDate(d);
    DecimalLength(d.year);
    MonthReads(d.month);
    TwoDigits(d.day);
    DecimalReads(d.year);
    if d.year >= 1000 {
      assert |s| == 11;
      assert s[..2] == [Digit(d.day / 10), Digit(d.day % 10)];
      assert s[3..6] == MONTHS[d.month - 1];
      assert s[7..] == Decimal(d.year);
    }
    hide MONTHS;
  }

  // --- keys ------------------------------------------------------------------------------------

  predicate TextField(w: string) {
    w == "FROM" || w == "TO" || w == "SUBJECT" || w == "BODY" || w == "TEXT"
  }

  predicate DateField(w: string) {
    w == "SINCE" || w == "BEFORE"
  }

  predicate FlagName(w: string) {
    w == "SEEN" || w == "UNSEEN" || w == "FLAGGED" || w == "UNFLAGGED" || w == "ANSWERED" || w == "UNANSWERED"
  }

  /** The value of a quoted token. */
  function ReadString(t: Token): Option<string> {
    match ParseQuoted(t)
    case None => None
    case Some((value, rest)) => if rest == [] then Utf8.Decode(value) else None
  }

  /** The key a word starts, from the word and the tokens after it, and how many it took. */
  function ReadKey(w: string, rest: seq<Token>): Option<(Key, nat)> {
    if TextField(w) then
      if |rest| < 1 || ReadString(rest[0]).None? then None else Some((Text(w, ReadString(rest[0]).value), 1))
    else if DateField(w) then
      if |rest| < 1 || Utf8.Decode(rest[0]).None? || ReadDate(Utf8.Decode(rest[0]).value).None? then None
      else Some((When(w, ReadDate(Utf8.Decode(rest[0]).value).value), 1))
    else if FlagName(w) then Some((Flag(w), 0))
    else if w == "HEADER" then
      if |rest| < 2 || Utf8.Decode(rest[0]).None? || ReadString(rest[1]).None? then None
      else Some((Header(Utf8.Decode(rest[0]).value, ReadString(rest[1]).value), 2))
    else if w == "LARGER" then
      if |rest| < 1 || Utf8.Decode(rest[0]).None? || ReadDecimal(Utf8.Decode(rest[0]).value).None? then None
      else Some((Larger(ReadDecimal(Utf8.Decode(rest[0]).value).value), 1))
    else if w == "ALL" then Some((All, 0))
    else None
  }

  function ReadKeys(tokens: seq<Token>): Option<seq<Key>> {
    if tokens == [] then Some([])
    else
      var w := Utf8.Decode(tokens[0]);
      if w.None? then None
      else
        var key := ReadKey(w.value, tokens[1..]);
        if key.None? || key.value.1 > |tokens| - 1 then None
        else
          var more := ReadKeys(tokens[1 + key.value.1..]);
          if more.None? then None else Some([key.value.0] + more.value)
  }

  /** The server's reading of a whole line. */
  function ReadSearch(line: seq<Byte>): Option<seq<Key>> {
    match Tokenise(line)
    case None => None
    case Some(tokens) => ReadKeys(tokens)
  }

  /** The keys the client makes. */
  predicate Known(k: Key) {
    match k
    case Text(field, _) => TextField(field)
    case When(field, _) => DateField(field)
    case Flag(name) => FlagName(name)
    case Header(name, _) => name == "Content-Type"
    case Larger(_) => true
    case All => true
  }

  /** What the grammar has a form for: a year of four digits, a size that is not negative. */
  predicate Expressible(k: Key) {
    match k
    case When(_, date) => date.year >= 1000
    case Larger(size) => size >= 0
    case _ => true
  }

  lemma StringReads(value: string)
    requires Quoted(value).Some?
    ensures ReadString(Quoted(value).value) == Some(value)
  {
    hide ParseQuoted;
    hide Utf8.Decode;
    QuotedRoundTrip(value, []);
    assert Quoted(value).value + [] == Quoted(value).value;
    hide Quoted;
  }

  lemma NumberReads(n: int)
    ensures ReadDecimal(Number(n)) == if n >= 0 then Some(n) else None
  {
    if n >= 0 {
      DecimalReads(n);
    } else {
      DecimalReads(-n);
      SignFails(Decimal(-n));
    }
  }

  lemma {:induction false} SignFails(s: string)
    requires forall i :: 0 <= i < |s| ==> IsDigit(s[i])
    ensures ReadDecimal("-" + s).None?
  {
    if s == "" {
      assert "-" + s == "-";
    } else {
      assert ("-" + s)[..|s|] == "-" + s[..|s| - 1];
      SignFails(s[..|s| - 1]);
    }
  }

  lemma WordReads(w: string)
    ensures Utf8.Decode(Word(w)) == Some(w)
  {
    Utf8.RoundTrip(w);
  }

  /** The word a key starts with. */
  function FirstWord(k: Key): string {
    match k
    case Text(field, _) => field
    case When(field, _) => field
    case Flag(name) => name
    case Header(_, _) => "HEADER"
    case Larger(_) => "LARGER"
    case All => "ALL"
  }

  lemma KeyReads(k: Key, more: seq<Token>)
    requires Known(k) && KeyTokens(k).Some?
    ensures var ts := KeyTokens(k).value;
            && ts != [] && ts[0] == Word(FirstWord(k))
            && ReadKey(FirstWord(k), ts[1..] + more) == if Expressible(k) then Some((k, |ts| - 1)) else None
  {
    hide Word;
    hide Quoted;
    hide ReadString;
    hide ReadDate;
    hide ReadDecimal;
    hide ImapDate;
    hide Number;
    hide Utf8.Decode;
    match k {
      case Text(_, value) => StringReads(value);
      case When(_, date) => DateReads(date); WordReads(ImapDate(date));
      case Header(name, value) => StringReads(value); WordReads(name);
      case Larger(size) => NumberReads(size); WordReads(Number(size));
      case _ =>
    }
  }

  predicate AllKnown(ks: seq<Key>) {
    forall i :: 0 <= i < |ks| ==> Known(ks[i])
  }

  predicate AllExpressible(ks: seq<Key>) {
    forall i :: 0 <= i < |ks| ==> Expressible(ks[i])
  }

  lemma FirstTokens(ks: seq<Key>)
    requires ks != []
    ensures TokensOf(ks) == Both(KeyTokens(ks[0]), TokensOf(ks[1..]))
  {
    hide KeyTokens;
    assert ks == [ks[0]] + ks[1..];
    TokensConcat([ks[0]], ks[1..]);
    OneKey(true, ks[0]);
  }

  /** Keys are read back one by one, or not at all if one of them cannot be expressed. */
  lemma {:induction false} KeysRead(ks: seq<Key>)
    requires AllKnown(ks) && TokensOf(ks).Some?
    ensures ReadKeys(TokensOf(ks).value) == if AllExpressible(ks) then Some(ks) else None
  {
    hide TokensOf;
    hide KeyTokens;
    if ks == [] {
      NothingAsked();
    } else {
      FirstTokens(ks);
      KeysRead(ks[1..]);
      ReadStep(ks[0], TokensOf(ks[1..]).value);
      assert ks == [ks[0]] + ks[1..];
      assert AllExpressible(ks) <==> Expressible(ks[0]) && AllExpressible(ks[1..]);
      hide ReadKeys;
    }
  }

  lemma NothingAsked()
    ensures TokensOf([]) == Some([])
  {
  }

  lemma ReadStep(k: Key, more: seq<Token>)
    requires Known(k) && KeyTokens(k).Some?
    ensures ReadKeys(KeyTokens(k).value + more) ==
              if !Expressible(k) || ReadKeys(more).None? then None else Some([k] + ReadKeys(more).value)
  {
    hide ReadKey;
    hide KeyTokens;
    hide Word;
    KeyReads(k, more);
    WordReads(FirstWord(k));
    var ts := KeyTokens(k).value;
    assert (ts + more)[1..] == ts[1..] + more;
    assert (ts + more)[|ts|..] == more;
  }

  // --- the tokens are tokens ---------------------------------------------------------------

  predicate Visible(c: char) {
    32 < c as int < 127 && c != '"'
  }

  predicate AllVisible(w: string) {
    w != "" && forall i :: 0 <= i < |w| ==> Visible(w[i])
  }

  lemma {:induction false} WordIsAtom(w: string)
    requires AllVisible(w)
    ensures IsAtom(Word(w))
  {
    assert Utf8.EncodeChar(w[0]) == [w[0] as int];
    if |w| == 1 {
      assert w == [w[0]];
      EncodeOne(w[0]);
    } else {
      WordIsAtom(w[1..]);
    }
  }

  lemma DecimalVisible(n: nat)
    ensures AllVisible(Decimal(n))
  {
    DecimalReads(n);
    hide Decimal;
    hide ReadDecimal;
    assert |Decimal(n)| > 0 by { DecimalNotEmpty(n); }
  }

  lemma DecimalNotEmpty(n: nat)
    ensures Decimal(n) != ""
  {
  }

  lemma NumberVisible(n: int)
    ensures AllVisible(Number(n))
  {
    hide Decimal;
    DecimalVisible(if n < 0 then -n else n);
  }

  lemma DateVisible(d: Date)
    ensures AllVisible(ImapDate(d))
  {
    hide Decimal;
    DecimalVisible(d.year);
    MonthVisible(d.month);
    var s := ImapDate(d);
    var head := [Digit(d.day / 10), Digit(d.day % 10), '-'];
    assert AllVisible(head);
    VisibleBoth(head, MONTHS[d.month - 1]);
    VisibleBoth(head + MONTHS[d.month - 1], "-");
    VisibleBoth(head + MONTHS[d.month - 1] + "-", Decimal(d.year));
    hide MONTHS;
    hide AllVisible;
  }

  lemma MonthVisible(m: Month)
    ensures AllVisible(MONTHS[m - 1])
  {
  }

  lemma VisibleBoth(a: string, b: string)
    requires AllVisible(a) && AllVisible(b)
    ensures AllVisible(a + b)
  {
  }

  lemma QuotedIsQuoted(value: string)
    requires Quoted(value).Some?
    ensures IsQuoted(Quoted(value).value)
  {
    hide ParseQuoted;
    hide Utf8.Decode;
    QuotedRoundTrip(value, []);
    assert Quoted(value).value + [] == Quoted(value).value;
    hide Quoted;
  }

  lemma FieldVisible(w: string)
    ensures TextField(w) || DateField(w) ==> AllVisible(w)
  {
  }

  lemma FlagVisible(w: string)
    ensures FlagName(w) ==> AllVisible(w)
  {
  }

  lemma OthersVisible()
    ensures AllVisible("HEADER") && AllVisible("LARGER") && AllVisible("ALL") && AllVisible("Content-Type")
  {
  }

  lemma FirstWordVisible(k: Key)
    requires Known(k)
    ensures AllVisible(FirstWord(k))
    ensures k.Header? ==> AllVisible(k.name)
  {
    hide AllVisible;
    FieldVisible(FirstWord(k));
    FlagVisible(FirstWord(k));
    OthersVisible();
  }

  ghost predicate AllWellFormed(ts: seq<Token>) {
    forall i :: 0 <= i < |ts| ==> WellFormed(ts[i])
  }

  lemma KeyWellFormed(k: Key)
    requires Known(k) && KeyTokens(k).Some?
    ensures AllWellFormed(KeyTokens(k).value)
  {
    hide AllVisible;
    hide Word;
    hide IsAtom;
    hide IsQuoted;
    hide Quoted;
    hide ImapDate;
    hide Number;
    FirstWordVisible(k);
    WordIsAtom(FirstWord(k));
    match k {
      case Text(_, value) => QuotedIsQuoted(value);
      case When(_, date) => DateVisible(date); WordIsAtom(ImapDate(date));
      case Header(name, value) => QuotedIsQuoted(value); WordIsAtom(name);
      case Larger(size) => NumberVisible(size); WordIsAtom(Number(size));
      case _ =>
    }
  }

  lemma {:induction false} TokensWellFormed(ks: seq<Key>)
    requires AllKnown(ks) && TokensOf(ks).Some?
    ensures AllWellFormed(TokensOf(ks).value) && (ks != [] ==> TokensOf(ks).value != [])
  {
    hide KeyTokens;
    hide WellFormed;
    if ks != [] {
      var n := |ks| - 1;
      TokensWellFormed(ks[..n]);
      KeyWellFormed(ks[n]);
      KeyReads(ks[n], []);
    }
  }

  lemma TextKeysKnown(f: Filters)
    ensures AllKnown(TextKeys(f))
  {
    var a := Asked(f.sender != "", Text("FROM", f.sender));
    var b := Asked(f.recipient != "", Text("TO", f.recipient));
    var c := Asked(f.subject != "", Text("SUBJECT", f.subject));
    var d := Asked(f.body != "", Text("BODY", f.body));
    var e := Asked(f.query != "", Text("TEXT", f.query));
    assert AllKnown(a) && AllKnown(b) && AllKnown(c) && AllKnown(d) && AllKnown(e);
    hide AllKnown;
    hide Asked;
    KnownBoth(a, b);
    KnownBoth(a + b, c);
    KnownBoth(a + b + c, d);
    KnownBoth(a + b + c + d, e);
  }

  lemma FlagKeysKnown(f: Filters)
    ensures AllKnown(FlagKeys(f))
  {
    var a, b, c := FlagAsked(f.unread, "UNSEEN", "SEEN"), FlagAsked(f.flagged, "FLAGGED", "UNFLAGGED"), FlagAsked(f.answered, "ANSWERED", "UNANSWERED");
    assert AllKnown(a) && AllKnown(b) && AllKnown(c);
    hide AllKnown;
    hide FlagAsked;
    KnownBoth(a, b);
    KnownBoth(a + b, c);
  }

  lemma KeysAreKnown(f: Filters)
    ensures AllKnown(KeysOf(f))
  {
    hide TextKeys;
    hide FlagKeys;
    TextKeysKnown(f);
    FlagKeysKnown(f);
    var dates, last := DateAsked("SINCE", f.since) + DateAsked("BEFORE", f.before), LastKeys(f);
    assert AllKnown(dates) && AllKnown(last);
    hide AllKnown;
    hide DateAsked;
    hide LastKeys;
    KnownBoth(TextKeys(f), dates);
    KnownBoth(TextKeys(f) + dates, FlagKeys(f));
    KnownBoth(TextKeys(f) + dates + FlagKeys(f), last);
  }

  lemma KnownBoth(a: seq<Key>, b: seq<Key>)
    requires AllKnown(a) && AllKnown(b)
    ensures AllKnown(a + b)
  {
  }

  // --- the search arrives ----------------------------------------------------------------------

  /** What the client asks for: the filters' keys, or everything. */
  function Meant(f: Filters): seq<Key> {
    if KeysOf(f) == [] then [All] else KeysOf(f)
  }

  /** Filters are refused exactly when a value holds a control character. Otherwise the tokens
      are one line, which a server takes apart into the same tokens and reads as the search
      that was meant; and it cannot read it exactly when a year has not four digits or a size
      is negative. */
  lemma SearchArrives(f: Filters)
    ensures Criteria(f).Some? <==> forall k :: k in KeysOf(f) ==> KeyTokens(k).Some?
    ensures Criteria(f).Some? ==>
              var line := Join(Criteria(f).value);
              && OneLine(line)
              && Tokenise(line) == Criteria(f)
              && ReadSearch(line) == if AllExpressible(Meant(f)) then Some(Meant(f)) else None
  {
    hide KeysOf;
    hide KeyTokens;
    hide Tokenise;
    hide ReadKeys;
    hide Join;
    hide WellFormed;
    hide AllExpressible;
    hide AllKnown;
    KeysAreKnown(f);
    CriteriaIs(f);
    Refusals(KeysOf(f));
    if Criteria(f).Some? {
      MeantKnown(f);
      TokensWellFormed(Meant(f));
      TokeniseJoin(Criteria(f).value);
      JoinOneLine(Criteria(f).value);
      KeysRead(Meant(f));
    }
    hide Criteria;
    hide Meant;
    hide TokensOf;
    hide OneLine;
  }

  lemma MeantKnown(f: Filters)
    requires AllKnown(KeysOf(f))
    ensures AllKnown(Meant(f)) && Meant(f) != []
  {
    hide KeysOf;
  }

  lemma CriteriaIs(f: Filters)
    ensures Criteria(f) == TokensOf(Meant(f))
  {
    hide KeysOf;
    hide KeyTokens;
    KeysAreKnown(f);
    NothingAsked();
    OneKey(true, All);
    AllToken();
    if KeysOf(f) != [] && TokensOf(KeysOf(f)).Some? {
      TokensWellFormed(KeysOf(f));
    }
    hide TokensOf;
  }

  lemma AllToken()
    ensures KeyTokens(All) == Some([Word("ALL")])
  {
  }

  lemma {:induction false} Refusals(ks: seq<Key>)
    ensures TokensOf(ks).Some? <==> forall k :: k in ks ==> KeyTokens(k).Some?
  {
    hide KeyTokens;
    if ks != [] {
      var n := |ks| - 1;
      Refusals(ks[..n]);
      assert ks == ks[..n] + [ks[n]];
    }
  }

  const NOTHING := Filters("", "", "", "", "", None, None, None, None, None, false, 0)

  /** Searches the client sends and no server can read: since a date before the year 1000,
      and larger than a negative size. */
  lemma UnreadableSearches(day: Date, size: int)
    requires day.year < 1000 && size < 0
    ensures var f := NOTHING.(since := Some(day));
            Criteria(f).Some? && ReadSearch(Join(Criteria(f).value)) == None
    ensures var f := NOTHING.(largerThan := size);
            Criteria(f).Some? && ReadSearch(Join(Criteria(f).value)) == None
  {
    hide Criteria;
    hide Join;
    hide ReadSearch;
    hide ImapDate;
    hide Number;
    var dated, sized := NOTHING.(since := Some(day)), NOTHING.(largerThan := size);
    assert KeysOf(dated) == [When("SINCE", day)];
    assert KeysOf(sized) == [Larger(size)];
    SearchArrives(dated);
    SearchArrives(sized);
    assert !Expressible(Meant(dated)[0]) && !Expressible(Meant(sized)[0]);
    hide KeysOf;
  }
}
