/** The search a server is asked for: from the filters of a call to the tokens sent, and back
    from the line the server reads to the search keys it stands for (RFC 3501 section 6.4.4).
  */
module SearchCriteria {
  import opened Prelude
  import opened ImapQuoting
  import opened SearchLine
  import Utf8

  type Day = d: int | 1 <= d <= 31 witness 1
  type Month = m: int | 1 <= m <= 12 witness 1
  type Year = y: int | 1 <= y <= 9999 witness 1970

  datatype Date = Date(year: Year, month: Month, day: Day)

  const MONTHS: seq<string> := ["Jan", "Feb", "Mar", "Apr", "May", "Jun", "Jul", "Aug", "Sep", "Oct", "Nov", "Dec"]

  function Digit(n: int): char
    requires 0 <= n < 10
  {
    ('0' as int + n) as char
  }

  function Decimal(n: nat): string {
    if n < 10 then [Digit(n)] else Decimal(n / 10) + [Digit(n % 10)]
  }

  /** `str(n)`. */
  function Number(n: int): string {
    if n < 0 then "-" + Decimal(-n) else Decimal(n)
  }

  /** `imap_date` of a date: `01-Jan-2024`. */
  function ImapDate(d: Date): string {
    [Digit(d.day / 10), Digit(d.day % 10), '-'] + MONTHS[d.month - 1] + "-" + Decimal(d.year)
  }

  /** The filters a call names; "", None, false and 0 ask for nothing. */
  datatype Filters = Filters(
    query: string, sender: string, recipient: string, subject: string, body: string,
    since: Option<Date>, before: Option<Date>,
    unread: Option<bool>, flagged: Option<bool>, answered: Option<bool>,
    hasAttachment: bool, largerThan: int)

  /** A search key; all keys of a search must hold of a message. */
  datatype Key =
    | Text(field: string, value: string)
    | When(field: string, date: Date)
    | Flag(name: string)
    | Header(name: string, value: string)
    | Larger(size: int)
    | All

  function Asked(wanted: bool, k: Key): seq<Key> {
    if wanted then [k] else []
  }

  function FlagAsked(wanted: Option<bool>, yes: string, no: string): seq<Key> {
    match wanted
    case None => []
    case Some(w) => [Flag(if w then yes else no)]
  }

  function DateAsked(field: string, date: Option<Date>): seq<Key> {
    if date.Some? then [When(field, date.value)] else []
  }

  function TextKeys(f: Filters): seq<Key> {
    Asked(f.sender != "", Text("FROM", f.sender))
    + Asked(f.recipient != "", Text("TO", f.recipient))
    + Asked(f.subject != "", Text("SUBJECT", f.subject))
    + Asked(f.body != "", Text("BODY", f.body))
    + Asked(f.query != "", Text("TEXT", f.query))
  }

  function FlagKeys(f: Filters): seq<Key> {
    FlagAsked(f.unread, "UNSEEN", "SEEN")
    + FlagAsked(f.flagged, "FLAGGED", "UNFLAGGED")
    + FlagAsked(f.answered, "ANSWERED", "UNANSWERED")
  }

  function LastKeys(f: Filters): seq<Key> {
    Asked(f.hasAttachment, Header("Content-Type", "multipart/mixed"))
    + Asked(f.largerThan != 0, Larger(f.largerThan))
  }

  /** What the filters mean. */
  function KeysOf(f: Filters): seq<Key> {
    TextKeys(f) + (DateAsked("SINCE", f.since) + DateAsked("BEFORE", f.before)) + FlagKeys(f) + LastKeys(f)
  }

  function Word(w: string): Token {
    Utf8.Encode(w)
  }

  /** The tokens of one key; None is the error on a control character. */
  function KeyTokens(k: Key): Option<seq<Token>> {
    match k
    case Text(field, value) => var q := Quoted(value); if q.None? then None else Some([Word(field), q.value])
    case When(field, date) => Some([Word(field), Word(ImapDate(date))])
    case Flag(name) => Some([Word(name)])
    case Header(name, value) => var q := Quoted(value); if q.None? then None else Some([Word("HEADER"), Word(name), q.value])
    case Larger(size) => Some([Word("LARGER"), Word(Number(size))])
    case All => Some([Word("ALL")])
  }

  function Both(a: Option<seq<Token>>, b: Option<seq<Token>>): Option<seq<Token>> {
    if a.None? || b.None? then None else Some(a.value + b.value)
  }

  function TokensOf(ks: seq<Key>): Option<seq<Token>> {
    if ks == [] then Some([]) else Both(TokensOf(ks[..|ks| - 1]), KeyTokens(ks[|ks| - 1]))
  }

  function Criteria(f: Filters): Option<seq<Token>> {
    var tokens := TokensOf(KeysOf(f));
    if tokens == Some([]) then Some([Word("ALL")]) else tokens
  }

  lemma {:induction false} TokensConcat(a: seq<Key>, b: seq<Key>)
    ensures TokensOf(a + b) == Both(TokensOf(a), TokensOf(b))
  {
    hide KeyTokens;
    if b == [] {
      assert a + b == a;
      assert TokensOf(a).Some? ==> TokensOf(a).value + [] == TokensOf(a).value;
    } else {
      var n := |b| - 1;
      TokensConcat(a, b[..n]);
      assert (a + b)[..|a + b| - 1] == a + b[..n];
      BothAssociates(TokensOf(a), TokensOf(b[..n]), KeyTokens(b[n]));
    }
  }

  lemma BothAssociates(a: Option<seq<Token>>, b: Option<seq<Token>>, c: Option<seq<Token>>)
    ensures Both(Both(a, b), c) == Both(a, Both(b, c))
  {
    if a.Some? && b.Some? && c.Some? {
      assert (a.value + b.value) + c.value == a.value + (b.value + c.value);
    }
  }

  lemma OneKey(wanted: bool, k: Key)
    ensures TokensOf(Asked(wanted, k)) == if wanted then KeyTokens(k) else Some([])
  {
    hide KeyTokens;
    if wanted {
      assert [k][..0] == [];
      assert KeyTokens(k).Some? ==> [] + KeyTokens(k).value == KeyTokens(k).value;
    }
  }

  /** A value in quotes after its field, if there is a value. */
  method AddText(criteria: seq<Token>, field: string, value: string) returns (r: Option<seq<Token>>)
    ensures r == Both(Some(criteria), TokensOf(Asked(value != "", Text(field, value))))
  {
    hide Quoted;
    hide Word;
    hide TokensOf;
    hide Asked;
    OneKey(value != "", Text(field, value));
    r := Some(criteria);
    if value == "" {
      assert criteria + [] == criteria;
    } else {
      var q := Quoted(value);
      r := if q.None? then None else Some(criteria + [Word(field), q.value]);
    }
  }

  method AddTexts(f: Filters) returns (r: Option<seq<Token>>)
    ensures r == TokensOf(TextKeys(f))
  {
    hide TokensOf;
    hide Asked;
    TextTokens(f);
    var criteria := AddText([], "FROM", f.sender);
    if criteria.Some? {
      criteria := AddText(criteria.value, "TO", f.recipient);
    }
    if criteria.Some? {
      criteria := AddText(criteria.value, "SUBJECT", f.subject);
    }
    if criteria.Some? {
      criteria := AddText(criteria.value, "BODY", f.body);
    }
    if criteria.Some? {
      criteria := AddText(criteria.value, "TEXT", f.query);
    }
    r := criteria;
    hide TextKeys;
  }

  lemma TextTokens(f: Filters)
    ensures TokensOf(TextKeys(f)) ==
              Both(Both(Both(Both(Both(Some([]),
                TokensOf(Asked(f.sender != "", Text("FROM", f.sender)))),
                TokensOf(Asked(f.recipient != "", Text("TO", f.recipient)))),
                TokensOf(Asked(f.subject != "", Text("SUBJECT", f.subject)))),
                TokensOf(Asked(f.body != "", Text("BODY", f.body)))),
                TokensOf(Asked(f.query != "", Text("TEXT", f.query))))
  {
    hide TokensOf;
    hide Asked;
    var a := Asked(f.sender != "", Text("FROM", f.sender));
    var b := Asked(f.recipient != "", Text("TO", f.recipient));
    var c := Asked(f.subject != "", Text("SUBJECT", f.subject));
    var d := Asked(f.body != "", Text("BODY", f.body));
    TokensConcat(a, b);
    TokensConcat(a + b, c);
    TokensConcat(a + b + c, d);
    TokensConcat(a + b + c + d, Asked(f.query != "", Text("TEXT", f.query)));
    assert TokensOf(a).Some? ==> [] + TokensOf(a).value == TokensOf(a).value;
  }

  method AddDates(f: Filters, criteria: seq<Token>) returns (r: seq<Token>)
    ensures Some(r) == Both(Some(criteria), TokensOf(DateAsked("SINCE", f.since) + DateAsked("BEFORE", f.before)))
  {
    hide Word;
    hide ImapDate;
    TokensConcat(DateAsked("SINCE", f.since), DateAsked("BEFORE", f.before));
    DateTokens("SINCE", f.since);
    DateTokens("BEFORE", f.before);
    hide TokensOf;
    hide DateAsked;
    r := criteria;
    if f.since.Some? {
      r := r + [Word("SINCE"), Word(ImapDate(f.since.value))];
    }
    if f.before.Some? {
      r := r + [Word("BEFORE"), Word(ImapDate(f.before.value))];
    }
    assert r == criteria + TokensOf(DateAsked("SINCE", f.since) + DateAsked("BEFORE", f.before)).value;
  }

  lemma DateTokens(field: string, date: Option<Date>)
    ensures TokensOf(DateAsked(field, date)) == Some(if date.Some? then [Word(field), Word(ImapDate(date.value))] else [])
  {
    hide Word;
    hide ImapDate;
    if date.Some? {
      OneKey(true, When(field, date.value));
    }
  }

  lemma FlagTokens(wanted: Option<bool>, yes: string, no: string)
    ensures TokensOf(FlagAsked(wanted, yes, no)) == Some(if wanted.Some? then [Word(if wanted.value then yes else no)] else [])
  {
    hide Word;
    if wanted.Some? {
      OneKey(true, Flag(if wanted.value then yes else no));
    }
  }

  method AddFlag(wanted: Option<bool>, yes: string, no: string, criteria: seq<Token>) returns (r: seq<Token>)
    ensures Some(r) == Both(Some(criteria), TokensOf(FlagAsked(wanted, yes, no)))
  {
    hide Word;
    hide TokensOf;
    hide FlagAsked;
    FlagTokens(wanted, yes, no);
    r := criteria;
    if wanted == Some(true) {
      r := r + [Word(yes)];
    } else if wanted == Some(false) {
      r := r + [Word(no)];
    } else {
      assert criteria + [] == criteria;
    }
  }

  method AddFlags(f: Filters, criteria: seq<Token>) returns (r: seq<Token>)
    ensures Some(r) == Both(Some(criteria), TokensOf(FlagKeys(f)))
  {
    hide TokensOf;
    hide FlagAsked;
    hide Both;
    var a, b := FlagAsked(f.unread, "UNSEEN", "SEEN"), FlagAsked(f.flagged, "FLAGGED", "UNFLAGGED");
    var c := FlagAsked(f.answered, "ANSWERED", "UNANSWERED");
    TokensConcat(a, b);
    TokensConcat(a + b, c);
    BothAssociates(Some(criteria), TokensOf(a), TokensOf(b));
    BothAssociates(Some(criteria), TokensOf(a + b), TokensOf(c));
    r := AddFlag(f.unread, "UNSEEN", "SEEN", criteria);
    r := AddFlag(f.flagged, "FLAGGED", "UNFLAGGED", r);
    r := AddFlag(f.answered, "ANSWERED", "UNANSWERED", r);
  }

  lemma ContentTypeIsClean()
    ensures Quoted("multipart/mixed").Some?
  {
    hide Escaped;
    assert Clean("multipart/mixed");
  }

  method AddLast(f: Filters, criteria: seq<Token>) returns (r: seq<Token>)
    ensures Some(r) == Both(Some(criteria), TokensOf(LastKeys(f)))
  {
    hide Word;
    hide Number;
    hide TokensOf;
    hide Quoted;
    hide Asked;
    ContentTypeIsClean();
    TokensConcat(Asked(f.hasAttachment, Header("Content-Type", "multipart/mixed")), Asked(f.largerThan != 0, Larger(f.largerThan)));
    OneKey(f.hasAttachment, Header("Content-Type", "multipart/mixed"));
    OneKey(f.largerThan != 0, Larger(f.largerThan));
    r := criteria;
    if f.hasAttachment {
      r := r + [Word("HEADER"), Word("Content-Type"), Quoted("multipart/mixed").value];
    }
    if f.largerThan != 0 {
      r := r + [Word("LARGER"), Word(Number(f.largerThan))];
    }
    assert r == criteria + TokensOf(LastKeys(f)).value;
  }

  /** `build_criteria` without `raw`. */
  method BuildCriteria(f: Filters) returns (r: Option<seq<Token>>)
    ensures r == Criteria(f)
  {
    hide Word;
    hide TokensOf;
    hide TextKeys;
    hide FlagKeys;
    hide LastKeys;
    hide DateAsked;
    var dates := DateAsked("SINCE", f.since) + DateAsked("BEFORE", f.before);
    TokensConcat(TextKeys(f), dates);
    TokensConcat(TextKeys(f) + dates, FlagKeys(f));
    TokensConcat(TextKeys(f) + dates + FlagKeys(f), LastKeys(f));
    var texts := AddTexts(f);
    if texts.None? {
      return None;
    }
    var criteria := AddDates(f, texts.value);
    criteria := AddFlags(f, criteria);
    criteria := AddLast(f, criteria);
    r := Some(if criteria == [] then [Word("ALL")] else criteria);
  }
}
