/** What a search finds: the keys sent hold of exactly the messages that the filters describe
    (RFC 3501 section 6.4.4).
  */
module SearchMeaning {
  import opened Prelude
  import opened ImapQuoting
  import opened SearchCriteria
  import opened SearchReader

  /** A message as a server searches it; `date` is the day it arrived. */
  datatype Letter = Letter(from: string, to: string, subject: string, body: string, whole: string,
                           contentType: string, date: Date, seen: bool, flagged: bool, answered: bool, size: int)

  /** How the server looks for one text in another. */
  type Finds = (string, string) -> bool

  predicate Earlier(a: Date, b: Date) {
    a.year < b.year || (a.year == b.year && (a.month < b.month || (a.month == b.month && a.day < b.day)))
  }

  /** The search key holds of the message. */
  predicate Holds(k: Key, m: Letter, finds: Finds) {
    match k
    case Text(field, value) =>
      (field == "FROM" ==> finds(m.from, value)) && (field == "TO" ==> finds(m.to, value))
      && (field == "SUBJECT" ==> finds(m.subject, value)) && (field == "BODY" ==> finds(m.body, value))
      && (field == "TEXT" ==> finds(m.whole, value))
    case When(field, date) =>
      (field == "SINCE" ==> !Earlier(m.date, date)) && (field == "BEFORE" ==> Earlier(m.date, date))
    case Flag(name) =>
      (name == "SEEN" ==> m.seen) && (name == "UNSEEN" ==> !m.seen)
      && (name == "FLAGGED" ==> m.flagged) && (name == "UNFLAGGED" ==> !m.flagged)
      && (name == "ANSWERED" ==> m.answered) && (name == "UNANSWERED" ==> !m.answered)
    case Header(name, value) => name == "Content-Type" ==> finds(m.contentType, value)
    case Larger(size) => m.size > size
    case All => true
  }

  ghost predicate AllHold(ks: seq<Key>, m: Letter, finds: Finds) {
    forall k :: k in ks ==> Holds(k, m, finds)
  }

  /** The message is one the filters ask for. */
  predicate Fits(f: Filters, m: Letter, finds: Finds) {
    && (f.sender != "" ==> finds(m.from, f.sender))
    && (f.recipient != "" ==> finds(m.to, f.recipient))
    && (f.subject != "" ==> finds(m.subject, f.subject))
    && (f.body != "" ==> finds(m.body, f.body))
    && (f.query != "" ==> finds(m.whole, f.query))
    && (f.since.Some? ==> !Earlier(m.date, f.since.value))
    && (f.before.Some? ==> Earlier(m.date, f.before.value))
    && (f.unread.Some? ==> m.seen != f.unread.value)
    && (f.flagged.Some? ==> m.flagged == f.flagged.value)
    && (f.answered.Some? ==> m.answered == f.answered.value)
    && (f.hasAttachment ==> finds(m.contentType, "multipart/mixed"))
    && (f.largerThan != 0 ==> m.size > f.largerThan)
  }

  lemma AllHoldBoth(a: seq<Key>, b: seq<Key>, m: Letter, finds: Finds)
    ensures AllHold(a + b, m, finds) <==> AllHold(a, m, finds) && AllHold(b, m, finds)
  {
    hide Holds;
    assert forall k :: k in a + b <==> k in a || k in b;
  }

  lemma AskedHolds(wanted: bool, k: Key, m: Letter, finds: Finds)
    ensures AllHold(Asked(wanted, k), m, finds) <==> (wanted ==> Holds(k, m, finds))
  {
    hide Holds;
    if wanted {
      assert k in Asked(wanted, k);
    }
  }

  lemma TextsHold(f: Filters, m: Letter, finds: Finds)
    ensures AllHold(TextKeys(f), m, finds) <==>
            && (f.sender != "" ==> finds(m.from, f.sender))
            && (f.recipient != "" ==> finds(m.to, f.recipient))
            && (f.subject != "" ==> finds(m.subject, f.subject))
            && (f.body != "" ==> finds(m.body, f.body))
            && (f.query != "" ==> finds(m.whole, f.query))
  {
    var a, b := Asked(f.sender != "", Text("FROM", f.sender)), Asked(f.recipient != "", Text("TO", f.recipient));
    var c, d := Asked(f.subject != "", Text("SUBJECT", f.subject)), Asked(f.body != "", Text("BODY", f.body));
    var e := Asked(f.query != "", Text("TEXT", f.query));
    AskedHolds(f.sender != "", Text("FROM", f.sender), m, finds);
    AskedHolds(f.recipient != "", Text("TO", f.recipient), m, finds);
    AskedHolds(f.subject != "", Text("SUBJECT", f.subject), m, finds);
    AskedHolds(f.body != "", Text("BODY", f.body), m, finds);
    AskedHolds(f.query != "", Text("TEXT", f.query), m, finds);
    hide AllHold, Asked;
    AllHoldBoth(a, b, m, finds);
    AllHoldBoth(a + b, c, m, finds);
    AllHoldBoth(a + b + c, d, m, finds);
    AllHoldBoth(a + b + c + d, e, m, finds);
  }

  lemma FlagHolds(wanted: Option<bool>, yes: string, no: string, m: Letter, finds: Finds)
    ensures AllHold(FlagAsked(wanted, yes, no), m, finds) <==>
            (wanted.Some? ==> Holds(Flag(if wanted.value then yes else no), m, finds))
  {
    hide Holds;
    if wanted.Some? {
      var k := Flag(if wanted.value then yes else no);
      assert k in FlagAsked(wanted, yes, no);
    }
  }

  lemma FlagsHold(f: Filters, m: Letter, finds: Finds)
    ensures AllHold(FlagKeys(f), m, finds) <==>
            && (f.unread.Some? ==> m.seen != f.unread.value)
            && (f.flagged.Some? ==> m.flagged == f.flagged.value)
            && (f.answered.Some? ==> m.answered == f.answered.value)
  {
    var a, b := FlagAsked(f.unread, "UNSEEN", "SEEN"), FlagAsked(f.flagged, "FLAGGED", "UNFLAGGED");
    var c := FlagAsked(f.answered, "ANSWERED", "UNANSWERED");
    FlagHolds(f.unread, "UNSEEN", "SEEN", m, finds);
    FlagHolds(f.flagged, "FLAGGED", "UNFLAGGED", m, finds);
    FlagHolds(f.answered, "ANSWERED", "UNANSWERED", m, finds);
    hide AllHold, FlagAsked;
    AllHoldBoth(a, b, m, finds);
    AllHoldBoth(a + b, c, m, finds);
  }

  lemma DateHolds(field: string, date: Option<Date>, m: Letter, finds: Finds)
    ensures AllHold(DateAsked(field, date), m, finds) <==> (date.Some? ==> Holds(When(field, date.value), m, finds))
  {
    hide Holds;
    if date.Some? {
      assert When(field, date.value) in DateAsked(field, date);
    }
  }

  lemma LastHold(f: Filters, m: Letter, finds: Finds)
    ensures AllHold(LastKeys(f), m, finds) <==>
            && (f.hasAttachment ==> finds(m.contentType, "multipart/mixed"))
            && (f.largerThan != 0 ==> m.size > f.largerThan)
  {
    var header := Header("Content-Type", "multipart/mixed");
    AskedHolds(f.hasAttachment, header, m, finds);
    AskedHolds(f.largerThan != 0, Larger(f.largerThan), m, finds);
    hide AllHold, Asked;
    AllHoldBoth(Asked(f.hasAttachment, header), Asked(f.largerThan != 0, Larger(f.largerThan)), m, finds);
  }

  /** However the server compares texts: what the keys hold of is what the filters ask for. */
  lemma SearchMeans(f: Filters, m: Letter, finds: Finds)
    ensures AllHold(Meant(f), m, finds) <==> Fits(f, m, finds)
  {
    TextsHold(f, m, finds);
    FlagsHold(f, m, finds);
    LastHold(f, m, finds);
    DateHolds("SINCE", f.since, m, finds);
    DateHolds("BEFORE", f.before, m, finds);
    hide AllHold, TextKeys, FlagKeys, LastKeys, DateAsked;
    var dates := DateAsked("SINCE", f.since) + DateAsked("BEFORE", f.before);
    AllHoldBoth(DateAsked("SINCE", f.since), DateAsked("BEFORE", f.before), m, finds);
    AllHoldBoth(TextKeys(f), dates, m, finds);
    AllHoldBoth(TextKeys(f) + dates, FlagKeys(f), m, finds);
    AllHoldBoth(TextKeys(f) + dates + FlagKeys(f), LastKeys(f), m, finds);
    NothingHolds(f, m, finds);
  }

  lemma NothingHolds(f: Filters, m: Letter, finds: Finds)
    ensures KeysOf(f) == [] ==> AllHold(Meant(f), m, finds) && AllHold(KeysOf(f), m, finds)
  {
    hide KeysOf;
  }

  /** No control character but the tab, which cannot end the command line. */
  predicate Harmless(value: string) {
    forall c :: c in value ==> c >= ' ' || c == '\t'
  }

  lemma HarmlessIff(value: string)
    ensures Quoted(value).Some? <==> Harmless(value)
  {
    hide Escaped;
    if Clean(value) {
      forall c | c in value ensures c >= ' ' || c == '\t' {
        var i :| 0 <= i < |value| && value[i] == c;
      }
    } else {
      var i :| 0 <= i < |value| && Control(value[i]);
      assert value[i] in value;
    }
  }

  ghost predicate Sendable(ks: seq<Key>) {
    forall k :: k in ks ==> KeyTokens(k).Some?
  }

  lemma SendableBoth(a: seq<Key>, b: seq<Key>)
    ensures Sendable(a + b) <==> Sendable(a) && Sendable(b)
  {
    hide KeyTokens;
    assert forall k :: k in a + b <==> k in a || k in b;
  }

  lemma TextSendable(field: string, value: string)
    ensures Sendable(Asked(value != "", Text(field, value))) <==> Harmless(value)
  {
    HarmlessIff(value);
    hide Quoted;
    if value != "" {
      assert Text(field, value) in Asked(value != "", Text(field, value));
    }
  }

  lemma TextsSendable(f: Filters)
    ensures Sendable(TextKeys(f)) <==>
            Harmless(f.sender) && Harmless(f.recipient) && Harmless(f.subject) && Harmless(f.body) && Harmless(f.query)
  {
    var a, b := Asked(f.sender != "", Text("FROM", f.sender)), Asked(f.recipient != "", Text("TO", f.recipient));
    var c, d := Asked(f.subject != "", Text("SUBJECT", f.subject)), Asked(f.body != "", Text("BODY", f.body));
    TextSendable("FROM", f.sender);
    TextSendable("TO", f.recipient);
    TextSendable("SUBJECT", f.subject);
    TextSendable("BODY", f.body);
    TextSendable("TEXT", f.query);
    hide Sendable, Asked, Harmless;
    SendableBoth(a, b);
    SendableBoth(a + b, c);
    SendableBoth(a + b + c, d);
    SendableBoth(a + b + c + d, Asked(f.query != "", Text("TEXT", f.query)));
  }

  lemma OthersSendable(f: Filters)
    ensures Sendable(DateAsked("SINCE", f.since) + DateAsked("BEFORE", f.before))
    ensures Sendable(FlagKeys(f)) && Sendable(LastKeys(f))
  {
    ContentTypeIsClean();
    hide Quoted, Word;
  }

  /** The filters are refused exactly when a text among them holds a control character. */
  lemma RefusedIff(f: Filters)
    ensures Criteria(f).None? <==>
            !(Harmless(f.sender) && Harmless(f.recipient) && Harmless(f.subject) && Harmless(f.body) && Harmless(f.query))
  {
    hide Criteria, Harmless, TextKeys, FlagKeys, LastKeys, DateAsked;
    SearchArrives(f);
    TextsSendable(f);
    OthersSendable(f);
    var dates := DateAsked("SINCE", f.since) + DateAsked("BEFORE", f.before);
    assert Criteria(f).Some? <==> Sendable(KeysOf(f));
    hide Sendable;
    SendableBoth(TextKeys(f), dates);
    SendableBoth(TextKeys(f) + dates, FlagKeys(f));
    SendableBoth(TextKeys(f) + dates + FlagKeys(f), LastKeys(f));
  }
}
