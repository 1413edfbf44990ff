/** The connections of the gateway and the mailboxes and calendars each one serves. Every
    change of what a connection serves moves its revision on.
  */
module AccountStore {
  import opened Prelude
  import OAuthStore

  /** Mailbox and calendar ids carry different prefixes, so they never coincide. */
  datatype AccountId = Box(n: nat) | Cal(n: nat)

  /** `created` is 0 and a secret "" where the source has none. */
  datatype Account = Account(id: AccountId, created: int, secret: string, oauthSecret: string, xoauth2: bool, settings: string)

  // --- what one connection serves ---------------------------------------------------------

  function Position(items: seq<Account>, id: AccountId): (i: nat)
    ensures i <= |items|
    ensures i < |items| ==> items[i].id == id
    ensures forall j :: 0 <= j < i ==> items[j].id != id
  {
    if items == [] || items[0].id == id then 0 else Position(items[1..], id) + 1
  }

  /** Either the mailboxes or the calendars, in the order they were added, and the default. */
  datatype Shelf = Shelf(items: seq<Account>, chosen: Option<AccountId>) {

    predicate Has(id: AccountId) {
      Position(items, id) < |items|
    }

    /** Under its id: in place if it is known, at the end otherwise. */
    function Put(a: Account): Shelf {
      var i := Position(items, a.id);
      this.(items := if i < |items| then items[i := a] else items + [a])
    }

    function Added(a: Account): Shelf {
      Put(a).(chosen := if chosen.None? then Some(a.id) else chosen)
    }

    /** Keeps the creation date, and each secret that is not given anew. */
    function Updated(a: Account): Option<Shelf> {
      var i := Position(items, a.id);
      if i == |items| then None
      else Some(Put(Merged(items[i], a)))
    }

    function Removed(id: AccountId): Option<Shelf> {
      var i := Position(items, id);
      if i == |items| then None
      else
        var left := items[..i] + items[i + 1..];
        Some(Shelf(left, if chosen != Some(id) then chosen else if left == [] then None else Some(left[0].id)))
    }

    function Chosen(id: AccountId): Option<Shelf> {
      if Has(id) then Some(this.(chosen := Some(id))) else None
    }

    /** No id twice, and a default exactly when there is something to choose. */
    ghost predicate Valid() {
      && (forall i, j :: 0 <= i < j < |items| ==> items[i].id != items[j].id)
      && (chosen.None? <==> items == [])
      && (chosen.Some? ==> Has(chosen.value))
    }
  }

  function Merged(current: Account, a: Account): Account {
    a.(created := if current.created != 0 then current.created else a.created,
       secret := if a.secret != "" then a.secret else current.secret,
       oauthSecret := if a.oauthSecret != "" then a.oauthSecret else if a.xoauth2 then current.oauthSecret else "")
  }

  type ConnectionId = nat
  type ClientId = string

  datatype Record = Record(connection: ConnectionId, client: ClientId, owner: string, title: string,
                           mail: Shelf, calendars: Shelf, revision: nat)

  datatype Change =
    | AddAccount(account: Account)
    | UpdateAccount(account: Account)
    | RemoveAccount(id: AccountId)
    | SetDefaultAccount(id: AccountId)
    | AddCalendar(calendar: Account)
    | RemoveCalendar(id: AccountId)
    | SetDefaultCalendar(id: AccountId)
    | Rename(title: string)

  function WithMail(r: Record, mail: Option<Shelf>): Option<Record> {
    if mail.None? then None else Some(r.(mail := mail.value, revision := r.revision + 1))
  }

  function WithCalendars(r: Record, calendars: Option<Shelf>): Option<Record> {
    if calendars.None? then None else Some(r.(calendars := calendars.value, revision := r.revision + 1))
  }

  function Changed(r: Record, change: Change): Option<Record> {
    match change
    case AddAccount(a) => WithMail(r, Some(r.mail.Added(a)))
    case UpdateAccount(a) => WithMail(r, r.mail.Updated(a))
    case RemoveAccount(id) => WithMail(r, r.mail.Removed(id))
    case SetDefaultAccount(id) => WithMail(r, r.mail.Chosen(id))
    case AddCalendar(a) => WithCalendars(r, Some(r.calendars.Added(a)))
    case RemoveCalendar(id) => WithCalendars(r, r.calendars.Removed(id))
    case SetDefaultCalendar(id) => WithCalendars(r, r.calendars.Chosen(id))
    case Rename(title) => Some(r.(title := title))
  }

  // --- all connections ---------------------------------------------------------------------

  function Where(cs: seq<Record>, id: ConnectionId): (i: nat)
    ensures i <= |cs|
    ensures i < |cs| ==> cs[i].connection == id
    ensures forall j :: 0 <= j < i ==> cs[j].connection != id
  {
    if cs == [] || cs[0].connection == id then 0 else Where(cs[1..], id) + 1
  }

  function ByClient(cs: seq<Record>, client: ClientId): (r: Option<Record>)
    ensures r.Some? ==> r.value in cs && r.value.client == client
    ensures r.None? ==> forall j :: 0 <= j < |cs| ==> cs[j].client != client
  {
    if cs == [] then None
    else if cs[0].client == client then Some(cs[0])
    else ByClient(cs[1..], client)
  }

  /** Nobody but the owner gets at a connection, when a caller is named. */
  predicate Barred(r: Record, caller: Option<string>) {
    caller.Some? && r.owner != caller.value
  }

  function Edited(cs: seq<Record>, id: ConnectionId, caller: Option<string>, change: Change): (seq<Record>, bool) {
    var i := Where(cs, id);
    if i == |cs| || Barred(cs[i], caller) then (cs, false)
    else
      var r := Changed(cs[i], change);
      if r.None? then (cs, false) else (cs[i := r.value], true)
  }

  function Deleted(cs: seq<Record>, id: ConnectionId, caller: Option<string>): (seq<Record>, bool) {
    var i := Where(cs, id);
    if i == |cs| || Barred(cs[i], caller) then (cs, false) else (cs[..i] + cs[i + 1..], true)
  }

  /** The codes and tokens that are left: none of the client whose connection goes. */
  function TokensLeft(tokens: OAuthStore.Store, cs: seq<Record>, id: ConnectionId, caller: Option<string>): OAuthStore.Store {
    var i := Where(cs, id);
    if i == |cs| || Barred(cs[i], caller) then tokens else tokens.DropClient(cs[i].client)
  }

  function NewRecord(connection: ConnectionId, client: ClientId, owner: string, title: string): Record {
    Record(connection, client, owner, title, Shelf([], None), Shelf([], None), 0)
  }

  class ConnectionStore {
    var connections: seq<Record>

    /** The codes and tokens of all clients. */
    const oauth: OAuthStore.ConnectionStore

    constructor (oauth: OAuthStore.ConnectionStore)
      ensures connections == [] && this.oauth == oauth
    {
      connections, this.oauth := [], oauth;
    }

    method CreateConnection(connection: ConnectionId, client: ClientId, owner: string, title: string)
      modifies this
      ensures connections == old(connections) + [NewRecord(connection, client, owner, title)]
    {
      connections := connections + [NewRecord(connection, client, owner, title)];
    }

    method Find(id: ConnectionId) returns (i: nat)
      ensures i == Where(connections, id)
    {
      i := 0;
      while i < |connections| && connections[i].connection != id
        invariant 0 <= i <= |connections|
        invariant Where(connections, id) == i + Where(connections[i..], id)
      {
        i := i + 1;
      }
    }

    method GetByClient(client: ClientId) returns (r: Option<Record>)
      ensures r == ByClient(connections, client)
    {
      var i := 0;
      while i < |connections|
        invariant 0 <= i <= |connections|
        invariant ByClient(connections, client) == ByClient(connections[i..], client)
      {
        if connections[i].client == client {
          return Some(connections[i]);
        }
        i := i + 1;
      }
      r := None;
    }

    method DeleteConnection(id: ConnectionId, caller: Option<string>) returns (done: bool)
      modifies this, oauth
      ensures (connections, done) == Deleted(old(connections), id, caller)
      ensures oauth.View() == TokensLeft(old(oauth.View()), old(connections), id, caller)
    {
      var i := Find(id);
      if i == |connections| || Barred(connections[i], caller) {
        return false;
      }
      var client := connections[i].client;
      connections := connections[..i] + connections[i + 1..];
      oauth.DropClient(client);
      done := true;
    }

    method RenameConnection(id: ConnectionId, title: string, caller: Option<string>) returns (done: bool)
      modifies this
      ensures (connections, done) == Edited(old(connections), id, caller, Rename(title))
    {
      var i := Find(id);
      if i == |connections| || Barred(connections[i], caller) {
        return false;
      }
      connections := connections[i := connections[i].(title := title)];
      done := true;
    }

    method AddAccount(id: ConnectionId, account: Account, caller: Option<string>) returns (done: bool)
      modifies this
      ensures (connections, done) == Edited(old(connections), id, caller, Change.AddAccount(account))
    {
      hide Position;
      hide Where;
      hide Barred;
      var i := Find(id);
      if i == |connections| || Barred(connections[i], caller) {
        return false;
      }
      var record := connections[i];
      var mail := record.mail.Put(account);
      if mail.chosen.None? {
        mail := mail.(chosen := Some(account.id));
      }
      connections := connections[i := record.(mail := mail, revision := record.revision + 1)];
      done := true;
    }

    method UpdateAccount(id: ConnectionId, account: Account, caller: Option<string>) returns (done: bool)
      modifies this
      ensures (connections, done) == Edited(old(connections), id, caller, Change.UpdateAccount(account))
    {
      hide Position;
      hide Where;
      hide Barred;
      var i := Find(id);
      if i == |connections| || Barred(connections[i], caller) {
        return false;
      }
      var record := connections[i];
      var at := Position(record.mail.items, account.id);
      if at == |record.mail.items| {
        return false;
      }
      var current := record.mail.items[at];
      var stored := account;
      if current.created != 0 {
        stored := stored.(created := current.created);
      }
      if account.secret == "" {
        stored := stored.(secret := current.secret);
      }
      if account.oauthSecret == "" && account.xoauth2 {
        stored := stored.(oauthSecret := current.oauthSecret);
      }
      assert stored == Merged(current, account);
      hide Merged;
      var mail := record.mail.(items := record.mail.items[at := stored]);
      connections := connections[i := record.(mail := mail, revision := record.revision + 1)];
      done := true;
    }

    method RemoveAccount(id: ConnectionId, account: AccountId, caller: Option<string>) returns (done: bool)
      modifies this
      ensures (connections, done) == Edited(old(connections), id, caller, Change.RemoveAccount(account))
    {
      hide Position;
      hide Where;
      hide Barred;
      var i := Find(id);
      if i == |connections| || Barred(connections[i], caller) {
        return false;
      }
      var record := connections[i];
      var at := Position(record.mail.items, account);
      if at == |record.mail.items| {
        return false;
      }
      var remaining := record.mail.items[..at] + record.mail.items[at + 1..];
      var chosen := record.mail.chosen;
      if chosen == Some(account) {
        chosen := if remaining == [] then None else Some(remaining[0].id);
      }
      connections := connections[i := record.(mail := Shelf(remaining, chosen), revision := record.revision + 1)];
      done := true;
    }

    method SetDefaultAccount(id: ConnectionId, account: AccountId, caller: Option<string>) returns (done: bool)
      modifies this
      ensures (connections, done) == Edited(old(connections), id, caller, Change.SetDefaultAccount(account))
    {
      hide Position;
      hide Where;
      hide Barred;
      var i := Find(id);
      if i == |connections| || Barred(connections[i], caller) || !connections[i].mail.Has(account) {
        return false;
      }
      var record := connections[i];
      connections := connections[i := record.(mail := record.mail.(chosen := Some(account)), revision := record.revision + 1)];
      done := true;
    }

    method AddCalendar(id: ConnectionId, calendar: Account, caller: Option<string>) returns (done: bool)
      modifies this
      ensures (connections, done) == Edited(old(connections), id, caller, Change.AddCalendar(calendar))
    {
      hide Position;
      hide Where;
      hide Barred;
      var i := Find(id);
      if i == |connections| || Barred(connections[i], caller) {
        return false;
      }
      var record := connections[i];
      var calendars := record.calendars.Put(calendar);
      if calendars.chosen.None? {
        calendars := calendars.(chosen := Some(calendar.id));
      }
      connections := connections[i := record.(calendars := calendars, revision := record.revision + 1)];
      done := true;
    }

    method RemoveCalendar(id: ConnectionId, calendar: AccountId, caller: Option<string>) returns (done: bool)
      modifies this
      ensures (connections, done) == Edited(old(connections), id, caller, Change.RemoveCalendar(calendar))
    {
      hide Position;
      hide Where;
      hide Barred;
      var i := Find(id);
      if i == |connections| || Barred(connections[i], caller) {
        return false;
      }
      var record := connections[i];
      var at := Position(record.calendars.items, calendar);
      if at == |record.calendars.items| {
        return false;
      }
      var remaining := record.calendars.items[..at] + record.calendars.items[at + 1..];
      var chosen := record.calendars.chosen;
      if chosen == Some(calendar) {
        chosen := if remaining == [] then None else Some(remaining[0].id);
      }
      connections := connections[i := record.(calendars := Shelf(remaining, chosen), revision := record.revision + 1)];
      done := true;
    }

    method SetDefaultCalendar(id: ConnectionId, calendar: AccountId, caller: Option<string>) returns (done: bool)
      modifies this
      ensures (connections, done) == Edited(old(connections), id, caller, Change.SetDefaultCalendar(calendar))
    {
      hide Position;
      hide Where;
      hide Barred;
      var i := Find(id);
      if i == |connections| || Barred(connections[i], caller) || !connections[i].calendars.Has(calendar) {
        return false;
      }
      var record := connections[i];
      connections := connections[i := record.(calendars := record.calendars.(chosen := Some(calendar)), revision := record.revision + 1)];
      done := true;
    }
  }

  // --- what every change keeps -----------------------------------------------------------

  /** The account a lookup by id finds. */
  function Lookup(items: seq<Account>, id: AccountId): Option<Account> {
    var i := Position(items, id);
    if i < |items| then Some(items[i]) else None
  }

  ghost predicate Distinct(items: seq<Account>) {
    forall i, j :: 0 <= i < j < |items| ==> items[i].id != items[j].id
  }

  lemma PositionIs(items: seq<Account>, id: AccountId, i: nat)
    requires i <= |items| && (i < |items| ==> items[i].id == id)
    requires forall j :: 0 <= j < i ==> items[j].id != id
    ensures Position(items, id) == i
  {
    hide Position;
  }

  /** After `Put` the account is found as it was given, and every other one as before. */
  lemma PutFound(s: Shelf, a: Account, id: AccountId)
    ensures Lookup(s.Put(a).items, id) == if id == a.id then Some(a) else Lookup(s.items, id)
    ensures s.Put(a).Has(id) <==> id == a.id || s.Has(id)
  {
    hide Position;
    var at := Position(s.items, a.id);
    var i := Position(s.items, id);
    var items := s.Put(a).items;
    if id == a.id {
      PositionIs(items, id, at);
    } else if i < |s.items| {
      PositionIs(items, id, i);
    } else {
      PositionIs(items, id, |items|);
    }
  }

  lemma PutDistinct(s: Shelf, a: Account)
    requires Distinct(s.items)
    ensures Distinct(s.Put(a).items) && s.Put(a).items != []
  {
    hide Position;
  }

  /** After a removal the account is not found, and every other one is as before. */
  lemma RemovedFound(s: Shelf, gone: AccountId, id: AccountId)
    requires Distinct(s.items) && s.Has(gone)
    ensures Lookup(s.Removed(gone).value.items, id) == if id == gone then None else Lookup(s.items, id)
    ensures s.Removed(gone).value.Has(id) <==> id != gone && s.Has(id)
  {
    hide Position;
    var at := Position(s.items, gone);
    var i := Position(s.items, id);
    var left := s.items[..at] + s.items[at + 1..];
    if id == gone || i == |s.items| {
      PositionIs(left, id, |left|);
    } else {
      PositionIs(left, id, if i < at then i else i - 1);
    }
  }

  lemma RemovedDistinct(s: Shelf, gone: AccountId)
    requires s.Valid() && s.Has(gone)
    ensures Distinct(s.Removed(gone).value.items)
    ensures s.chosen != Some(gone) ==> s.Removed(gone).value.items != []
  {
    hide Position;
    var at := Position(s.items, gone);
    var left := s.items[..at] + s.items[at + 1..];
    forall i, j | 0 <= i < j < |left|
      ensures left[i].id != left[j].id
    {
      assert left[i] == s.items[if i < at then i else i + 1] && left[j] == s.items[if j < at then j else j + 1];
    }
    if s.chosen != Some(gone) {
      RemovedFound(s, gone, s.chosen.value);
    }
  }

  lemma FirstIsThere(items: seq<Account>)
    requires items != []
    ensures Position(items, items[0].id) == 0
  {
  }

  lemma RemovedKeeps(s: Shelf, gone: AccountId)
    requires s.Valid() && s.Has(gone)
    ensures s.Removed(gone).value.Valid()
  {
    hide Position;
    RemovedDistinct(s, gone);
    var left := s.Removed(gone).value.items;
    if s.chosen != Some(gone) {
      RemovedFound(s, gone, s.chosen.value);
    } else if left != [] {
      FirstIsThere(left);
    }
  }

  lemma PutKeeps(s: Shelf, a: Account)
    requires s.Valid()
    ensures s.Added(a).Valid()
    ensures s.Has(a.id) ==> s.Put(a).Valid()
  {
    hide Position;
    PutDistinct(s, a);
    PutFound(s, a, a.id);
    if s.chosen.Some? {
      PutFound(s, a, s.chosen.value);
    }
    hide Shelf.Put;
    hide Distinct;
  }

  /** No change leaves an id twice, or a default that is not there, or none with something
      to choose. */
  lemma ShelfKept(s: Shelf, a: Account, id: AccountId)
    requires s.Valid()
    ensures s.Added(a).Valid()
    ensures s.Updated(a).Some? ==> s.Updated(a).value.Valid()
    ensures s.Removed(id).Some? ==> s.Removed(id).value.Valid()
    ensures s.Chosen(id).Some? ==> s.Chosen(id).value.Valid()
  {
    PutKeeps(s, a);
    var at := Position(s.items, a.id);
    hide Position;
    if at < |s.items| {
      PutKeeps(s, Merged(s.items[at], a));
    }
    if s.Has(id) {
      RemovedKeeps(s, id);
    }
    hide Shelf.Put;
    hide Shelf.Added;
  }

  /** An update keeps the place in the list, the default, the creation date and every secret
      not given anew, and touches no other account. */
  lemma UpdateKeeps(s: Shelf, a: Account, id: AccountId)
    requires s.Updated(a).Some?
    ensures var t := s.Updated(a).value;
            var was, now := Lookup(s.items, a.id), Lookup(t.items, a.id);
            && was.Some? && now.Some? && t.chosen == s.chosen && |t.items| == |s.items|
            && (was.value.created != 0 ==> now.value.created == was.value.created)
            && (a.secret == "" ==> now.value.secret == was.value.secret)
            && (a.secret != "" ==> now.value.secret == a.secret)
            && (a.oauthSecret == "" && a.xoauth2 ==> now.value.oauthSecret == was.value.oauthSecret)
            && (a.oauthSecret != "" || !a.xoauth2 ==> now.value.oauthSecret == a.oauthSecret)
            && (was.value.created == 0 ==> now.value.created == a.created)
            && now.value.settings == a.settings && now.value.xoauth2 == a.xoauth2
            && (id != a.id ==> Lookup(t.items, id) == Lookup(s.items, id))
  {
    hide Position;
    var at := Position(s.items, a.id);
    PutFound(s, Merged(s.items[at], a), a.id);
    PutFound(s, Merged(s.items[at], a), id);
  }

  // --- whole stores --------------------------------------------------------------------------

  /** Ids are issued once; every connection's shelves are in order, mailboxes under mailbox
      ids and calendars under calendar ids. */
  ghost predicate ValidStore(cs: seq<Record>) {
    && (forall i, j :: 0 <= i < j < |cs| ==> cs[i].connection != cs[j].connection && cs[i].client != cs[j].client)
    && forall i :: 0 <= i < |cs| ==> ValidRecord(cs[i])
  }

  ghost predicate ValidRecord(r: Record) {
    && r.mail.Valid() && r.calendars.Valid()
    && AllBoxes(r.mail.items)
    && AllCals(r.calendars.items)
  }

  ghost predicate AllBoxes(items: seq<Account>) {
    forall a :: a in items ==> a.id.Box?
  }

  ghost predicate AllCals(items: seq<Account>) {
    forall a :: a in items ==> a.id.Cal?
  }

  /** What the source issues ids for: a change never puts a calendar among the mailboxes. */
  predicate Fits(change: Change) {
    match change
    case AddAccount(a) => a.id.Box?
    case AddCalendar(a) => a.id.Cal?
    case _ => true
  }

  lemma KindKept(s: Shelf, a: Account, id: AccountId)
    ensures AllBoxes(s.items) && a.id.Box? ==> AllBoxes(s.Added(a).items)
    ensures AllCals(s.items) && a.id.Cal? ==> AllCals(s.Added(a).items)
    ensures AllBoxes(s.items) && s.Updated(a).Some? ==> AllBoxes(s.Updated(a).value.items)
    ensures AllBoxes(s.items) && s.Removed(id).Some? ==> AllBoxes(s.Removed(id).value.items)
    ensures AllCals(s.items) && s.Removed(id).Some? ==> AllCals(s.Removed(id).value.items)
  {
    hide Position;
  }

  lemma ChangeKeeps(r: Record, change: Change)
    requires ValidRecord(r) && Fits(change)
    ensures var n := Changed(r, change);
            n.Some? ==>
              && ValidRecord(n.value) && n.value.connection == r.connection && n.value.client == r.client
              && n.value.owner == r.owner
              && (n.value.revision > r.revision || SameSets(n.value, r))
  {
    hide Shelf.Valid;
    hide Shelf.Added;
    hide Shelf.Updated;
    hide Shelf.Removed;
    hide AllBoxes;
    hide AllCals;
    hide Position;
    match change {
      case AddAccount(a) => ShelfKept(r.mail, a, a.id); KindKept(r.mail, a, a.id);
      case UpdateAccount(a) => ShelfKept(r.mail, a, a.id); KindKept(r.mail, a, a.id);
      case AddCalendar(a) => ShelfKept(r.calendars, a, a.id); KindKept(r.calendars, a, a.id);
      case RemoveAccount(id) => ShelfKept(r.mail, NoAccount(id), id); KindKept(r.mail, NoAccount(id), id);
      case RemoveCalendar(id) => ShelfKept(r.calendars, NoAccount(id), id); KindKept(r.calendars, NoAccount(id), id);
      case SetDefaultAccount(id) => ShelfKept(r.mail, NoAccount(id), id);
      case SetDefaultCalendar(id) => ShelfKept(r.calendars, NoAccount(id), id);
      case Rename(_) =>
    }
  }

  function NoAccount(id: AccountId): Account {
    Account(id, 0, "", "", false, "")
  }

  /** A change touches one connection, and only for its owner when a caller is named. */
  lemma EditTouchesOne(cs: seq<Record>, id: ConnectionId, caller: Option<string>, change: Change)
    requires ValidStore(cs) && Fits(change)
    ensures var (ds, done) := Edited(cs, id, caller, change);
            && ValidStore(ds) && |ds| == |cs|
            && (!done ==> ds == cs)
            && forall i :: 0 <= i < |cs| ==>
                 && ds[i].client == cs[i].client && ds[i].connection == cs[i].connection
                 && (ds[i] != cs[i] ==> done && cs[i].connection == id && !Barred(cs[i], caller) && Changed(cs[i], change) == Some(ds[i]))
                 && (ds[i].revision > cs[i].revision || SameSets(ds[i], cs[i]))
  {
    hide Where;
    var i := Where(cs, id);
    if i < |cs| {
      ChangeKeeps(cs[i], change);
    }
    hide ValidRecord;
    hide Changed;
  }

  /** The account a change is about is there, where it must be. */
  predicate Applies(r: Record, change: Change) {
    match change
    case UpdateAccount(a) => exists x :: x in r.mail.items && x.id == a.id
    case RemoveAccount(id) => exists x :: x in r.mail.items && x.id == id
    case SetDefaultAccount(id) => exists x :: x in r.mail.items && x.id == id
    case RemoveCalendar(id) => exists x :: x in r.calendars.items && x.id == id
    case SetDefaultCalendar(id) => exists x :: x in r.calendars.items && x.id == id
    case _ => true
  }

  /** The connection `i` is the one meant, and the caller, if one is named, owns it. */
  predicate Entitled(cs: seq<Record>, i: int, id: ConnectionId, caller: Option<string>) {
    0 <= i < |cs| && cs[i].connection == id && (caller == None || caller == Some(cs[i].owner))
  }

  lemma HasIff(items: seq<Account>, id: AccountId)
    ensures Position(items, id) < |items| <==> exists x :: x in items && x.id == id
  {
    hide Position;
    if exists x :: x in items && x.id == id {
      var x :| x in items && x.id == id;
      var j :| 0 <= j < |items| && items[j] == x;
    }
  }

  lemma AppliesIff(r: Record, change: Change)
    ensures Changed(r, change).Some? <==> Applies(r, change)
  {
    hide Position;
    match change
    case UpdateAccount(a) => HasIff(r.mail.items, a.id);
    case RemoveAccount(id) => HasIff(r.mail.items, id);
    case SetDefaultAccount(id) => HasIff(r.mail.items, id);
    case RemoveCalendar(id) => HasIff(r.calendars.items, id);
    case SetDefaultCalendar(id) => HasIff(r.calendars.items, id);
    case _ =>
  }

  /** An edit is made exactly when the connection exists, is the caller's, and holds the account
      the edit is about. */
  lemma EditedIff(cs: seq<Record>, id: ConnectionId, caller: Option<string>, change: Change)
    requires ValidStore(cs)
    ensures Edited(cs, id, caller, change).1 <==> exists i :: Entitled(cs, i, id, caller) && Applies(cs[i], change)
  {
    hide Where, Applies, Changed, ValidRecord;
    var i := Where(cs, id);
    if i < |cs| {
      AppliesIff(cs[i], change);
      if Edited(cs, id, caller, change).1 {
        assert Entitled(cs, i, id, caller) && Applies(cs[i], change);
      }
    }
    forall j | Entitled(cs, j, id, caller) && Applies(cs[j], change) ensures Edited(cs, id, caller, change).1 {
      assert j == i;
    }
  }

  /** A connection is deleted exactly when it exists and is the caller's; the others stay, in
      their order. */
  lemma DeletedIff(cs: seq<Record>, id: ConnectionId, caller: Option<string>)
    requires ValidStore(cs)
    ensures var (ds, done) := Deleted(cs, id, caller);
            && (done <==> exists i :: Entitled(cs, i, id, caller))
            && (!done ==> ds == cs)
            && (done ==> exists i :: Entitled(cs, i, id, caller) && ds == cs[..i] + cs[i + 1..])
  {
    hide Where, ValidRecord;
    var i := Where(cs, id);
    if i < |cs| && Deleted(cs, id, caller).1 {
      assert Entitled(cs, i, id, caller);
    }
    forall j | Entitled(cs, j, id, caller) ensures j == i {
    }
  }

  /** The parts of a connection that a change leaves alone, and the step of its revision. */
  lemma ChangeTouches(r: Record, change: Change)
    requires Changed(r, change).Some?
    ensures var n := Changed(r, change).value;
            && n.connection == r.connection && n.client == r.client && n.owner == r.owner
            && (change.Rename? <==> n.revision == r.revision)
            && (n.revision != r.revision ==> n.revision == r.revision + 1 && n.title == r.title)
            && (change.Rename? ==> n == r.(title := change.title))
            && (change.AddCalendar? || change.RemoveCalendar? || change.SetDefaultCalendar? ==> n.mail == r.mail)
            && (change.AddAccount? || change.UpdateAccount? || change.RemoveAccount? || change.SetDefaultAccount? ==> n.calendars == r.calendars)
            && (change.SetDefaultAccount? ==> n.mail == r.mail.(chosen := Some(change.id)))
            && (change.SetDefaultCalendar? ==> n.calendars == r.calendars.(chosen := Some(change.id)))
  {
    hide Position, Shelf.Put, Merged;
  }

  /** The accounts other than the one named, in their order. */
  function Others(items: seq<Account>, id: AccountId): seq<Account> {
    if items == [] then []
    else (if items[0].id == id then [] else [items[0]]) + Others(items[1..], id)
  }

  lemma {:induction false} OthersAll(items: seq<Account>, id: AccountId)
    requires forall j :: 0 <= j < |items| ==> items[j].id != id
    ensures Others(items, id) == items
  {
    if items != [] {
      OthersAll(items[1..], id);
    }
  }

  lemma {:induction false} OthersAre(items: seq<Account>, id: AccountId)
    requires Distinct(items) && Position(items, id) < |items|
    ensures var i := Position(items, id);
            items[..i] + items[i + 1..] == Others(items, id)
  {
    if items[0].id == id {
      OthersAll(items[1..], id);
      assert items[..0] + items[1..] == items[1..];
    } else {
      var i := Position(items[1..], id);
      assert Distinct(items[1..]);
      OthersAre(items[1..], id);
      assert items[..i + 1] + items[i + 2..] == [items[0]] + (items[1..][..i] + items[1..][i + 1..]);
    }
  }

  /** A removal leaves the others in their order; the default passes to the first of them only
      if it was the one removed. */
  lemma RemovedIs(s: Shelf, id: AccountId)
    requires s.Valid() && s.Removed(id).Some?
    ensures var t := s.Removed(id).value;
            && t.items == Others(s.items, id)
            && (s.chosen != Some(id) ==> t.chosen == s.chosen)
            && (s.chosen == Some(id) ==> t.chosen == if t.items == [] then None else Some(t.items[0].id))
  {
    OthersAre(s.items, id);
    hide Position, Others;
  }

  predicate SameSets(r: Record, q: Record) {
    r.mail == q.mail && r.calendars == q.calendars && r.revision == q.revision
  }

  /** A connection that is deleted can neither be found nor spoken for: its client is unknown,
      and holds no code and no token; those of every other client are as they were. */
  lemma DeletedIsOut(cs: seq<Record>, tokens: OAuthStore.Store, id: ConnectionId, caller: Option<string>, k: OAuthStore.Digest)
    requires ValidStore(cs) && Deleted(cs, id, caller).1
    ensures var (ds, done) := Deleted(cs, id, caller);
            var left := TokensLeft(tokens, cs, id, caller);
            var client := cs[Where(cs, id)].client;
            && Where(ds, id) == |ds| && ByClient(ds, client) == None
            && (k in left.codes <==> k in tokens.codes && tokens.codes[k].client != client)
            && (k in left.tokens <==> k in tokens.tokens && tokens.tokens[k].client != client)
            && (k in left.refresh <==> k in tokens.refresh && tokens.refresh[k].client != client)
            && (k in left.codes ==> left.codes[k] == tokens.codes[k])
            && (k in left.tokens ==> left.tokens[k] == tokens.tokens[k])
            && (k in left.refresh ==> left.refresh[k] == tokens.refresh[k])
  {
    hide Where;
    hide ByClient;
    hide ValidRecord;
    var at := Where(cs, id);
    var ds := Deleted(cs, id, caller).0;
    assert forall i :: 0 <= i < |ds| ==> ds[i] == if i < at then cs[i] else cs[i + 1];
  }
}
