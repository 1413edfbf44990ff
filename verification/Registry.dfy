/** The cache of live clients in front of the store: what it answers is what the store holds,
    and a client it hands out was built from the settings in force.
  */
module Registry {
  import opened Prelude
  import opened AccountStore

  /** The mailboxes (or calendars) of a connection as a call sees them: oldest first. */
  datatype AccountSet = AccountSet(accounts: seq<Account>, chosen: Option<AccountId>)

  /** Just after the last account that is no younger. */
  function Place(sorted: seq<Account>, a: Account): (p: nat)
    ensures p <= |sorted|
    ensures p > 0 ==> sorted[p - 1].created <= a.created
    ensures forall i :: p <= i < |sorted| ==> a.created < sorted[i].created
  {
    if sorted == [] || sorted[|sorted| - 1].created <= a.created then |sorted|
    else Place(sorted[..|sorted| - 1], a)
  }

  function Insert(sorted: seq<Account>, a: Account): seq<Account> {
    sorted[..Place(sorted, a)] + [a] + sorted[Place(sorted, a)..]
  }

  function ByAge(items: seq<Account>): seq<Account> {
    if items == [] then [] else Insert(ByAge(items[..|items| - 1]), items[|items| - 1])
  }

  function SetOf(s: Shelf): AccountSet {
    AccountSet(ByAge(s.items), s.chosen)
  }

  /** What a caller may name an account by, as the test it stands for: its id, its address or
      its label. */
  type Selector = Account -> bool

  function FirstMatch(items: seq<Account>, named: Selector): Option<Account> {
    if items == [] then None
    else if named(items[0]) then Some(items[0])
    else FirstMatch(items[1..], named)
  }

  /** The first account named, or without a name the default, or the oldest. */
  function Resolve(s: AccountSet, named: Option<Selector>): Option<Account> {
    if named.Some? then FirstMatch(s.accounts, named.value)
    else
      var i := if s.chosen.Some? then Position(s.accounts, s.chosen.value) else |s.accounts|;
      if i < |s.accounts| then Some(s.accounts[i])
      else if s.accounts == [] then None
      else Some(s.accounts[0])
  }

  /** A live client; `serial` tells one object from another. */
  datatype Client = Client(serial: nat, account: Account)

  datatype Entry = Entry(revision: nat, accounts: AccountSet, calendars: AccountSet, clients: map<AccountId, Client>) {
    function Serials(): set<nat> {
      set id | id in clients :: clients[id].serial
    }

    function Without(idle: set<nat>): map<AccountId, Client> {
      map id | id in clients && clients[id].serial !in idle :: clients[id]
    }
  }

  function NewEntry(r: Record): Entry {
    Entry(r.revision, SetOf(r.mail), SetOf(r.calendars), map[])
  }

  /** `closed` are the clients that were, or are being, shut down. */
  datatype Cache = Cache(entries: map<ClientId, Entry>, next: nat, closed: set<nat>) {

    function Forget(client: ClientId): Cache {
      if client in entries then this.(entries := entries - {client}, closed := closed + entries[client].Serials()) else this
    }

    /** `_entry`: the cached entry if the revision still is the store's, else a new one. */
    function Entry(cs: seq<Record>, client: ClientId): (Cache, Option<Entry>) {
      match ByClient(cs, client)
      case None => (Forget(client), None)
      case Some(r) =>
        if client in entries && entries[client].revision == r.revision then (this, Some(entries[client]))
        else (Forget(client).(entries := entries[client := NewEntry(r)]), Some(NewEntry(r)))
    }

    /** `imap_for` and `caldav_for`. */
    function ClientFor(client: ClientId, account: Account): (Cache, Client) {
      var made := Client(next, account);
      if client !in entries then (this.(next := next + 1), made)
      else
        var e := entries[client];
        if account.id in e.clients then (this, e.clients[account.id])
        else (this.(entries := entries[client := e.(clients := e.clients[account.id := made])], next := next + 1), made)
    }

    /** One entry's turn in `reap_idle`: gone with its connection, or rid of idle clients. */
    function Reap(cs: seq<Record>, client: ClientId, idle: set<nat>): Cache {
      if client !in entries then this
      else if ByClient(cs, client).None? then Forget(client)
      else
        var e := entries[client];
        this.(entries := entries[client := e.(clients := e.Without(idle))], closed := closed + (e.Serials() * idle))
    }

    /** The same for each of `turns`, in whatever order. */
    function ReapSome(cs: seq<Record>, idle: set<nat>, turns: set<ClientId>): Cache {
      this.(entries := map c | c in entries && (c !in turns || ByClient(cs, c).Some?) ::
                         if c in turns then entries[c].(clients := entries[c].Without(idle)) else entries[c],
            closed := closed + set c, id | c in entries && c in turns && id in entries[c].clients
                                           && (ByClient(cs, c).None? || entries[c].clients[id].serial in idle)
                               :: entries[c].clients[id].serial)
    }

    function ReapAll(cs: seq<Record>, idle: set<nat>): Cache {
      ReapSome(cs, idle, entries.Keys)
    }

    lemma ReapOneMore(cs: seq<Record>, idle: set<nat>, turns: set<ClientId>, client: ClientId)
      requires client in entries && client !in turns
      ensures ReapSome(cs, idle, turns).Reap(cs, client, idle) == ReapSome(cs, idle, turns + {client})
    {
      hide ByClient;
      var c0 := ReapSome(cs, idle, turns);
      var c1 := ReapSome(cs, idle, turns + {client});
      var c2 := c0.Reap(cs, client, idle);
      assert c0.entries[client] == entries[client];
      assert c2.entries == c1.entries;
      assert c2.closed == c1.closed;
    }
  }

  lemma ReapNone(c: Cache, cs: seq<Record>, idle: set<nat>)
    ensures c.ReapSome(cs, idle, {}) == c
  {
  }

  /** A tool call's way to its client: the entry, the account, the client. */
  function Use(c: Cache, cs: seq<Record>, client: ClientId, mail: bool, named: Option<Selector>)
    : (Cache, Option<(Account, Client)>)
  {
    var (c1, entry) := c.Entry(cs, client);
    if entry.None? then (c1, None)
    else
      var account := Resolve(if mail then entry.value.accounts else entry.value.calendars, named);
      if account.None? then (c1, None)
      else
        var (c2, live) := c1.ClientFor(client, account.value);
        (c2, Some((account.value, live)))
  }

  class MailboxRegistry {
    const store: ConnectionStore
    var entries: map<ClientId, Entry>
    var next: nat
    var closed: set<nat>

    constructor (store: ConnectionStore)
      ensures this.store == store && View() == Cache(map[], 0, {})
    {
      this.store, entries, next, closed := store, map[], 0, {};
    }

    function View(): Cache
      reads this
    {
      Cache(entries, next, closed)
    }

    method Forget(client: ClientId)
      modifies this
      ensures View() == old(View()).Forget(client)
    {
      if client in entries {
        closed := closed + entries[client].Serials();
        entries := entries - {client};
      }
    }

    method GetEntry(client: ClientId) returns (entry: Option<Entry>)
      modifies this
      ensures (View(), entry) == old(View()).Entry(store.connections, client)
    {
      var connection := store.GetByClient(client);
      if connection.None? {
        Forget(client);
        return None;
      }
      if client in entries {
        var cached := entries[client];
        if cached.revision == connection.value.revision {
          return Some(cached);
        }
        closed := closed + cached.Serials();
      }
      var made := NewEntry(connection.value);
      entries := entries[client := made];
      entry := Some(made);
    }

    method AccountSetFor(client: ClientId) returns (accounts: Option<AccountSet>)
      modifies this
      ensures var (c, entry) := old(View()).Entry(store.connections, client);
              View() == c && accounts == if entry.Some? then Some(entry.value.accounts) else None
    {
      var entry := GetEntry(client);
      accounts := if entry.Some? then Some(entry.value.accounts) else None;
    }

    method CalendarSetFor(client: ClientId) returns (calendars: Option<AccountSet>)
      modifies this
      ensures var (c, entry) := old(View()).Entry(store.connections, client);
              View() == c && calendars == if entry.Some? then Some(entry.value.calendars) else None
    {
      var entry := GetEntry(client);
      calendars := if entry.Some? then Some(entry.value.calendars) else None;
    }

    /** `imap_for`; `caldav_for` is the same over calendars. */
    method ClientFor(client: ClientId, account: Account) returns (live: Client)
      modifies this
      ensures (View(), live) == old(View()).ClientFor(client, account)
    {
      var made := Client(next, account);
      if client !in entries {
        next := next + 1;
        return made;
      }
      var entry := entries[client];
      if account.id in entry.clients {
        return entry.clients[account.id];
      }
      next := next + 1;
      entries := entries[client := entry.(clients := entry.clients[account.id := made])];
      live := made;
    }

    method ReapEntry(client: ClientId, idle: set<nat>)
      modifies this
      ensures View() == old(View()).Reap(store.connections, client, idle)
    {
      if client !in entries {
        return;
      }
      var connection := store.GetByClient(client);
      if connection.None? {
        Forget(client);
        return;
      }
      var entry := entries[client];
      var left := entry.clients.Keys;
      var kept, shut := entry.clients, {};
      while left != {}
        invariant left <= entry.clients.Keys
        invariant kept == map id | id in entry.clients && (id in left || entry.clients[id].serial !in idle) :: entry.clients[id]
        invariant shut == set id | id in entry.clients && id !in left && entry.clients[id].serial in idle :: entry.clients[id].serial
        decreases left
      {
        var id :| id in left;
        left := left - {id};
        if entry.clients[id].serial in idle {
          kept := kept - {id};
          shut := shut + {entry.clients[id].serial};
        }
      }
      entries := entries[client := entry.(clients := kept)];
      closed := closed + shut;
      assert shut == entry.Serials() * idle;
      assert kept == entry.Without(idle);
    }

    /** `reap_idle` when nothing comes in between: every entry has its turn. */
    method ReapIdle(idle: set<nat>)
      modifies this
      ensures View() == old(View()).ReapAll(store.connections, idle)
    {
      var left := entries.Keys;
      ghost var was, before := View(), entries.Keys;
      ReapNone(was, store.connections, idle);
      assert before - left == {};
      while left != {}
        invariant left <= before == was.entries.Keys && next == was.next
        invariant View() == was.ReapSome(store.connections, idle, before - left)
        decreases left
      {
        var client :| client in left;
        was.ReapOneMore(store.connections, idle, before - left, client);
        assert before - (left - {client}) == before - left + {client};
        left := left - {client};
        ReapEntry(client, idle);
      }
      assert before - left == before;
    }
  }

  // --- the sets a call sees --------------------------------------------------------------------

  predicate Sorted(items: seq<Account>) {
    forall i, j :: 0 <= i < j < |items| ==> items[i].created <= items[j].created
  }

  lemma InsertCounts(sorted: seq<Account>, a: Account)
    ensures multiset(Insert(sorted, a)) == multiset(sorted) + multiset{a}
  {
    hide Place;
    assert sorted == sorted[..Place(sorted, a)] + sorted[Place(sorted, a)..];
  }

  lemma InsertAt(sorted: seq<Account>, a: Account, i: nat)
    requires i <= |sorted|
    ensures |Insert(sorted, a)| == |sorted| + 1
    ensures var p := Place(sorted, a);
            Insert(sorted, a)[i] == if i < p then sorted[i] else if i == p then a else sorted[i - 1]
  {
    hide Place;
  }

  lemma InsertSorted(sorted: seq<Account>, a: Account)
    requires Sorted(sorted)
    ensures Sorted(Insert(sorted, a))
  {
    hide Place;
    hide Insert;
    InsertAt(sorted, a, 0);
    var p := Place(sorted, a);
    forall i, j | 0 <= i < j < |sorted| + 1
      ensures Insert(sorted, a)[i].created <= Insert(sorted, a)[j].created
    {
      InsertAt(sorted, a, i);
      InsertAt(sorted, a, j);
      assert i < p ==> sorted[i].created <= sorted[p - 1].created;
    }
  }

  lemma InsertDistinct(sorted: seq<Account>, a: Account)
    requires Distinct(sorted) && forall i :: 0 <= i < |sorted| ==> sorted[i].id != a.id
    ensures Distinct(Insert(sorted, a))
  {
    hide Place;
    hide Insert;
    InsertAt(sorted, a, 0);
    forall i, j | 0 <= i < j < |sorted| + 1
      ensures Insert(sorted, a)[i].id != Insert(sorted, a)[j].id
    {
      InsertAt(sorted, a, i);
      InsertAt(sorted, a, j);
    }
  }

  lemma SameMembers(xs: seq<Account>, ys: seq<Account>)
    requires multiset(xs) == multiset(ys)
    ensures |xs| == |ys| && forall a :: a in xs <==> a in ys
  {
    assert |multiset(xs)| == |xs| && |multiset(ys)| == |ys|;
    forall a
      ensures a in xs <==> a in ys
    {
      assert a in xs <==> multiset(xs)[a] > 0;
      assert a in ys <==> multiset(ys)[a] > 0;
    }
  }

  /** Oldest first, and nothing gained or lost. */
  lemma {:induction false} ByAgeIs(items: seq<Account>)
    ensures Sorted(ByAge(items)) && multiset(ByAge(items)) == multiset(items)
  {
    hide Insert;
    if items != [] {
      var n := |items| - 1;
      ByAgeIs(items[..n]);
      InsertSorted(ByAge(items[..n]), items[n]);
      InsertCounts(ByAge(items[..n]), items[n]);
      assert items == items[..n] + [items[n]];
    }
  }

  lemma {:induction false} ByAgeDistinct(items: seq<Account>)
    requires Distinct(items)
    ensures Distinct(ByAge(items))
  {
    hide Insert;
    if items != [] {
      var n := |items| - 1;
      ByAgeDistinct(items[..n]);
      ByAgeIs(items[..n]);
      SameMembers(ByAge(items[..n]), items[..n]);
      NotAmong(ByAge(items[..n]), items, n);
      InsertDistinct(ByAge(items[..n]), items[n]);
    }
  }

  lemma NotAmong(xs: seq<Account>, items: seq<Account>, n: nat)
    requires Distinct(items) && n < |items| && forall a :: a in xs <==> a in items[..n]
    ensures forall i :: 0 <= i < |xs| ==> xs[i].id != items[n].id
  {
    forall i | 0 <= i < |xs|
      ensures xs[i].id != items[n].id
    {
      assert xs[i] in items[..n];
    }
  }

  lemma LookupAnyOrder(xs: seq<Account>, ys: seq<Account>, id: AccountId)
    requires Distinct(xs) && Distinct(ys) && forall a :: a in xs <==> a in ys
    ensures Lookup(xs, id) == Lookup(ys, id)
  {
    hide Position;
    var i, j := Position(xs, id), Position(ys, id);
    if i < |xs| {
      assert xs[i] in ys;
      var k :| 0 <= k < |ys| && ys[k] == xs[i];
      assert j <= k;
      PositionIs(ys, id, k);
    }
    assert j < |ys| ==> ys[j] in xs;
  }

  /** The oldest of the accounts named, if there is one. */
  ghost predicate OldestNamed(items: seq<Account>, named: Selector, found: Option<Account>) {
    match found
    case None => forall b :: b in items ==> !named(b)
    case Some(a) => a in items && named(a) && forall b :: b in items && named(b) ==> a.created <= b.created
  }

  lemma {:induction false} FirstMatchIs(items: seq<Account>, named: Selector)
    requires Sorted(items)
    ensures OldestNamed(items, named, FirstMatch(items, named))
  {
    if items != [] {
      FirstMatchIs(items[1..], named);
      assert items == [items[0]] + items[1..];
      forall b | b in items
        ensures items[0].created <= b.created
      {
        var i :| 0 <= i < |items| && items[i] == b;
      }
    }
  }

  lemma OldestAnyOrder(xs: seq<Account>, ys: seq<Account>, named: Selector, found: Option<Account>)
    requires OldestNamed(xs, named, found) && forall a :: a in xs <==> a in ys
    ensures OldestNamed(ys, named, found)
  {
  }

  /** A call that names an account resolves to the oldest in the store that is so named, and one
      that names none to the default. */
  lemma ResolveIs(s: Shelf, named: Option<Selector>)
    requires s.Valid()
    ensures named.Some? ==> OldestNamed(s.items, named.value, Resolve(SetOf(s), named))
    ensures named.None? ==> Resolve(SetOf(s), named) == if s.chosen.Some? then Lookup(s.items, s.chosen.value) else None
  {
    hide Position;
    ByAgeIs(s.items);
    ByAgeDistinct(s.items);
    SameMembers(ByAge(s.items), s.items);
    hide ByAge;
    if named.Some? {
      FirstMatchIs(ByAge(s.items), named.value);
      OldestAnyOrder(ByAge(s.items), s.items, named.value, FirstMatch(ByAge(s.items), named.value));
      hide FirstMatch;
      hide OldestNamed;
    } else if s.chosen.Some? {
      LookupAnyOrder(ByAge(s.items), s.items, s.chosen.value);
    }
  }

  /** An id names the account of that id, and no other. */
  lemma ResolveById(s: Shelf, id: AccountId)
    requires s.Valid()
    ensures Resolve(SetOf(s), Some((a: Account) => a.id == id)) == Lookup(s.items, id)
  {
    hide Position;
    var named := (a: Account) => a.id == id;
    ResolveIs(s, Some(named));
    var found := Resolve(SetOf(s), Some(named));
    hide Resolve;
    hide SetOf;
    if found.Some? {
      var i :| 0 <= i < |s.items| && s.items[i] == found.value;
      PositionIs(s.items, id, i);
    } else {
      var i := Position(s.items, id);
      assert i < |s.items| ==> s.items[i] in s.items;
    }
  }

  // --- runs --------------------------------------------------------------------------------------

  /** `clients` and `connections` are the ids ever issued. */
  datatype Sys = Sys(cs: seq<Record>, clients: set<ClientId>, connections: set<ConnectionId>, cache: Cache)

  datatype Step =
    | Create(connection: ConnectionId, client: ClientId, owner: string, title: string)
    | Delete(connection: ConnectionId, caller: Option<string>)
    | Edit(connection: ConnectionId, caller: Option<string>, change: Change)
    | ForgetClient(client: ClientId)
    | LookUp(client: ClientId)
    | UseAccount(client: ClientId, mail: bool, named: Option<Selector>)
    | ReapEntry(client: ClientId, idle: set<nat>)

  /** Ids are drawn at random: a new one was never issued before. */
  predicate Enabled(s: Sys, step: Step) {
    match step
    case Create(connection, client, _, _) => connection !in s.connections && client !in s.clients
    case Edit(_, _, change) => Fits(change)
    case _ => true
  }

  function Next(s: Sys, step: Step): Sys {
    match step
    case Create(connection, client, owner, title) =>
      s.(cs := s.cs + [NewRecord(connection, client, owner, title)],
         clients := s.clients + {client}, connections := s.connections + {connection})
    case Delete(connection, caller) => s.(cs := Deleted(s.cs, connection, caller).0)
    case Edit(connection, caller, change) => s.(cs := Edited(s.cs, connection, caller, change).0)
    case ForgetClient(client) => s.(cache := s.cache.Forget(client))
    case LookUp(client) => s.(cache := s.cache.Entry(s.cs, client).0)
    case UseAccount(client, mail, named) => s.(cache := Use(s.cache, s.cs, client, mail, named).0)
    case ReapEntry(client, idle) => s.(cache := s.cache.Reap(s.cs, client, idle))
  }

  function Start(): Sys {
    Sys([], {}, {}, Cache(map[], 0, {}))
  }

  function Run(steps: seq<Step>): Sys {
    if steps == [] then Start() else Next(Run(steps[..|steps| - 1]), steps[|steps| - 1])
  }

  ghost predicate Possible(steps: seq<Step>) {
    forall i :: 0 <= i < |steps| ==> Enabled(Run(steps[..i]), steps[i])
  }

  /** An entry is not ahead of the store, and at the same revision holds the same sets. */
  predicate NotStale(e: Entry, r: Option<Record>) {
    r.Some? ==>
      && e.revision <= r.value.revision
      && (e.revision == r.value.revision ==> e.accounts == SetOf(r.value.mail) && e.calendars == SetOf(r.value.calendars))
  }

  /** Each client is kept under its account's id and was built from an account of the entry. */
  ghost predicate WellBuilt(e: Entry) {
    && Distinct(e.accounts.accounts) && AllBoxes(e.accounts.accounts)
    && Distinct(e.calendars.accounts) && AllCals(e.calendars.accounts)
    && forall id :: id in e.clients ==>
         && e.clients[id].account.id == id
         && (e.clients[id].account in e.accounts.accounts || e.clients[id].account in e.calendars.accounts)
  }

  /** Connection `k` keeps the client `n` under `id`. */
  predicate Holds(c: Cache, k: ClientId, id: AccountId, n: nat) {
    k in c.entries && id in c.entries[k].clients && c.entries[k].clients[id].serial == n
  }

  /** No client twice, none to come, none that was shut down. */
  ghost predicate Unshared(c: Cache) {
    && (forall k, id, n: nat :: Holds(c, k, id, n) ==> n < c.next && n !in c.closed)
    && (forall k, id, l, jd, n :: Holds(c, k, id, n) && Holds(c, l, jd, n) ==> k == l && id == jd)
    && forall n :: n in c.closed ==> n < c.next
  }

  ghost predicate Accounted(c: Cache, n: nat) {
    n in c.closed || exists k, id :: Holds(c, k, id, n)
  }

  /** Every client made is still kept for a connection, or was shut down. */
  ghost predicate NoLeak(c: Cache) {
    forall n: nat :: n < c.next ==> Accounted(c, n)
  }

  ghost predicate StoreInv(s: Sys) {
    && ValidStore(s.cs)
    && (forall i :: 0 <= i < |s.cs| ==> s.cs[i].client in s.clients && s.cs[i].connection in s.connections)
    && s.cache.entries.Keys <= s.clients
  }

  ghost predicate Coherent(cs: seq<Record>, c: Cache) {
    forall k :: k in c.entries ==> NotStale(c.entries[k], ByClient(cs, k)) && WellBuilt(c.entries[k])
  }

  ghost predicate Inv(s: Sys) {
    StoreInv(s) && Coherent(s.cs, s.cache) && Unshared(s.cache) && NoLeak(s.cache)
  }

  lemma ByClientIs(cs: seq<Record>, i: nat)
    requires ValidStore(cs) && i < |cs|
    ensures ByClient(cs, cs[i].client) == Some(cs[i])
  {
    hide ByClient;
    hide ValidRecord;
    assert ByClient(cs, cs[i].client).Some?;
  }

  // --- a change in the store ---------------------------------------------------------------------

  /** Each connection there still is has moved on, or serves what it did. */
  ghost predicate Follows(cs: seq<Record>, ds: seq<Record>, k: ClientId) {
    ByClient(ds, k).Some? ==>
      && ByClient(cs, k).Some?
      && (ByClient(ds, k).value.revision > ByClient(cs, k).value.revision || SameSets(ByClient(ds, k).value, ByClient(cs, k).value))
  }

  lemma FollowsKeeps(cs: seq<Record>, ds: seq<Record>, c: Cache)
    requires Coherent(cs, c) && forall k :: k in c.entries ==> Follows(cs, ds, k)
    ensures Coherent(ds, c)
  {
    hide ByClient;
    hide WellBuilt;
    hide SetOf;
    forall k | k in c.entries
      ensures NotStale(c.entries[k], ByClient(ds, k))
    {
      assert Follows(cs, ds, k);
    }
  }

  lemma EditFollows(cs: seq<Record>, connection: ConnectionId, caller: Option<string>, change: Change, k: ClientId)
    requires ValidStore(cs) && Fits(change)
    ensures Follows(cs, Edited(cs, connection, caller, change).0, k)
  {
    var (ds, done) := Edited(cs, connection, caller, change);
    EditTouchesOne(cs, connection, caller, change);
    hide Edited;
    hide ByClient;
    hide ValidStore;
    var r := ByClient(ds, k);
    if r.Some? {
      var i :| 0 <= i < |ds| && ds[i] == r.value;
      ByClientIs(cs, i);
    }
  }

  lemma EditIds(s: Sys, connection: ConnectionId, caller: Option<string>, change: Change)
    requires StoreInv(s) && Fits(change)
    ensures StoreInv(Next(s, Edit(connection, caller, change)))
  {
    hide Edited;
    hide ValidStore;
    EditTouchesOne(s.cs, connection, caller, change);
    hide Changed;
    hide Barred;
  }

  lemma EditKeeps(s: Sys, connection: ConnectionId, caller: Option<string>, change: Change)
    requires Inv(s) && Fits(change)
    ensures Inv(Next(s, Edit(connection, caller, change)))
  {
    hide Edited;
    hide Follows;
    hide Coherent;
    hide Unshared;
    hide NoLeak;
    InvParts(s);
    EditIds(s, connection, caller, change);
    hide StoreInv;
    hide ValidStore;
    var ds := Edited(s.cs, connection, caller, change).0;
    forall k | k in s.cache.entries
      ensures Follows(s.cs, ds, k)
    {
      EditFollows(s.cs, connection, caller, change, k);
    }
    FollowsKeeps(s.cs, ds, s.cache);
  }

  lemma DeletedAre(cs: seq<Record>, connection: ConnectionId, caller: Option<string>, i: nat) returns (j: nat)
    requires i < |Deleted(cs, connection, caller).0|
    ensures j < |cs| && Deleted(cs, connection, caller).0[i] == cs[j] && i <= j <= i + 1
  {
    hide Where;
    var (ds, done) := Deleted(cs, connection, caller);
    j := if done && i >= Where(cs, connection) then i + 1 else i;
  }

  lemma DeletedValid(cs: seq<Record>, connection: ConnectionId, caller: Option<string>)
    requires ValidStore(cs)
    ensures ValidStore(Deleted(cs, connection, caller).0)
  {
    hide Where;
    hide ValidRecord;
    var ds := Deleted(cs, connection, caller).0;
    var at := Where(cs, connection);
    assert ds == cs || forall i :: 0 <= i < |ds| ==> ds[i] == if i < at then cs[i] else cs[i + 1];
  }

  lemma DeletedFollows(cs: seq<Record>, connection: ConnectionId, caller: Option<string>, k: ClientId)
    requires ValidStore(cs)
    ensures Follows(cs, Deleted(cs, connection, caller).0, k)
  {
    var ds := Deleted(cs, connection, caller).0;
    hide ByClient;
    hide ValidStore;
    var r := ByClient(ds, k);
    if r.Some? {
      var i :| 0 <= i < |ds| && ds[i] == r.value;
      var j := DeletedAre(cs, connection, caller, i);
      ByClientIs(cs, j);
    }
    hide Deleted;
  }

  lemma DeleteKeeps(s: Sys, connection: ConnectionId, caller: Option<string>)
    requires Inv(s)
    ensures Inv(Next(s, Delete(connection, caller)))
  {
    var ds := Deleted(s.cs, connection, caller).0;
    hide ValidStore;
    hide Deleted;
    hide Follows;
    hide Coherent;
    hide Unshared;
    DeletedValid(s.cs, connection, caller);
    forall k | k in s.cache.entries
      ensures Follows(s.cs, ds, k)
    {
      DeletedFollows(s.cs, connection, caller, k);
    }
    FollowsKeeps(s.cs, ds, s.cache);
    forall i | 0 <= i < |ds|
      ensures ds[i].client in s.clients && ds[i].connection in s.connections
    {
      var j := DeletedAre(s.cs, connection, caller, i);
    }
  }

  lemma NewIsValid(connection: ConnectionId, client: ClientId, owner: string, title: string)
    ensures ValidRecord(NewRecord(connection, client, owner, title))
  {
  }

  lemma CreateFollows(cs: seq<Record>, r: Record, k: ClientId)
    requires k != r.client
    ensures Follows(cs, cs + [r], k)
  {
    if cs == [] {
      assert cs + [r] == [r] && [r][1..] == [];
    } else {
      assert (cs + [r])[1..] == cs[1..] + [r];
      CreateFollows(cs[1..], r, k);
    }
  }

  lemma CreateKeeps(s: Sys, step: Step)
    requires Inv(s) && step.Create? && Enabled(s, step)
    ensures Inv(Next(s, step))
  {
    hide ByClient;
    hide ValidRecord;
    hide Follows;
    hide Coherent;
    hide Unshared;
    var r := NewRecord(step.connection, step.client, step.owner, step.title);
    NewIsValid(step.connection, step.client, step.owner, step.title);
    var ds := s.cs + [r];
    forall k | k in s.cache.entries
      ensures Follows(s.cs, ds, k)
    {
      CreateFollows(s.cs, r, k);
    }
    FollowsKeeps(s.cs, ds, s.cache);
  }

  // --- a step of the cache -------------------------------------------------------------------

  lemma ForgetKeeps(cs: seq<Record>, c: Cache, client: ClientId)
    requires Coherent(cs, c) && Unshared(c)
    ensures Coherent(cs, c.Forget(client)) && Unshared(c.Forget(client))
    ensures c.Forget(client).entries.Keys == c.entries.Keys - {client}
  {
    hide ByClient;
    hide WellBuilt;
    hide NotStale;
    if client in c.entries {
      var c1 := c.Forget(client);
      assert forall k, id, n :: Holds(c1, k, id, n) <==> Holds(c, k, id, n) && k != client;
      forall n | n in c.entries[client].Serials()
        ensures exists id :: Holds(c, client, id, n)
      {
        var id :| id in c.entries[client].clients && c.entries[client].clients[id].serial == n;
        assert Holds(c, client, id, n);
      }
      hide Holds;
    }
  }

  lemma NewEntryBuilt(r: Record)
    requires ValidRecord(r)
    ensures WellBuilt(NewEntry(r)) && NotStale(NewEntry(r), Some(r))
  {
    ByAgeIs(r.mail.items);
    ByAgeDistinct(r.mail.items);
    SameMembers(ByAge(r.mail.items), r.mail.items);
    ByAgeIs(r.calendars.items);
    ByAgeDistinct(r.calendars.items);
    SameMembers(ByAge(r.calendars.items), r.calendars.items);
    hide ByAge;
  }

  /** The cache with a new entry in the place of whatever there was. */
  function Renewed(c: Cache, client: ClientId, r: Record): Cache {
    c.Forget(client).(entries := c.entries[client := NewEntry(r)])
  }

  lemma RenewedIs(c: Cache, client: ClientId, r: Record)
    ensures var f := c.Forget(client);
            client !in f.entries && Renewed(c, client, r) == f.(entries := f.entries[client := NewEntry(r)])
  {
    hide SetOf;
    var f := c.Forget(client);
    assert c.entries[client := NewEntry(r)] == f.entries[client := NewEntry(r)];
  }

  lemma RenewedKeeps(cs: seq<Record>, c: Cache, client: ClientId, r: Record)
    requires Coherent(cs, c) && Unshared(c) && ByClient(cs, client) == Some(r) && ValidRecord(r)
    ensures Coherent(cs, Renewed(c, client, r)) && Unshared(Renewed(c, client, r))
  {
    hide ByClient;
    hide NewEntry;
    hide WellBuilt;
    hide NotStale;
    hide Cache.Forget;
    hide Unshared;
    hide ValidRecord;
    NewEntryBuilt(r);
    ForgetKeeps(cs, c, client);
    RenewedIs(c, client, r);
    AddedUnshared(c.Forget(client), client, r);
    hide Renewed;
  }

  /** `_entry` answers what the store holds. */
  lemma EntryKeeps(cs: seq<Record>, c: Cache, client: ClientId)
    requires ValidStore(cs) && Coherent(cs, c) && Unshared(c)
    ensures var (c1, entry) := c.Entry(cs, client);
            && Coherent(cs, c1) && Unshared(c1)
            && (entry.None? <==> ByClient(cs, client).None?)
            && (entry.Some? ==>
                  var r := ByClient(cs, client).value;
                  && client in c1.entries && c1.entries[client] == entry.value
                  && entry.value.accounts == SetOf(r.mail) && entry.value.calendars == SetOf(r.calendars))
  {
    hide ByClient;
    hide SetOf;
    hide Cache.Forget;
    hide WellBuilt;
    hide Unshared;
    hide ValidRecord;
    ForgetKeeps(cs, c, client);
    var r := ByClient(cs, client);
    if r.Some? {
      assert ValidRecord(r.value);
      RenewedKeeps(cs, c, client, r.value);
      assert client in c.entries ==> NotStale(c.entries[client], r);
    }
    hide Coherent;
  }

  lemma AddedUnshared(c: Cache, client: ClientId, r: Record)
    requires Unshared(c) && client !in c.entries
    ensures Unshared(c.(entries := c.entries[client := NewEntry(r)]))
  {
    hide SetOf;
    var c1 := c.(entries := c.entries[client := NewEntry(r)]);
    assert forall k, id, n :: Holds(c1, k, id, n) <==> Holds(c, k, id, n);
    hide Holds;
  }

  // --- no client is lost ---------------------------------------------------------------------

  /** What is kept is kept, shut down, or the one client that is new. */
  lemma StillAccounted(c: Cache, d: Cache)
    requires NoLeak(c) && c.closed <= d.closed
    requires forall k, id, n :: Holds(c, k, id, n) ==> Holds(d, k, id, n) || n in d.closed
    requires d.next == c.next || (d.next == c.next + 1 && exists k, id :: Holds(d, k, id, c.next))
    ensures NoLeak(d)
  {
    hide Holds;
    forall n: nat | n < d.next
      ensures Accounted(d, n)
    {
      if n < c.next {
        assert Accounted(c, n);
        if n !in c.closed {
          var k, id :| Holds(c, k, id, n);
          assert Holds(d, k, id, n) || n in d.closed;
        }
      }
    }
  }

  lemma ForgetNoLeak(c: Cache, client: ClientId)
    requires NoLeak(c)
    ensures NoLeak(c.Forget(client))
  {
    var d := c.Forget(client);
    assert forall k, id, n :: Holds(c, k, id, n) ==> Holds(d, k, id, n) || n in d.closed;
    hide NoLeak;
    hide Holds;
    StillAccounted(c, d);
  }

  lemma EntryNoLeak(cs: seq<Record>, c: Cache, client: ClientId)
    requires NoLeak(c)
    ensures NoLeak(c.Entry(cs, client).0)
  {
    hide ByClient;
    hide NoLeak;
    hide SetOf;
    hide Holds;
    ForgetNoLeak(c, client);
    var r := ByClient(cs, client);
    if r.Some? {
      var f, d := c.Forget(client), Renewed(c, client, r.value);
      RenewedHolds(c, client, r.value);
      StillAccounted(f, d);
      hide Cache.Forget;
    }
  }

  lemma RenewedHolds(c: Cache, client: ClientId, r: Record)
    ensures forall k, id, n :: Holds(c.Forget(client), k, id, n) ==> Holds(Renewed(c, client, r), k, id, n)
  {
    hide SetOf;
  }

  lemma ClientNoLeak(c: Cache, client: ClientId, a: Account)
    requires NoLeak(c) && client in c.entries
    ensures NoLeak(c.ClientFor(client, a).0)
  {
    hide NoLeak;
    if a.id !in c.entries[client].clients {
      var d := Adding(c, client, a);
      assert forall k, id, n :: Holds(c, k, id, n) ==> Holds(d, k, id, n);
      assert Holds(d, client, a.id, c.next);
      hide Holds;
      StillAccounted(c, d);
    }
  }

  lemma UseNoLeak(cs: seq<Record>, c: Cache, client: ClientId, mail: bool, named: Option<Selector>)
    requires NoLeak(c) && ValidStore(cs) && Coherent(cs, c) && Unshared(c)
    ensures NoLeak(Use(c, cs, client, mail, named).0)
  {
    hide Cache.Entry;
    hide Cache.ClientFor;
    hide ByClient;
    hide SetOf;
    hide Resolve;
    hide NoLeak;
    hide Coherent;
    hide Unshared;
    hide ValidStore;
    EntryNoLeak(cs, c, client);
    EntryKeeps(cs, c, client);
    var (c1, entry) := c.Entry(cs, client);
    if entry.Some? {
      var account := Resolve(if mail then entry.value.accounts else entry.value.calendars, named);
      if account.Some? {
        ClientNoLeak(c1, client, account.value);
      }
    }
  }

  lemma ReapNoLeak(cs: seq<Record>, c: Cache, client: ClientId, idle: set<nat>)
    requires NoLeak(c)
    ensures NoLeak(c.Reap(cs, client, idle))
  {
    hide ByClient;
    hide NoLeak;
    ForgetNoLeak(c, client);
    hide Cache.Forget;
    if client in c.entries && ByClient(cs, client).Some? {
      var d := c.Reap(cs, client, idle);
      assert forall k, id, n :: Holds(c, k, id, n) ==> Holds(d, k, id, n) || n in d.closed;
      hide Holds;
      StillAccounted(c, d);
    }
  }

  predicate Among(e: Entry, a: Account) {
    a in e.accounts.accounts || a in e.calendars.accounts
  }

  /** Two accounts of one entry under one id are one account. */
  lemma OneAccount(e: Entry, a: Account, b: Account)
    requires WellBuilt(e) && Among(e, a) && Among(e, b) && a.id == b.id
    ensures a == b
  {
    if a.id.Box? {
      var i :| 0 <= i < |e.accounts.accounts| && e.accounts.accounts[i] == a;
      var j :| 0 <= j < |e.accounts.accounts| && e.accounts.accounts[j] == b;
    } else {
      var i :| 0 <= i < |e.calendars.accounts| && e.calendars.accounts[i] == a;
      var j :| 0 <= j < |e.calendars.accounts| && e.calendars.accounts[j] == b;
    }
  }

  function Adding(c: Cache, client: ClientId, a: Account): Cache
    requires client in c.entries
  {
    var e := c.entries[client];
    c.(entries := c.entries[client := e.(clients := e.clients[a.id := Client(c.next, a)])], next := c.next + 1)
  }

  lemma AddingUnshared(c: Cache, client: ClientId, a: Account)
    requires Unshared(c) && client in c.entries && a.id !in c.entries[client].clients
    ensures Unshared(Adding(c, client, a)) && c.next !in c.closed
  {
    var c1 := Adding(c, client, a);
    assert forall k, id, n :: Holds(c1, k, id, n) <==> Holds(c, k, id, n) || (k == client && id == a.id && n == c.next);
    hide Holds;
    hide Adding;
  }

  lemma AddingCoherent(cs: seq<Record>, c: Cache, client: ClientId, a: Account)
    requires Coherent(cs, c) && client in c.entries && Among(c.entries[client], a)
    ensures Coherent(cs, Adding(c, client, a))
  {
    hide ByClient;
    hide SetOf;
    hide Distinct;
    hide AllBoxes;
    hide AllCals;
    var e := c.entries[client];
    var now := Adding(c, client, a).entries[client];
    assert WellBuilt(now) && NotStale(now, ByClient(cs, client));
    hide WellBuilt;
    hide NotStale;
  }

  /** A client handed out for an account of the entry was built from it, and was never shut down. */
  lemma ClientKeeps(cs: seq<Record>, c: Cache, client: ClientId, a: Account)
    requires Coherent(cs, c) && Unshared(c) && client in c.entries && Among(c.entries[client], a)
    ensures var (c1, live) := c.ClientFor(client, a);
            && Coherent(cs, c1) && Unshared(c1) && c1.entries.Keys == c.entries.Keys
            && live.account == a && live.serial !in c1.closed
  {
    hide ByClient;
    var e := c.entries[client];
    if a.id in e.clients {
      assert WellBuilt(e) && Among(e, e.clients[a.id].account) && e.clients[a.id].account.id == a.id by { hide Unshared; hide NotStale; }
      OneAccount(e, e.clients[a.id].account, a);
      assert e.clients[a.id].serial !in c.closed by { assert Holds(c, client, a.id, e.clients[a.id].serial); hide Coherent; }
    } else {
      AddingUnshared(c, client, a);
      AddingCoherent(cs, c, client, a);
      assert c.ClientFor(client, a).0 == Adding(c, client, a);
    }
    hide Coherent;
    hide Unshared;
  }

  lemma ResolvedAmong(e: Entry, mail: bool, named: Option<Selector>)
    ensures var a := Resolve(if mail then e.accounts else e.calendars, named);
            a.Some? ==> Among(e, a.value)
  {
    hide Position;
    var s := if mail then e.accounts else e.calendars;
    if named.Some? {
      MatchIsThere(s.accounts, named.value);
      hide FirstMatch;
    }
  }

  lemma {:induction false} MatchIsThere(items: seq<Account>, named: Selector)
    ensures FirstMatch(items, named).Some? ==> FirstMatch(items, named).value in items
  {
    if items != [] {
      MatchIsThere(items[1..], named);
    }
  }

  /** Resolving a call and taking its client: the account is the store's, by name or by
      default, and the client was built from it. */
  lemma UseKeeps(cs: seq<Record>, c: Cache, client: ClientId, mail: bool, named: Option<Selector>)
    requires ValidStore(cs) && Coherent(cs, c) && Unshared(c)
    ensures var (c1, used) := Use(c, cs, client, mail, named);
            && Coherent(cs, c1) && Unshared(c1)
            && c1.entries.Keys <= c.entries.Keys + (if ByClient(cs, client).Some? then {client} else {})
            && (used.Some? ==>
                  && ByClient(cs, client).Some?
                  && var r := ByClient(cs, client).value;
                  && Resolve(SetOf(if mail then r.mail else r.calendars), named) == Some(used.value.0)
                  && used.value.1.account == used.value.0 && used.value.1.serial !in c1.closed)
  {
    hide Cache.Entry;
    hide Cache.ClientFor;
    hide ByClient;
    hide SetOf;
    hide Resolve;
    hide Among;
    hide Coherent;
    hide Unshared;
    hide ValidStore;
    EntryKeeps(cs, c, client);
    KeysAfterEntry(cs, c, client);
    var (c1, entry) := c.Entry(cs, client);
    if entry.Some? {
      ResolvedAmong(entry.value, mail, named);
      var account := Resolve(if mail then entry.value.accounts else entry.value.calendars, named);
      if account.Some? {
        ClientKeeps(cs, c1, client, account.value);
      }
    }
  }

  lemma KeysAfterEntry(cs: seq<Record>, c: Cache, client: ClientId)
    ensures c.Entry(cs, client).0.entries.Keys <= c.entries.Keys + (if ByClient(cs, client).Some? then {client} else {})
  {
    hide ByClient;
    hide SetOf;
  }

  lemma ReapedBuilt(e: Entry, r: Option<Record>, idle: set<nat>)
    requires WellBuilt(e) && NotStale(e, r)
    ensures var kept := e.(clients := e.Without(idle)); WellBuilt(kept) && NotStale(kept, r)
  {
    hide Distinct;
    hide AllBoxes;
    hide AllCals;
    hide SetOf;
  }

  lemma ReapKeeps(cs: seq<Record>, c: Cache, client: ClientId, idle: set<nat>)
    requires Coherent(cs, c) && Unshared(c)
    ensures Coherent(cs, c.Reap(cs, client, idle)) && Unshared(c.Reap(cs, client, idle))
    ensures c.Reap(cs, client, idle).entries.Keys <= c.entries.Keys
  {
    hide ByClient;
    hide Cache.Forget;
    hide WellBuilt;
    hide NotStale;
    hide Unshared;
    ForgetKeeps(cs, c, client);
    if client in c.entries && ByClient(cs, client).Some? {
      ReapedBuilt(c.entries[client], ByClient(cs, client), idle);
      ReapUnshared(c, client, idle);
    }
  }

  lemma ReapUnshared(c: Cache, client: ClientId, idle: set<nat>)
    requires Unshared(c) && client in c.entries
    ensures var e := c.entries[client];
            Unshared(c.(entries := c.entries[client := e.(clients := e.Without(idle))], closed := c.closed + (e.Serials() * idle)))
  {
    var e := c.entries[client];
    var c1 := c.(entries := c.entries[client := e.(clients := e.Without(idle))], closed := c.closed + (e.Serials() * idle));
    assert forall k, id, n :: Holds(c1, k, id, n) <==> Holds(c, k, id, n) && !(k == client && n in idle);
    forall n | n in e.Serials()
      ensures exists id :: Holds(c, client, id, n)
    {
      var id :| id in e.clients && e.clients[id].serial == n;
      assert Holds(c, client, id, n);
    }
    hide Holds;
  }

  /** A step of the cache alone, to `c`. */
  lemma CacheStep(s: Sys, c: Cache, client: ClientId)
    requires Inv(s) && Coherent(s.cs, c) && Unshared(c) && NoLeak(c)
    requires c.entries.Keys <= s.cache.entries.Keys + (if ByClient(s.cs, client).Some? then {client} else {})
    ensures Inv(s.(cache := c))
  {
    hide ByClient;
    hide Coherent;
    hide Unshared;
    hide NoLeak;
    hide ValidStore;
    assert ByClient(s.cs, client).Some? ==> client in s.clients;
  }

  lemma StepKeeps(s: Sys, step: Step)
    requires Inv(s) && Enabled(s, step)
    ensures Inv(Next(s, step))
  {
    hide Inv;
    hide ByClient;
    hide Coherent;
    hide Unshared;
    hide NoLeak;
    hide ValidStore;
    hide Edited;
    hide Deleted;
    hide Use;
    hide Cache.Entry;
    hide Cache.Forget;
    hide Cache.Reap;
    InvParts(s);
    var c := Next(s, step).cache;
    match step {
      case Create(_, _, _, _) => CreateKeeps(s, step);
      case Delete(connection, caller) => DeleteKeeps(s, connection, caller);
      case Edit(connection, caller, change) => EditKeeps(s, connection, caller, change);
      case ForgetClient(client) => ForgetKeeps(s.cs, s.cache, client); ForgetNoLeak(s.cache, client); CacheStep(s, c, client);
      case LookUp(client) =>
        EntryKeeps(s.cs, s.cache, client);
        KeysAfterEntry(s.cs, s.cache, client);
        EntryNoLeak(s.cs, s.cache, client);
        CacheStep(s, c, client);
      case UseAccount(client, mail, named) =>
        UseKeeps(s.cs, s.cache, client, mail, named);
        UseNoLeak(s.cs, s.cache, client, mail, named);
        CacheStep(s, c, client);
      case ReapEntry(client, idle) =>
        ReapKeeps(s.cs, s.cache, client, idle);
        ReapNoLeak(s.cs, s.cache, client, idle);
        CacheStep(s, c, client);
    }
  }

  lemma InvParts(s: Sys)
    requires Inv(s)
    ensures ValidStore(s.cs) && Coherent(s.cs, s.cache) && Unshared(s.cache) && NoLeak(s.cache)
  {
  }

  lemma {:induction false} RunKeeps(steps: seq<Step>)
    requires Possible(steps)
    ensures Inv(Run(steps))
  {
    hide Inv;
    hide Next;
    if steps == [] {
      StartHolds();
    } else {
      var n := |steps| - 1;
      assert Possible(steps[..n]) by {
        forall i | 0 <= i < n
          ensures Enabled(Run(steps[..n][..i]), steps[..n][i])
        {
          assert steps[..n][..i] == steps[..i];
        }
      }
      RunKeeps(steps[..n]);
      StepKeeps(Run(steps[..n]), steps[n]);
    }
  }

  lemma StartHolds()
    ensures Inv(Start())
  {
  }

  /** In every run of store changes, deletions, forgetting, reaping and calls: what a lookup
      answers is what the store holds now, and a client it leads to was built from the
      account the store now has under that id, and was never shut down. */
  lemma CacheCoherence(steps: seq<Step>, client: ClientId, mail: bool, named: Option<Selector>)
    requires Possible(steps)
    ensures var s := Run(steps);
            var record := ByClient(s.cs, client);
            var entry := s.cache.Entry(s.cs, client).1;
            var (c1, used) := Use(s.cache, s.cs, client, mail, named);
            && (entry.None? <==> record.None?)
            && (entry.Some? ==> entry.value.accounts == SetOf(record.value.mail) && entry.value.calendars == SetOf(record.value.calendars))
            && (used.Some? ==>
                  && record.Some?
                  && Resolve(SetOf(if mail then record.value.mail else record.value.calendars), named) == Some(used.value.0)
                  && used.value.1.account == used.value.0 && used.value.1.serial !in c1.closed)
  {
    RunKeeps(steps);
    var s := Run(steps);
    EntryKeeps(s.cs, s.cache, client);
    UseKeeps(s.cs, s.cache, client, mail, named);
    hide ByClient;
    hide Use;
    hide Cache.Entry;
    hide SetOf;
    hide Resolve;
  }

  /** In every run, a client ever made is either kept, for one account of one connection, or
      was shut down; never both, never neither. */
  lemma ClientsAccountedFor(steps: seq<Step>, n: nat)
    requires Possible(steps) && n < Run(steps).cache.next
    ensures var c := Run(steps).cache;
            && (n in c.closed <==> !exists k, id :: Holds(c, k, id, n))
            && forall k, id, l, jd :: Holds(c, k, id, n) && Holds(c, l, jd, n) ==> k == l && id == jd
  {
    hide Run;
    hide Possible;
    hide Holds;
    RunKeeps(steps);
    InvParts(Run(steps));
    assert Accounted(Run(steps).cache, n);
    hide Inv;
  }

  // --- when a client is kept --------------------------------------------------------------------

  /** The store no longer has the connection at the revision the entry was made for. */
  predicate OutOfDate(s: Sys, k: ClientId)
    requires k in s.cache.entries
  {
    ByClient(s.cs, k) == None || ByClient(s.cs, k).value.revision != s.cache.entries[k].revision
  }

  /** The step is what ends the client `n` of connection `k`. */
  predicate Ends(s: Sys, step: Step, k: ClientId, n: nat)
    requires k in s.cache.entries
  {
    match step
    case ForgetClient(client) => client == k
    case LookUp(client) => client == k && OutOfDate(s, k)
    case UseAccount(client, _, _) => client == k && OutOfDate(s, k)
    case ReapEntry(client, idle) => client == k && (n in idle || ByClient(s.cs, k) == None)
    case _ => false
  }

  lemma EntryHolds(s: Sys, client: ClientId, k: ClientId, id: AccountId, n: nat)
    ensures var c := s.cache.Entry(s.cs, client).0;
            && (Holds(c, k, id, n) <==> Holds(s.cache, k, id, n) && !(client == k && OutOfDate(s, k)))
            && c.next == s.cache.next
  {
    hide ByClient, SetOf;
  }

  lemma ClientHolds(c: Cache, client: ClientId, account: Account, k: ClientId, id: AccountId, n: nat)
    requires n < c.next
    ensures Holds(c.ClientFor(client, account).0, k, id, n) <==> Holds(c, k, id, n)
  {
  }

  lemma ReapHolds(s: Sys, client: ClientId, idle: set<nat>, k: ClientId, id: AccountId, n: nat)
    ensures Holds(s.cache.Reap(s.cs, client, idle), k, id, n) <==>
            Holds(s.cache, k, id, n) && !(client == k && (n in idle || ByClient(s.cs, k) == None))
  {
    hide ByClient;
  }

  /** A client is kept from step to step exactly until its connection is forgotten, it is idle
      when its entry is reaped, or its entry is looked at when the store has moved on. */
  lemma KeptIff(s: Sys, step: Step, k: ClientId, id: AccountId, n: nat)
    requires n < s.cache.next
    ensures Holds(Next(s, step).cache, k, id, n) <==> Holds(s.cache, k, id, n) && !Ends(s, step, k, n)
  {
    hide ByClient, Cache.Entry, Cache.Reap, Cache.ClientFor, Edited, Deleted, Resolve;
    match step
    case LookUp(client) => EntryHolds(s, client, k, id, n);
    case UseAccount(client, mail, named) =>
      EntryHolds(s, client, k, id, n);
      var (c1, entry) := s.cache.Entry(s.cs, client);
      if entry.Some? {
        var account := Resolve(if mail then entry.value.accounts else entry.value.calendars, named);
        if account.Some? {
          ClientHolds(c1, client, account.value, k, id, n);
        }
      }
    case ReapEntry(client, idle) => ReapHolds(s, client, idle, k, id, n);
    case _ =>
  }

  /** A call gets the client that is kept for its account; one is made only where none is. */
  lemma ClientReused(s: Sys, client: ClientId, mail: bool, named: Option<Selector>)
    requires Inv(s)
    ensures var (c, used) := Use(s.cache, s.cs, client, mail, named);
            used.Some? ==>
              var (account, live) := used.value;
              && Holds(c, client, account.id, live.serial)
              && (forall n :: Holds(s.cache, client, account.id, n) && !OutOfDate(s, client) ==> live.serial == n && c == s.cache)
              && (live.serial == s.cache.next || Holds(s.cache, client, account.id, live.serial))
              && c.next == s.cache.next + (if live.serial == s.cache.next then 1 else 0)
  {
    hide ByClient, SetOf, Resolve, Coherent, NoLeak, StoreInv;
  }
}
