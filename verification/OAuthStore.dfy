/** The OAuth part of the connection store: codes, access tokens and refresh tokens.

    Secrets are kept by their SHA-256 digest, taken to be injective, so a secret is
    represented by its digest throughout. Writing the file is not part of this model.
  */
module OAuthStore {
  import opened Prelude

  /** A digest, read as a number: comparing the hexadecimal texts is comparing these. */
  type Digest = nat

  type Scopes = seq<string>

  const MAX_CODES_PER_CLIENT: nat := 20

  /** A stored record. Codes have no family; only a refresh token names the access token
      issued beside it and can be marked consumed. */
  datatype Record = Record(client: string, scopes: Scopes, expires: int, family: string,
                           beside: Option<Digest>, consumed: bool)

  type Bucket = map<Digest, Record>

  // --- bulk deletion ------------------------------------------------------------

  /** The tests under which the store pops records. */
  datatype Test =
    | Lapsed(now: int)          // expires_at < now
    | TimedOut(now: int)        // the same, but a zero expiry means none
    | OfClient(client: string)
    | OfFamily(family: string)
    | IssuedBeside(access: Digest)
  {
    predicate Holds(r: Record) {
      match this
      case Lapsed(now) => r.expires < now
      case TimedOut(now) => r.expires != 0 && r.expires < now
      case OfClient(client) => r.client == client
      case OfFamily(family) => r.family == family
      case IssuedBeside(access) => r.beside == Some(access)
    }
  }

  function Without(bucket: Bucket, test: Test): (left: Bucket)
    ensures left.Keys <= bucket.Keys
  {
    map k | k in bucket && !test.Holds(bucket[k]) :: bucket[k]
  }

  /** The loop every bulk deletion runs: over the items of a dictionary, popping some keys. */
  method PopWhere(bucket: Bucket, test: Test) returns (left: Bucket, removed: nat)
    ensures left == Without(bucket, test)
    ensures removed == |bucket| - |left|
  {
    left, removed := bucket, 0;
    var keys := bucket.Keys;
    while keys != {}
      invariant keys <= left.Keys <= bucket.Keys
      invariant forall k :: k in left ==> left[k] == bucket[k]
      invariant forall k :: k in bucket ==> (k in left <==> k in keys || !test.Holds(bucket[k]))
      invariant removed == |bucket| - |left|
      decreases keys
    {
      var k :| k in keys;
      keys := keys - {k};
      if test.Holds(left[k]) {
        PopSize(left, k);
        left := left - {k};
        removed := removed + 1;
      }
    }
  }

  lemma PopSize(m: Bucket, k: Digest)
    requires k in m
    ensures |m - {k}| == |m| - 1
  {
    assert (m - {k}).Keys == m.Keys - {k};
  }

  // --- what each mutation does to the dictionaries ------------------------------

  datatype Store = Store(codes: Bucket, tokens: Bucket, refresh: Bucket) {

    function PopCode(code: Digest): Store {
      this.(codes := codes - {code})
    }

    /** Keep an access token `a`, and the refresh token `r` issued with it. */
    function SaveToken(a: Digest, r: Digest, client: string, scopes: Scopes,
                       accessExpires: int, refreshExpires: int, family: string): Store {
      this.(tokens := tokens[a := Record(client, scopes, accessExpires, family, None, false)],
            refresh := refresh[r := Record(client, scopes, refreshExpires, family, Some(a), false)])
    }

    /** Retire a refresh token but remember it, and drop the access token issued beside it. */
    function ConsumeRefresh(r: Digest): Store {
      if r in refresh then
        this.(tokens := if refresh[r].beside.Some? then tokens - {refresh[r].beside.value} else tokens,
              refresh := refresh[r := refresh[r].(consumed := true)])
      else
        this
    }

    function RevokeFamily(family: string): Store {
      if family == "" then this
      else this.(tokens := Without(tokens, OfFamily(family)), refresh := Without(refresh, OfFamily(family)))
    }

    function ExpireAccess(token: Digest): Store {
      this.(tokens := tokens - {token})
    }

    /** Drop a token, and the refresh tokens issued beside it. */
    function RevokeHash(h: Digest): Store {
      this.(tokens := tokens - {h}, refresh := Without(refresh - {h}, IssuedBeside(h)))
    }

    function PurgeExpired(now: int): Store {
      Store(Without(codes, TimedOut(now)), Without(tokens, TimedOut(now)), Without(refresh, TimedOut(now)))
    }

    function DropClient(client: string): Store {
      Store(Without(codes, OfClient(client)), Without(tokens, OfClient(client)),
            Without(refresh, OfClient(client)))
    }
  }

  const EmptyStore: Store := Store(map[], map[], map[])

  // --- saving a code ------------------------------------------------------------

  /** The order of `(expires_at, key)` pairs. */
  predicate Earlier(codes: Bucket, j: Digest, k: Digest) {
    && j in codes && k in codes
    && (codes[j].expires < codes[k].expires || (codes[j].expires == codes[k].expires && j < k))
  }

  ghost predicate AllEarlier(codes: Bucket, first: set<Digest>, last: set<Digest>) {
    forall j, k :: j in first && k in last ==> Earlier(codes, j, k)
  }

  function CodesOf(codes: Bucket, client: string): set<Digest> {
    set k | k in codes && codes[k].client == client
  }

  /** How many of `n` pending codes must go to leave room for one more. */
  function Surplus(n: nat): nat {
    if n < MAX_CODES_PER_CLIENT then 0 else n - MAX_CODES_PER_CLIENT + 1
  }

  ghost predicate Evicts(live: Bucket, client: string, evicted: set<Digest>) {
    var mine := CodesOf(live, client);
    evicted <= mine && |evicted| == Surplus(|mine|) && AllEarlier(live, evicted, mine - evicted)
  }

  /** `after` is what `save_code` leaves: the unexpired codes, less just enough of this
      client's first to expire, and the new one. */
  ghost predicate CodeSaved(before: Bucket, after: Bucket, now: int, d: Digest, code: Record) {
    exists evicted: set<Digest> ::
      && Evicts(Without(before, Lapsed(now)), code.client, evicted)
      && after == (Without(before, Lapsed(now)) - evicted)[d := code]
  }

  lemma EvictionLeaves(live: Bucket, evicted: set<Digest>, d: Digest, code: Record)
    requires Evicts(live, code.client, evicted)
    ensures |CodesOf((live - evicted)[d := code], code.client)| <= MAX_CODES_PER_CLIENT
  {
    var mine := CodesOf(live, code.client);
    var rest := mine - evicted;
    assert |rest| == |mine| - |evicted|;
    var kept := CodesOf((live - evicted)[d := code], code.client);
    assert kept <= rest + {d};
    assert rest + {d} == kept + ((rest + {d}) - kept);
  }

  /** At most 20 codes, in whatever state the store was: the client's latest to expire and
      the new one; another client only loses codes that had expired. */
  lemma CodeCap(before: Bucket, after: Bucket, now: int, d: Digest, code: Record)
    requires CodeSaved(before, after, now, d, code)
    ensures |CodesOf(after, code.client)| <= MAX_CODES_PER_CLIENT
    ensures d in after && after[d] == code
    ensures forall k :: k in after && k != d ==> k in before && after[k] == before[k] && after[k].expires >= now
    ensures forall k :: k in before && before[k].expires >= now && before[k].client != code.client && k != d
                    ==> k in after && after[k] == before[k]
    ensures forall j, k :: j in before && before[j].expires >= now && before[j].client == code.client && j !in after
                        && k in after && k != d && after[k].client == code.client
                    ==> before[j].expires <= after[k].expires
  {
    var live := Without(before, Lapsed(now));
    var evicted: set<Digest> :| Evicts(live, code.client, evicted) && after == (live - evicted)[d := code];
    EvictionLeaves(live, evicted, d, code);
    forall j, k | j in before && before[j].expires >= now && before[j].client == code.client && j !in after
                  && k in after && k != d && after[k].client == code.client
      ensures before[j].expires <= after[k].expires
    {
      assert j in evicted && k in CodesOf(live, code.client) - evicted;
      assert Earlier(live, j, k);
    }
  }

  /** A client below the cap loses no unexpired code. */
  lemma RoomForOneMore(before: Bucket, after: Bucket, now: int, d: Digest, code: Record)
    requires CodeSaved(before, after, now, d, code)
    requires |CodesOf(Without(before, Lapsed(now)), code.client)| < MAX_CODES_PER_CLIENT
    ensures after == Without(before, Lapsed(now))[d := code]
  {
    var live := Without(before, Lapsed(now));
    var evicted: set<Digest> :| Evicts(live, code.client, evicted) && after == (live - evicted)[d := code];
    assert evicted == {};
    assert live - evicted == live;
  }

  // --- sorting the pending codes --------------------------------------------------

  ghost predicate SortedBy(codes: Bucket, s: seq<Digest>) {
    && (forall i :: 0 <= i < |s| ==> s[i] in codes)
    && forall i, j :: 0 <= i < j < |s| ==> Earlier(codes, s[i], s[j])
  }

  ghost function Elements(s: seq<Digest>): set<Digest> {
    set x | x in s
  }

  lemma {:induction false} SortedSize(codes: Bucket, s: seq<Digest>)
    requires SortedBy(codes, s)
    ensures |Elements(s)| == |s|
  {
    if s != [] {
      var n := |s| - 1;
      SortedSize(codes, s[..n]);
      forall i | 0 <= i < n
        ensures s[i] != s[n]
      {
        assert Earlier(codes, s[i], s[n]);
      }
      assert Elements(s) == Elements(s[..n]) + {s[n]};
    }
  }

  /** `sorted(...)` of the keys, by insertion. */
  function InsertKey(codes: Bucket, k: Digest, s: seq<Digest>): seq<Digest> {
    if s == [] || Earlier(codes, k, s[0]) then [k] + s else [s[0]] + InsertKey(codes, k, s[1..])
  }

  lemma {:induction false} InsertKeySorts(codes: Bucket, k: Digest, s: seq<Digest>)
    requires k in codes && SortedBy(codes, s) && k !in s
    ensures SortedBy(codes, InsertKey(codes, k, s))
    ensures forall x :: x in InsertKey(codes, k, s) <==> x in s || x == k
  {
    if s != [] && !Earlier(codes, k, s[0]) {
      InsertKeySorts(codes, k, s[1..]);
      var t := InsertKey(codes, k, s[1..]);
      assert Earlier(codes, s[0], k);
      forall i | 0 <= i < |t|
        ensures Earlier(codes, s[0], t[i])
      {
        assert t[i] in s[1..] || t[i] == k;
      }
    }
  }

  /** Popping the head of the sorted keys evicts the first to expire. */
  lemma HeadIsEvicted(live: Bucket, mine: seq<Digest>, client: string)
    requires SortedBy(live, mine) && Elements(mine) == CodesOf(live, client)
    ensures Surplus(|mine|) <= |mine| && Evicts(live, client, Elements(mine[..Surplus(|mine|)]))
  {
    var n := Surplus(|mine|);
    var evicted := Elements(mine[..n]);
    SortedSize(live, mine);
    SortedSize(live, mine[..n]);
    assert forall i :: 0 <= i < n ==> mine[..n][i] == mine[i];
    forall j, k | j in evicted && k in Elements(mine) - evicted
      ensures Earlier(live, j, k)
    {
      var a :| 0 <= a < n && mine[a] == j;
      var b :| 0 <= b < |mine| && mine[b] == k;
    }
  }

  // --- what is left -----------------------------------------------------------------------

  /** Revoking a token takes it, and the refresh token issued beside it; nothing else. */
  lemma RevokedIff(s: Store, h: Digest, k: Digest)
    ensures var t := s.RevokeHash(h);
            && t.codes == s.codes
            && (k in t.tokens <==> k in s.tokens && k != h)
            && (k in t.refresh <==> k in s.refresh && k != h && s.refresh[k].beside != Some(h))
            && (k in t.tokens ==> t.tokens[k] == s.tokens[k])
            && (k in t.refresh ==> t.refresh[k] == s.refresh[k])
  {
  }

  /** A purge takes what has an expiry that is past, of every kind; nothing else. */
  lemma PurgedIff(s: Store, now: int, k: Digest)
    ensures var t := s.PurgeExpired(now);
            && (k in t.codes <==> k in s.codes && (s.codes[k].expires == 0 || now <= s.codes[k].expires))
            && (k in t.tokens <==> k in s.tokens && (s.tokens[k].expires == 0 || now <= s.tokens[k].expires))
            && (k in t.refresh <==> k in s.refresh && (s.refresh[k].expires == 0 || now <= s.refresh[k].expires))
            && (k in t.codes ==> t.codes[k] == s.codes[k])
            && (k in t.tokens ==> t.tokens[k] == s.tokens[k])
            && (k in t.refresh ==> t.refresh[k] == s.refresh[k])
  {
  }

  /** Ending a family takes its tokens of both kinds; an empty name is no family. */
  lemma FamilyEndedIff(s: Store, family: string, k: Digest)
    ensures var t := s.RevokeFamily(family);
            && t.codes == s.codes
            && (k in t.tokens <==> k in s.tokens && (family == "" || s.tokens[k].family != family))
            && (k in t.refresh <==> k in s.refresh && (family == "" || s.refresh[k].family != family))
            && (k in t.tokens ==> t.tokens[k] == s.tokens[k])
            && (k in t.refresh ==> t.refresh[k] == s.refresh[k])
  {
  }

  // --- the class ------------------------------------------------------------------

  class ConnectionStore {
    var codes: Bucket
    var tokens: Bucket
    var refresh: Bucket

    function View(): Store
      reads this
    {
      Store(codes, tokens, refresh)
    }

    constructor ()
      ensures View() == EmptyStore
    {
      codes, tokens, refresh := map[], map[], map[];
    }

    method SaveCode(now: int, d: Digest, code: Record)
      modifies this`codes
      ensures CodeSaved(old(codes), codes, now, d, code)
    {
      var n;
      codes, n := PopWhere(codes, Lapsed(now));
      var live := codes;
      var mine := CodesInOrder(live, code.client);
      HeadIsEvicted(live, mine, code.client);
      PopHead(mine, Surplus(|mine|));
      codes := codes[d := code];
    }

    method PopHead(mine: seq<Digest>, n: nat)
      requires n <= |mine|
      modifies this`codes
      ensures codes == old(codes) - Elements(mine[..n])
    {
      for i := 0 to n
        invariant codes == old(codes) - Elements(mine[..i])
      {
        codes := codes - {mine[i]};
        assert Elements(mine[..i + 1]) == Elements(mine[..i]) + {mine[i]};
      }
    }

    method PopCode(code: Digest)
      modifies this
      ensures View() == old(View()).PopCode(code)
    {
      codes := codes - {code};
    }

    method SaveToken(a: Digest, r: Digest, client: string, scopes: Scopes,
                     accessExpires: int, refreshExpires: int, family: string)
      modifies this
      ensures View() == old(View()).SaveToken(a, r, client, scopes, accessExpires, refreshExpires, family)
    {
      tokens := tokens[a := Record(client, scopes, accessExpires, family, None, false)];
      refresh := refresh[r := Record(client, scopes, refreshExpires, family, Some(a), false)];
    }

    method ConsumeRefresh(r: Digest)
      modifies this
      ensures View() == old(View()).ConsumeRefresh(r)
    {
      if r in refresh {
        if refresh[r].beside.Some? {
          tokens := tokens - {refresh[r].beside.value};
        }
        refresh := refresh[r := refresh[r].(consumed := true)];
      } else {
        refresh := refresh - {r};
      }
    }

    /** The number returned is that of the tokens of the family the store held. */
    method RevokeFamily(family: string) returns (removed: nat)
      modifies this
      ensures View() == old(View()).RevokeFamily(family)
      ensures removed == (|old(tokens)| - |tokens|) + (|old(refresh)| - |refresh|)
    {
      if family == "" {
        return 0;
      }
      var fromTokens, fromRefresh;
      tokens, fromTokens := PopWhere(tokens, OfFamily(family));
      refresh, fromRefresh := PopWhere(refresh, OfFamily(family));
      removed := fromTokens + fromRefresh;
    }

    method ExpireAccess(token: Digest)
      modifies this
      ensures View() == old(View()).ExpireAccess(token)
    {
      tokens := tokens - {token};
    }

    method RevokeHash(h: Digest)
      modifies this
      ensures View() == old(View()).RevokeHash(h)
    {
      var n;
      tokens := tokens - {h};
      refresh := refresh - {h};
      refresh, n := PopWhere(refresh, IssuedBeside(h));
    }

    method PurgeExpired(now: int) returns (removed: nat)
      modifies this
      ensures View() == old(View()).PurgeExpired(now)
      ensures removed == (|old(codes)| - |codes|) + (|old(tokens)| - |tokens|) + (|old(refresh)| - |refresh|)
    {
      var fromCodes, fromTokens, fromRefresh;
      codes, fromCodes := PopWhere(codes, TimedOut(now));
      tokens, fromTokens := PopWhere(tokens, TimedOut(now));
      refresh, fromRefresh := PopWhere(refresh, TimedOut(now));
      removed := fromCodes + fromTokens + fromRefresh;
    }

    method DropClient(client: string)
      modifies this
      ensures View() == old(View()).DropClient(client)
    {
      var n;
      tokens, n := PopWhere(tokens, OfClient(client));
      refresh, n := PopWhere(refresh, OfClient(client));
      codes, n := PopWhere(codes, OfClient(client));
    }
  }

  /** The client's pending codes, first to expire first. */
  method CodesInOrder(codes: Bucket, client: string) returns (mine: seq<Digest>)
    ensures SortedBy(codes, mine) && Elements(mine) == CodesOf(codes, client)
  {
    mine := [];
    var keys := codes.Keys;
    while keys != {}
      invariant keys <= codes.Keys
      invariant SortedBy(codes, mine)
      invariant forall x :: x in mine <==> x in codes && x !in keys && codes[x].client == client
      decreases keys
    {
      var k :| k in keys;
      if codes[k].client == client {
        InsertKeySorts(codes, k, mine);
        mine := InsertKey(codes, k, mine);
      }
      keys := keys - {k};
    }
  }
}
