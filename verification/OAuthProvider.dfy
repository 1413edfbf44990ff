/** The authorization server over the store: codes are exchanged for a family of tokens,
    refresh tokens are rotated, and a replayed refresh token ends its family (RFC 9700
    section 4.14.2).

    Loading a code or refresh token and exchanging it count as one step.
  */
module OAuthProvider {
  import opened Prelude
  import opened OAuthStore

  const CODE_TTL: int := 300
  const ACCESS_TTL: int := 3600
  const REFRESH_TTL: int := 60 * 60 * 24 * 30

  /** What presenting a code or a refresh token leads to. */
  datatype Grant = Issued | Unknown | Replayed

  // --- what each request does to the store --------------------------------------

  function Redeem(s: Store, client: string, code: Digest, now: int, a: Digest, r: Digest, family: string): (Store, Grant) {
    if code !in s.codes || s.codes[code].client != client then
      (s, Unknown)
    else if s.codes[code].expires < now then
      (s.PopCode(code), Unknown)
    else
      (s.PopCode(code).SaveToken(a, r, client, s.codes[code].scopes, now + ACCESS_TTL, now + REFRESH_TTL, family),
       Issued)
  }

  /** `get_refresh`: known, not consumed, not expired. */
  predicate Live(s: Store, t: Digest, now: int) {
    t in s.refresh && !s.refresh[t].consumed && !(s.refresh[t].expires != 0 && s.refresh[t].expires < now)
  }

  predicate Consumed(s: Store, t: Digest) {
    t in s.refresh && s.refresh[t].consumed
  }

  function Rotate(s: Store, client: string, t: Digest, scopes: Scopes, now: int,
                  a: Digest, r: Digest, family: string): (Store, Grant) {
    if Consumed(s, t) then
      (s.RevokeFamily(s.refresh[t].family), Replayed)
    else if !Live(s, t, now) || s.refresh[t].client != client then
      (s, Unknown)
    else
      var line := if s.refresh[t].family == "" then family else s.refresh[t].family;
      var granted := if scopes == [] then s.refresh[t].scopes else scopes;
      (s.ConsumeRefresh(t).SaveToken(a, r, client, granted, now + ACCESS_TTL, now + REFRESH_TTL, line), Issued)
  }

  function LoadAccess(s: Store, t: Digest, now: int): (Store, Option<string>) {
    if t !in s.tokens then (s, None)
    else if s.tokens[t].expires < now then (s.ExpireAccess(t), None)
    else (s, Some(s.tokens[t].client))
  }

  // --- the provider ---------------------------------------------------------------

  class MailOAuthProvider {
    const store: ConnectionStore

    constructor (store: ConnectionStore)
      ensures this.store == store
    {
      this.store := store;
    }

    method Authorize(client: string, scopes: Scopes, code: Digest, now: int)
      modifies store
      ensures store.View().tokens == old(store.View()).tokens && store.View().refresh == old(store.View()).refresh
      ensures CodeSaved(old(store.codes), store.codes, now, code,
                        Record(client, scopes, now + CODE_TTL, "", None, false))
    {
      store.SaveCode(now, code, Record(client, scopes, now + CODE_TTL, "", None, false));
    }

    method ExchangeAuthorizationCode(client: string, code: Digest, now: int, a: Digest, r: Digest, family: string)
      returns (grant: Grant)
      modifies store
      ensures (store.View(), grant) == Redeem(old(store.View()), client, code, now, a, r, family)
    {
      if code !in store.codes || store.codes[code].client != client {
        return Unknown;
      }
      var record := store.codes[code];
      store.PopCode(code);
      if record.expires < now {
        return Unknown;
      }
      store.SaveToken(a, r, client, record.scopes, now + ACCESS_TTL, now + REFRESH_TTL, family);
      return Issued;
    }

    method ExchangeRefreshToken(client: string, t: Digest, scopes: Scopes, now: int, a: Digest, r: Digest, newFamily: string)
      returns (grant: Grant)
      modifies store
      ensures (store.View(), grant) == Rotate(old(store.View()), client, t, scopes, now, a, r, newFamily)
    {
      if Consumed(store.View(), t) {
        var revoked := store.RevokeFamily(store.refresh[t].family);
        return Replayed;
      }
      if !Live(store.View(), t, now) || store.refresh[t].client != client {
        return Unknown;
      }
      var record := store.refresh[t];
      var family := if record.family == "" then newFamily else record.family;
      store.ConsumeRefresh(t);
      store.SaveToken(a, r, client, if scopes == [] then record.scopes else scopes,
                      now + ACCESS_TTL, now + REFRESH_TTL, family);
      return Issued;
    }

    method LoadAccessToken(t: Digest, now: int) returns (client: Option<string>)
      modifies store
      ensures (store.View(), client) == LoadAccess(old(store.View()), t, now)
    {
      if t !in store.tokens {
        return None;
      }
      var record := store.tokens[t];
      if record.expires < now {
        store.ExpireAccess(t);
        return None;
      }
      return Some(record.client);
    }

    method RevokeToken(t: Digest)
      modifies store
      ensures store.View() == old(store.View()).RevokeHash(t)
    {
      store.RevokeHash(t);
    }
  }

  // --- runs -----------------------------------------------------------------------

  datatype Op =
    | Authorizing(client: string, scopes: Scopes, code: Digest)
    | Redeeming(client: string, code: Digest, a: Digest, r: Digest, family: string)
    | Rotating(client: string, token: Digest, scopes: Scopes, a: Digest, r: Digest, family: string)
    | Loading(token: Digest)
    | Revoking(token: Digest)
    | Dropping(client: string)
    | Purging

  /** The store and its history: every token ever issued with its family, every code ever
      made, the refresh tokens and codes exchanged so far, and the families replayed. */
  datatype Sys = Sys(store: Store, family: map<Digest, string>, codes: set<Digest>,
                     exchanged: seq<Digest>, redeemed: seq<Digest>, replayed: set<string>)

  const Start: Sys := Sys(EmptyStore, map[], {}, [], [], {})

  predicate FreshDigest(y: Sys, d: Digest) {
    d !in y.family && d !in y.codes
  }

  /** Two new secrets and a new family, as the random generator hands them out. */
  predicate FreshTokens(y: Sys, a: Digest, r: Digest, family: string) {
    a != r && FreshDigest(y, a) && FreshDigest(y, r) && family != "" && family !in y.family.Values
  }

  function Issue(y: Sys, a: Digest, r: Digest, family: string): Sys {
    y.(family := y.family[a := family][r := family])
  }

  function Next(y: Sys, op: Op, now: int): Sys
    requires !op.Authorizing?
  {
    match op
    case Redeeming(client, code, a, r, family) =>
      var (s, grant) := Redeem(y.store, client, code, now, a, r, family);
      if grant == Issued then Issue(y, a, r, family).(store := s, redeemed := y.redeemed + [code])
      else y.(store := s)
    case Rotating(client, t, scopes, a, r, family) =>
      var (s, grant) := Rotate(y.store, client, t, scopes, now, a, r, family);
      if grant == Issued then
        Issue(y, a, r, s.tokens[a].family).(store := s, exchanged := y.exchanged + [t])
      else if grant == Replayed then
        y.(store := s, replayed := y.replayed + {y.store.refresh[t].family})
      else
        y
    case Loading(t) => y.(store := LoadAccess(y.store, t, now).0)
    case Revoking(t) => y.(store := y.store.RevokeHash(t))
    case Dropping(client) => y.(store := y.store.DropClient(client))
    case Purging => y.(store := y.store.PurgeExpired(now))
  }

  ghost predicate Step(y: Sys, op: Op, now: int, z: Sys) {
    match op
    case Authorizing(client, scopes, code) =>
      && FreshDigest(y, code)
      && z == y.(store := y.store.(codes := z.store.codes), codes := y.codes + {code})
      && CodeSaved(y.store.codes, z.store.codes, now, code,
                   Record(client, scopes, now + CODE_TTL, "", None, false))
    case Redeeming(_, _, a, r, family) => FreshTokens(y, a, r, family) && z == Next(y, op, now)
    case Rotating(_, _, _, a, r, family) => FreshTokens(y, a, r, family) && z == Next(y, op, now)
    case _ => z == Next(y, op, now)
  }

  // --- invariants -----------------------------------------------------------------

  /** One family: at most one access token, at most one refresh token still to be
      exchanged, and the two were issued together. */
  ghost predicate OneLine(s: Store) {
    && (forall a, b :: a in s.tokens && b in s.tokens && s.tokens[a].family == s.tokens[b].family ==> a == b)
    && (forall r, t :: Pending(s, r) && Pending(s, t) && s.refresh[r].family == s.refresh[t].family ==> r == t)
    && (forall a, r :: a in s.tokens && Pending(s, r) && s.tokens[a].family == s.refresh[r].family
          ==> s.refresh[r].beside == Some(a))
  }

  predicate Pending(s: Store, r: Digest) {
    r in s.refresh && !s.refresh[r].consumed
  }

  /** Every stored token was issued, in the family the store says. */
  ghost predicate Known(y: Sys) {
    && (forall a :: a in y.store.tokens ==> a in y.family && y.store.tokens[a].family == y.family[a])
    && (forall r :: r in y.store.refresh ==> r in y.family && y.store.refresh[r].family == y.family[r])
    && (forall d :: d in y.family ==> y.family[d] != "")
  }

  ghost predicate NoDuplicates(s: seq<Digest>) {
    forall i, j :: 0 <= i < j < |s| ==> s[i] != s[j]
  }

  /** The refresh tokens exchanged so far are those the store remembers as consumed, and
      others it has forgotten; none was exchanged twice. */
  ghost predicate ExchangedOnce(y: Sys) {
    && NoDuplicates(y.exchanged)
    && (forall t :: t in y.exchanged ==> t in y.family)
    && (forall t :: t in y.store.refresh ==> (y.store.refresh[t].consumed <==> t in y.exchanged))
  }

  ghost predicate RedeemedOnce(y: Sys) {
    && NoDuplicates(y.redeemed)
    && (forall c :: c in y.store.codes ==> c in y.codes && c !in y.redeemed)
    && (forall c :: c in y.redeemed ==> c in y.codes)
  }

  ghost predicate Ended(s: Store, family: string) {
    && (forall a :: a in s.tokens ==> s.tokens[a].family != family)
    && (forall r :: r in s.refresh ==> s.refresh[r].family != family)
  }

  ghost predicate ReplaysEnded(y: Sys) {
    forall f :: f in y.replayed ==> f in y.family.Values && Ended(y.store, f)
  }

  ghost predicate Inv(y: Sys) {
    OneLine(y.store) && Known(y) && ExchangedOnce(y) && RedeemedOnce(y) && ReplaysEnded(y)
  }

  /** `s` holds nothing that `t` does not: what every deletion leaves. */
  ghost predicate Part(s: Store, t: Store) {
    && (forall k :: k in s.codes ==> k in t.codes && s.codes[k] == t.codes[k])
    && (forall k :: k in s.tokens ==> k in t.tokens && s.tokens[k] == t.tokens[k])
    && (forall k :: k in s.refresh ==> k in t.refresh && s.refresh[k] == t.refresh[k])
  }

  lemma DeletionOneLine(s: Store, t: Store)
    requires OneLine(t) && Part(s, t)
    ensures OneLine(s)
  {
  }

  lemma DeletionKnown(y: Sys, s: Store)
    requires Known(y) && Part(s, y.store)
    ensures Known(y.(store := s))
  {
  }

  lemma DeletionOnce(y: Sys, s: Store)
    requires ExchangedOnce(y) && RedeemedOnce(y) && Part(s, y.store)
    ensures ExchangedOnce(y.(store := s)) && RedeemedOnce(y.(store := s))
  {
    hide NoDuplicates;
  }

  lemma DeletionReplays(y: Sys, s: Store)
    requires ReplaysEnded(y) && Part(s, y.store)
    ensures ReplaysEnded(y.(store := s))
  {
  }

  lemma DeletionKeeps(y: Sys, s: Store)
    requires Inv(y) && Part(s, y.store)
    ensures Inv(y.(store := s))
  {
    hide OneLine;
    hide Known;
    hide ExchangedOnce;
    hide RedeemedOnce;
    hide ReplaysEnded;
    hide Part;
    DeletionOneLine(s, y.store);
    DeletionKnown(y, s);
    DeletionOnce(y, s);
    DeletionReplays(y, s);
  }

  lemma NoDuplicatesAppend(s: seq<Digest>, d: Digest)
    requires NoDuplicates(s) && d !in s
    ensures NoDuplicates(s + [d])
  {
  }

  /** The family has no live token: the next pair issued in it will be its only line. */
  ghost predicate Empty(s: Store, family: string) {
    && (forall k :: k in s.tokens ==> s.tokens[k].family != family)
    && (forall k :: Pending(s, k) ==> s.refresh[k].family != family)
  }

  lemma IssueOneLine(s: Store, a: Digest, r: Digest, client: string, scopes: Scopes, e: int, f: int, family: string)
    requires OneLine(s) && Empty(s, family)
    ensures OneLine(s.SaveToken(a, r, client, scopes, e, f, family))
  {
  }

  lemma IssueKnown(y: Sys, a: Digest, r: Digest, client: string, scopes: Scopes, e: int, f: int, family: string)
    requires Known(y) && a != r && FreshDigest(y, a) && FreshDigest(y, r) && family != ""
    ensures Known(Issue(y, a, r, family).(store := y.store.SaveToken(a, r, client, scopes, e, f, family)))
  {
  }

  lemma IssueReplays(y: Sys, a: Digest, r: Digest, client: string, scopes: Scopes, e: int, f: int, family: string)
    requires ReplaysEnded(y) && FreshDigest(y, a) && FreshDigest(y, r) && family !in y.replayed
    ensures ReplaysEnded(Issue(y, a, r, family).(store := y.store.SaveToken(a, r, client, scopes, e, f, family)))
  {
    var z := Issue(y, a, r, family);
    forall g | g in z.replayed
      ensures g in z.family.Values
    {
      var d :| d in y.family && y.family[d] == g;
      assert z.family[d] == g;
    }
  }

  lemma IssueExchanges(y: Sys, a: Digest, r: Digest, client: string, scopes: Scopes, e: int, f: int, family: string)
    requires ExchangedOnce(y) && FreshDigest(y, a) && FreshDigest(y, r)
    ensures ExchangedOnce(Issue(y, a, r, family).(store := y.store.SaveToken(a, r, client, scopes, e, f, family)))
  {
    assert r !in y.exchanged;
    hide NoDuplicates;
  }

  lemma IssueRedeems(y: Sys, a: Digest, r: Digest, client: string, scopes: Scopes, e: int, f: int, family: string)
    requires RedeemedOnce(y)
    ensures RedeemedOnce(Issue(y, a, r, family).(store := y.store.SaveToken(a, r, client, scopes, e, f, family)))
  {
    hide NoDuplicates;
  }

  /** A pair of fresh tokens in a family without live tokens keeps every invariant. */
  lemma IssueKeeps(y: Sys, a: Digest, r: Digest, client: string, scopes: Scopes, e: int, f: int, family: string)
    requires Inv(y) && Empty(y.store, family) && family !in y.replayed
    requires a != r && FreshDigest(y, a) && FreshDigest(y, r) && family != ""
    ensures Inv(Issue(y, a, r, family).(store := y.store.SaveToken(a, r, client, scopes, e, f, family)))
  {
    IssueOneLine(y.store, a, r, client, scopes, e, f, family);
    IssueKnown(y, a, r, client, scopes, e, f, family);
    IssueReplays(y, a, r, client, scopes, e, f, family);
    IssueExchanges(y, a, r, client, scopes, e, f, family);
    IssueRedeems(y, a, r, client, scopes, e, f, family);
    hide OneLine;
    hide Known;
    hide ExchangedOnce;
    hide RedeemedOnce;
    hide ReplaysEnded;
  }

  lemma RedeemKeeps(y: Sys, client: string, code: Digest, now: int, a: Digest, r: Digest, family: string)
    requires Inv(y) && FreshTokens(y, a, r, family)
    ensures Inv(Next(y, Redeeming(client, code, a, r, family), now))
  {
    var (s, grant) := Redeem(y.store, client, code, now, a, r, family);
    if grant == Issued {
      PopKeeps(y, code);
      NewFamily(y, family);
      hide Inv;
      hide Empty;
      var popped := y.(store := y.store.PopCode(code), redeemed := y.redeemed + [code]);
      IssueKeeps(popped, a, r, client, y.store.codes[code].scopes, now + ACCESS_TTL, now + REFRESH_TTL, family);
    } else {
      DeletionKeeps(y, s);
    }
  }

  lemma PopRedeems(y: Sys, code: Digest)
    requires RedeemedOnce(y) && code in y.store.codes
    ensures RedeemedOnce(y.(store := y.store.PopCode(code), redeemed := y.redeemed + [code]))
  {
    hide NoDuplicates;
    NoDuplicatesAppend(y.redeemed, code);
  }

  lemma PopPart(s: Store, code: Digest)
    ensures Part(s.PopCode(code), s)
  {
  }

  /** The redeemed codes matter to one invariant only. */
  lemma RedeemedApart(y: Sys, redeemed: seq<Digest>)
    requires Inv(y) && RedeemedOnce(y.(redeemed := redeemed))
    ensures Inv(y.(redeemed := redeemed))
  {
    hide OneLine;
    hide NoDuplicates;
    hide Ended;
  }

  lemma PopKeeps(y: Sys, code: Digest)
    requires Inv(y) && code in y.store.codes
    ensures Inv(y.(store := y.store.PopCode(code), redeemed := y.redeemed + [code]))
  {
    hide Part;
    hide RedeemedOnce;
    hide Store.PopCode;
    assert RedeemedOnce(y) by { InvParts(y); }
    hide Inv;
    PopPart(y.store, code);
    DeletionKeeps(y, y.store.PopCode(code));
    PopRedeems(y, code);
    RedeemedApart(y.(store := y.store.PopCode(code)), y.redeemed + [code]);
  }

  lemma InvParts(y: Sys)
    requires Inv(y)
    ensures OneLine(y.store) && Known(y) && ExchangedOnce(y) && RedeemedOnce(y) && ReplaysEnded(y)
  {
  }

  lemma NewFamily(y: Sys, family: string)
    requires Inv(y) && family !in y.family.Values
    ensures Empty(y.store, family) && family !in y.replayed
  {
  }

  /** Consuming a refresh token leaves its family without a live token. */
  lemma ConsumeEmpties(s: Store, t: Digest)
    requires OneLine(s) && Pending(s, t)
    ensures OneLine(s.ConsumeRefresh(t)) && Empty(s.ConsumeRefresh(t), s.refresh[t].family)
  {
  }

  lemma ConsumeKnown(y: Sys, t: Digest)
    requires Known(y) && Pending(y.store, t)
    ensures Known(y.(store := y.store.ConsumeRefresh(t), exchanged := y.exchanged + [t]))
    ensures y.store.refresh[t].family != ""
  {
  }

  lemma ConsumeExchanges(y: Sys, t: Digest)
    requires Known(y) && ExchangedOnce(y) && Pending(y.store, t)
    ensures ExchangedOnce(y.(store := y.store.ConsumeRefresh(t), exchanged := y.exchanged + [t]))
  {
    hide NoDuplicates;
    NoDuplicatesAppend(y.exchanged, t);
  }

  lemma ConsumeReplays(y: Sys, t: Digest)
    requires ReplaysEnded(y) && Pending(y.store, t)
    ensures ReplaysEnded(y.(store := y.store.ConsumeRefresh(t), exchanged := y.exchanged + [t]))
    ensures y.store.refresh[t].family !in y.replayed
  {
  }

  lemma ConsumeKeeps(y: Sys, t: Digest)
    requires Inv(y) && Pending(y.store, t)
    ensures Inv(y.(store := y.store.ConsumeRefresh(t), exchanged := y.exchanged + [t]))
    ensures y.store.refresh[t].family !in y.replayed && y.store.refresh[t].family != ""
  {
    hide OneLine;
    hide Known;
    hide ExchangedOnce;
    hide RedeemedOnce;
    hide ReplaysEnded;
    hide Empty;
    ConsumeEmpties(y.store, t);
    ConsumeKnown(y, t);
    ConsumeExchanges(y, t);
    ConsumeReplays(y, t);
    RedeemedSame(y, y.store.ConsumeRefresh(t), y.exchanged + [t]);
  }

  lemma RedeemedSame(y: Sys, s: Store, exchanged: seq<Digest>)
    requires RedeemedOnce(y) && s.codes == y.store.codes
    ensures RedeemedOnce(y.(store := s, exchanged := exchanged))
  {
    hide NoDuplicates;
  }

  /** A refresh token that is exchanged was pending, and its family goes on. */
  lemma RotatedIs(s: Store, client: string, t: Digest, scopes: Scopes, now: int, a: Digest, r: Digest, family: string)
    requires Rotate(s, client, t, scopes, now, a, r, family).1 == Issued
    ensures Pending(s, t)
    ensures s.refresh[t].family != "" ==>
              var after := Rotate(s, client, t, scopes, now, a, r, family).0;
              && after == s.ConsumeRefresh(t).SaveToken(a, r, client, if scopes == [] then s.refresh[t].scopes else scopes,
                                                        now + ACCESS_TTL, now + REFRESH_TTL, s.refresh[t].family)
              && a in after.tokens && after.tokens[a].family == s.refresh[t].family
  {
  }

  lemma RotateKeeps(y: Sys, client: string, t: Digest, scopes: Scopes, now: int, a: Digest, r: Digest, family: string)
    requires Inv(y) && FreshTokens(y, a, r, family)
    ensures Inv(Next(y, Rotating(client, t, scopes, a, r, family), now))
  {
    hide Inv;
    hide Empty;
    hide OneLine;
    hide Store.ConsumeRefresh;
    hide Store.SaveToken;
    hide Store.RevokeFamily;
    InvParts(y);
    var (s, grant) := Rotate(y.store, client, t, scopes, now, a, r, family);
    if grant == Issued {
      RotatedIs(y.store, client, t, scopes, now, a, r, family);
      ConsumeEmpties(y.store, t);
      ConsumeKeeps(y, t);
      hide Rotate;
      var granted := if scopes == [] then y.store.refresh[t].scopes else scopes;
      var consumed := y.(store := y.store.ConsumeRefresh(t), exchanged := y.exchanged + [t]);
      IssueKeeps(consumed, a, r, client, granted, now + ACCESS_TTL, now + REFRESH_TTL, y.store.refresh[t].family);
    } else if grant == Replayed {
      assert Consumed(y.store, t);
      ReplayKeeps(y, t);
    }
  }

  lemma FamilyPart(s: Store, family: string)
    ensures Part(s.RevokeFamily(family), s)
    ensures family != "" ==> Ended(s.RevokeFamily(family), family)
  {
  }

  lemma ReplayAdds(y: Sys, f: string)
    requires Inv(y) && f in y.family.Values && Ended(y.store, f)
    ensures Inv(y.(replayed := y.replayed + {f}))
  {
    hide OneLine;
    hide NoDuplicates;
    hide Ended;
  }

  lemma ConsumedFamily(y: Sys, t: Digest)
    requires Known(y) && t in y.store.refresh
    ensures y.store.refresh[t].family in y.family.Values && y.store.refresh[t].family != ""
  {
    assert y.family[t] == y.store.refresh[t].family;
  }

  lemma ReplayKeeps(y: Sys, t: Digest)
    requires Inv(y) && Consumed(y.store, t)
    ensures var f := y.store.refresh[t].family;
            Inv(y.(store := y.store.RevokeFamily(f), replayed := y.replayed + {f}))
  {
    hide Part;
    hide Ended;
    hide Known;
    hide Store.RevokeFamily;
    assert Known(y) by { InvParts(y); }
    hide Inv;
    var f := y.store.refresh[t].family;
    ConsumedFamily(y, t);
    FamilyPart(y.store, f);
    DeletionKeeps(y, y.store.RevokeFamily(f));
    ReplayAdds(y.(store := y.store.RevokeFamily(f)), f);
  }

  lemma AuthorizeKeeps(y: Sys, op: Op, now: int, z: Sys)
    requires Inv(y) && op.Authorizing? && Step(y, op, now, z)
    ensures Inv(z)
  {
    var code := Record(op.client, op.scopes, now + CODE_TTL, "", None, false);
    CodeCap(y.store.codes, z.store.codes, now, op.code, code);
  }

  /** Loading, revoking, dropping and purging only delete. */
  lemma DeletesOnly(y: Sys, op: Op, now: int)
    requires op.Loading? || op.Revoking? || op.Dropping? || op.Purging?
    ensures Part(Next(y, op, now).store, y.store)
    ensures Next(y, op, now) == y.(store := Next(y, op, now).store)
  {
  }

  lemma StepKeeps(y: Sys, op: Op, now: int, z: Sys)
    requires Inv(y) && Step(y, op, now, z)
    ensures Inv(z)
  {
    hide Inv;
    hide Part;
    hide Next;
    hide CodeSaved;
    hide FreshTokens;
    match op
    case Authorizing(_, _, _) => AuthorizeKeeps(y, op, now, z);
    case Redeeming(client, code, a, r, family) => RedeemKeeps(y, client, code, now, a, r, family);
    case Rotating(client, t, scopes, a, r, family) => RotateKeeps(y, client, t, scopes, now, a, r, family);
    case _ => DeletesOnly(y, op, now); DeletionKeeps(y, z.store);
  }

  // --- whole runs -----------------------------------------------------------------

  /** A run: the states `ys`, the requests between them and the times of the requests. */
  ghost predicate IsRun(ys: seq<Sys>, ops: seq<Op>, nows: seq<int>) {
    && |ys| == |ops| + 1 && |nows| == |ops|
    && ys[0] == Start
    && forall i :: 0 <= i < |ops| ==> Step(ys[i], ops[i], nows[i], ys[i + 1])
  }

  lemma {:induction false} RunKeeps(ys: seq<Sys>, ops: seq<Op>, nows: seq<int>, i: nat)
    requires IsRun(ys, ops, nows) && i < |ys|
    ensures Inv(ys[i])
  {
    if i > 0 {
      RunKeeps(ys, ops, nows, i - 1);
      StepKeeps(ys[i - 1], ops[i - 1], nows[i - 1], ys[i]);
    }
  }

  lemma HistoryGrows(y: Sys, op: Op, now: int, z: Sys)
    requires Step(y, op, now, z)
    ensures y.replayed <= z.replayed
    ensures forall d :: d in y.family ==> d in z.family && z.family[d] == y.family[d]
  {
    hide CodeSaved;
  }

  lemma {:induction false} ReplayedForever(ys: seq<Sys>, ops: seq<Op>, nows: seq<int>, i: nat, j: nat)
    requires IsRun(ys, ops, nows) && i <= j < |ys|
    ensures ys[i].replayed <= ys[j].replayed
    decreases j
  {
    hide Inv;
    hide Step;
    if i < j {
      ReplayedForever(ys, ops, nows, i, j - 1);
      HistoryGrows(ys[j - 1], ops[j - 1], nows[j - 1], ys[j]);
    }
  }

  /** In every run from an empty store: each family has at most one access token and one
      refresh token still to be exchanged, and no refresh token or code is exchanged twice. */
  lemma Rotation(ys: seq<Sys>, ops: seq<Op>, nows: seq<int>, i: nat)
    requires IsRun(ys, ops, nows) && i < |ys|
    ensures OneLine(ys[i].store)
    ensures NoDuplicates(ys[i].exchanged) && NoDuplicates(ys[i].redeemed)
  {
    RunKeeps(ys, ops, nows, i);
  }

  /** No token of a family is known to the store, as access or as refresh token. */
  ghost predicate Gone(y: Sys, family: string) {
    forall d :: d in y.family && y.family[d] == family ==> d !in y.store.tokens && d !in y.store.refresh
  }

  /** After a consumed refresh token the store remembers is presented, no token of its
      family, issued before or after, resolves in any later state. */
  lemma ReplayEndsFamily(ys: seq<Sys>, ops: seq<Op>, nows: seq<int>, i: nat, j: nat)
    requires IsRun(ys, ops, nows) && i < j < |ys|
    requires ops[i].Rotating? && Consumed(ys[i].store, ops[i].token)
    ensures Gone(ys[j], ys[i].store.refresh[ops[i].token].family)
  {
    var f := ys[i].store.refresh[ops[i].token].family;
    assert Step(ys[i], ops[i], nows[i], ys[i + 1]);
    assert f in ys[i + 1].replayed;
    ReplayedForever(ys, ops, nows, i + 1, j);
    RunKeeps(ys, ops, nows, j);
    assert Ended(ys[j].store, f);
  }

  /** Presenting a token that was exchanged before: the family is revoked exactly when the
      store still holds its record, and otherwise nothing happens. It is never exchanged. */
  lemma ReplayDetected(ys: seq<Sys>, ops: seq<Op>, nows: seq<int>, i: nat)
    requires IsRun(ys, ops, nows) && i < |ops|
    requires ops[i].Rotating? && ops[i].token in ys[i].exchanged
    ensures var (s, grant) := Rotate(ys[i].store, ops[i].client, ops[i].token, ops[i].scopes, nows[i],
                                     ops[i].a, ops[i].r, ops[i].family);
            && (grant == Replayed <==> ops[i].token in ys[i].store.refresh)
            && (grant != Replayed ==> grant == Unknown && s == ys[i].store)
  {
    RunKeeps(ys, ops, nows, i);
  }

  /** A consumed refresh token is remembered until its own expiry, unless its family is
      ended, its client dropped, or it or the access token beside it revoked by name. */
  lemma Remembered(y: Sys, op: Op, now: int, z: Sys, t: Digest)
    requires Inv(y) && Step(y, op, now, z) && Consumed(y.store, t)
    requires now <= y.store.refresh[t].expires
    requires op.Revoking? ==> op.token != t && Some(op.token) != y.store.refresh[t].beside
    requires op.Dropping? ==> op.client != y.store.refresh[t].client
    ensures Consumed(z.store, t) || Ended(z.store, y.store.refresh[t].family)
  {
    hide Inv;
    hide CodeSaved;
    hide Ended;
    match op
    case Redeeming(client, code, a, r, family) =>
      FreshIsNot(y, a, r, family, t);
    case Rotating(client, u, scopes, a, r, family) =>
      FreshIsNot(y, a, r, family, t);
      RotateRemembers(y.store, client, u, scopes, now, a, r, family, t);
      hide Rotate;
    case _ =>
  }

  lemma FreshIsNot(y: Sys, a: Digest, r: Digest, family: string, t: Digest)
    requires Inv(y) && FreshTokens(y, a, r, family) && t in y.store.refresh
    ensures t != r && t != a && y.store.refresh[t].family != ""
  {
    InvParts(y);
    hide Inv;
    hide OneLine;
    hide ExchangedOnce;
    hide RedeemedOnce;
    hide ReplaysEnded;
  }

  lemma RotateRemembers(s: Store, client: string, u: Digest, scopes: Scopes, now: int, a: Digest, r: Digest, family: string, t: Digest)
    requires Consumed(s, t) && t != r && s.refresh[t].family != ""
    ensures var after := Rotate(s, client, u, scopes, now, a, r, family).0;
            Consumed(after, t) || Ended(after, s.refresh[t].family)
  {
    if Consumed(s, u) {
      FamilyPart(s, s.refresh[u].family);
      hide Ended;
      hide Part;
    }
  }

  /** Past that expiry a purge forgets it: a replay then goes unnoticed while the family lives. */
  lemma ForgottenReplay(s: Store, t: Digest, u: Digest, now: int)
    requires Consumed(s, t) && 0 < s.refresh[t].expires < now
    requires Live(s, u, now) && s.refresh[u].family == s.refresh[t].family
    ensures var p := s.PurgeExpired(now);
            && Live(p, u, now)
            && forall client, scopes, a, r, family ::
                 Rotate(p, client, t, scopes, now, a, r, family) == (p, Unknown)
  {
  }

  const FIRST_CODE: Record := Record("c", ["mail"], CODE_TTL, "", None, false)
  const REDEEM: Op := Redeeming("c", 1, 2, 3, "f")
  const ROTATE: Op := Rotating("c", 3, [], 4, 5, "g")

  function Authorized(): Sys {
    Start.(store := EmptyStore.(codes := map[1 := FIRST_CODE]), codes := {1})
  }

  /** Redeemed at time 0. */
  function Redeemed(): Sys {
    var tokens := map[2 := Record("c", ["mail"], ACCESS_TTL, "f", None, false)];
    var refresh := map[3 := Record("c", ["mail"], REFRESH_TTL, "f", Some(2), false)];
    Sys(Store(map[], tokens, refresh), map[2 := "f", 3 := "f"], {1}, [], [1], {})
  }

  lemma Redeeming0()
    ensures Step(Authorized(), REDEEM, 0, Redeemed())
  {
    var y, z := Authorized(), Next(Authorized(), REDEEM, 0);
    assert z.store.codes == map[] && z.store.tokens == Redeemed().store.tokens;
    assert z.store.refresh == Redeemed().store.refresh;
    assert z.family == Redeemed().family;
  }

  lemma Rotating1()
    ensures Step(Redeemed(), ROTATE, 86400, Next(Redeemed(), ROTATE, 86400))
  {
    var y := Redeemed();
    assert y.family.Values == {"f"} by {
      assert y.family[2] == "f";
    }
    hide Next;
  }

  lemma RotatedState()
    ensures var y, now := Next(Redeemed(), ROTATE, 86400), REFRESH_TTL + 1;
            && Consumed(y.store, 3) && 0 < y.store.refresh[3].expires < now
            && Live(y.store, 5, now) && y.store.refresh[5].family == y.store.refresh[3].family
            && 3 in y.exchanged
  {
  }

  /** The state before such a purge is reached: a code redeemed at time 0, its refresh token
      exchanged a day later, and the first month over. */
  lemma ForgottenReplayHappens() returns (ys: seq<Sys>, ops: seq<Op>, nows: seq<int>)
    ensures IsRun(ys, ops, nows)
    ensures var y, now := ys[|ops|], REFRESH_TTL + 1;
            && Consumed(y.store, 3) && 0 < y.store.refresh[3].expires < now
            && Live(y.store, 5, now) && y.store.refresh[5].family == y.store.refresh[3].family
            && 3 in y.exchanged
  {
    var authorize := Authorizing("c", ["mail"], 1);
    assert Step(Start, authorize, 0, Authorized()) by { NoCodesYet(FIRST_CODE); }
    Redeeming0();
    Rotating1();
    RotatedState();
    hide Step;
    hide Next;
    hide Redeemed;
    hide Authorized;
    var last := Next(Redeemed(), ROTATE, 86400);
    ys, ops, nows := [Start, Authorized(), Redeemed(), last], [authorize, REDEEM, ROTATE], [0, 0, 86400];
  }

  lemma NoCodesYet(code: Record)
    ensures CodeSaved(map[], map[1 := code], 0, 1, code)
  {
    var live := Without(map[], Lapsed(0));
    assert live == map[];
    assert CodesOf(live, code.client) == {};
    assert Evicts(live, code.client, {});
    assert (live - {})[1 := code] == map[1 := code];
  }
}
