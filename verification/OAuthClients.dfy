/** Who gets tokens: what a client was authorized for, read from the requests themselves, and
    what becomes of it in every run of the authorization server.
  */
module OAuthClients {
  import opened Prelude
  import opened OAuthStore
  import opened OAuthProvider

  // --- the history of a run ---------------------------------------------------------------

  /** Who a code was made for, what it covers, and when. */
  datatype Consent = Consent(client: string, scopes: Scopes, at: int)

  /** The consents behind the codes, the code each family of tokens began with, and when each
      token was issued. */
  datatype Past = Past(consents: map<Digest, Consent>, lines: map<string, Digest>, births: map<Digest, int>)

  const Nothing: Past := Past(map[], map[], map[])

  /** What a request adds: a code that was asked for, a family for a code that was redeemed, and
      the tokens that are there after it and were not before. */
  function Recorded(p: Past, y: Sys, op: Op, now: int, z: Sys): Past {
    match op
    case Authorizing(client, scopes, code) => p.(consents := p.consents[code := Consent(client, scopes, now)])
    case Redeeming(_, code, a, r, family) =>
      if z.redeemed != y.redeemed then p.(lines := p.lines[family := code], births := p.births[a := now][r := now]) else p
    case Rotating(_, _, _, a, r, _) =>
      if z.exchanged != y.exchanged then p.(births := p.births[a := now][r := now]) else p
    case _ => p
  }

  function PastAt(ys: seq<Sys>, ops: seq<Op>, nows: seq<int>, i: nat): Past
    requires |ys| == |ops| + 1 && |nows| == |ops| && i < |ys|
  {
    if i == 0 then Nothing
    else Recorded(PastAt(ys, ops, nows, i - 1), ys[i - 1], ops[i - 1], nows[i - 1], ys[i])
  }

  /** The client whose code the family began with. */
  predicate Owns(p: Past, client: string, family: string) {
    family in p.lines && p.lines[family] in p.consents && p.consents[p.lines[family]].client == client
  }

  // --- what holds in every state --------------------------------------------------------------

  /** A stored code is what its client was authorized for. */
  ghost predicate CodesTraced(y: Sys, p: Past) {
    && (forall k :: k in p.consents ==> k in y.codes)
    && forall k :: k in y.store.codes ==>
         && k in p.consents
         && y.store.codes[k] == Record(p.consents[k].client, p.consents[k].scopes, p.consents[k].at + CODE_TTL, "", None, false)
  }

  ghost predicate Traces(bucket: Bucket, p: Past, ttl: int) {
    forall k :: k in bucket ==>
      && Owns(p, bucket[k].client, bucket[k].family)
      && k in p.births && bucket[k].expires == p.births[k] + ttl
  }

  ghost predicate Traced(y: Sys, p: Past) {
    && CodesTraced(y, p)
    && (forall f :: f in p.lines ==> f in y.family.Values)
    && (forall k :: k in p.births ==> k in y.family)
    && Traces(y.store.tokens, p, ACCESS_TTL)
    && Traces(y.store.refresh, p, REFRESH_TTL)
  }

  /** What is traced stays so when more is recorded of other codes, families and tokens. */
  ghost predicate Extends(p: Past, q: Past) {
    && (forall k :: k in p.consents ==> k in q.consents && q.consents[k] == p.consents[k])
    && (forall f :: f in p.lines ==> f in q.lines && q.lines[f] == p.lines[f])
    && (forall k :: k in p.births ==> k in q.births && q.births[k] == p.births[k])
  }

  lemma TracesKept(bucket: Bucket, less: Bucket, p: Past, q: Past, ttl: int)
    requires Traces(bucket, p, ttl) && Extends(p, q)
    requires forall k :: k in less ==> k in bucket && less[k].(consumed := bucket[k].consumed) == bucket[k]
    ensures Traces(less, q, ttl)
  {
  }

  lemma TracesAdd(bucket: Bucket, p: Past, ttl: int, d: Digest, record: Record)
    requires Traces(bucket, p, ttl)
    requires Owns(p, record.client, record.family) && d in p.births && record.expires == p.births[d] + ttl
    ensures Traces(bucket[d := record], p, ttl)
  {
  }

  lemma DeletionTraced(y: Sys, p: Past, s: Store, replayed: set<string>)
    requires Traced(y, p) && Part(s, y.store)
    ensures Traced(y.(store := s, replayed := replayed), p)
  {
    TracesKept(y.store.tokens, s.tokens, p, p, ACCESS_TTL);
    TracesKept(y.store.refresh, s.refresh, p, p, REFRESH_TTL);
    hide Traces;
  }

  lemma AuthorizeTraced(y: Sys, p: Past, op: Op, now: int, z: Sys)
    requires Traced(y, p) && op.Authorizing? && Step(y, op, now, z)
    ensures Traced(z, Recorded(p, y, op, now, z))
  {
    hide CodeSaved, Traces;
    var q := Recorded(p, y, op, now, z);
    FreshConsent(y, p, op, now);
    AuthorizeCodes(y, p, op, now, z);
    hide CodesTraced;
    TracesKept(y.store.tokens, z.store.tokens, p, q, ACCESS_TTL);
    TracesKept(y.store.refresh, z.store.refresh, p, q, REFRESH_TTL);
  }

  lemma AuthorizeCodes(y: Sys, p: Past, op: Op, now: int, z: Sys)
    requires CodesTraced(y, p) && op.Authorizing? && Step(y, op, now, z)
    ensures CodesTraced(z, Recorded(p, y, op, now, z))
  {
    hide CodeSaved;
    CodeCap(y.store.codes, z.store.codes, now, op.code, Record(op.client, op.scopes, now + CODE_TTL, "", None, false));
  }

  lemma FreshConsent(y: Sys, p: Past, op: Op, now: int)
    requires CodesTraced(y, p) && op.Authorizing? && FreshDigest(y, op.code)
    ensures op.code !in p.consents && op.code !in y.store.codes
  {
  }

  /** New tokens in the family `f`, after deletions that left `s`. */
  lemma IssueTraced(y: Sys, p: Past, s: Store, q: Past, z: Sys, a: Digest, r: Digest, client: string, scopes: Scopes,
                    now: int, f: string)
    requires Traced(y, p) && Extends(p, q) && q.consents == p.consents
    requires forall k :: k in s.codes ==> k in y.store.codes && s.codes[k] == y.store.codes[k]
    requires forall k :: k in s.tokens ==> k in y.store.tokens && s.tokens[k] == y.store.tokens[k]
    requires forall k :: k in s.refresh ==>
               k in y.store.refresh && s.refresh[k].(consumed := y.store.refresh[k].consumed) == y.store.refresh[k]
    requires z.store == s.SaveToken(a, r, client, scopes, now + ACCESS_TTL, now + REFRESH_TTL, f)
    requires z.family == y.family[a := f][r := f] && z.codes == y.codes
    requires q.births == p.births[a := now][r := now] && Owns(q, client, f)
    requires forall g :: g in q.lines ==> g in z.family.Values
    ensures Traced(z, q)
  {
    IssuedCodes(y, p, q, z);
    hide CodesTraced, Traces, Owns;
    TracesKept(y.store.tokens, s.tokens, p, q, ACCESS_TTL);
    TracesKept(y.store.refresh, s.refresh, p, q, REFRESH_TTL);
    hide Extends;
    TracesAdd(s.tokens, q, ACCESS_TTL, a, Record(client, scopes, now + ACCESS_TTL, f, None, false));
    TracesAdd(s.refresh, q, REFRESH_TTL, r, Record(client, scopes, now + REFRESH_TTL, f, Some(a), false));
  }

  lemma IssuedCodes(y: Sys, p: Past, q: Past, z: Sys)
    requires CodesTraced(y, p) && q.consents == p.consents && z.codes == y.codes
    requires forall k :: k in z.store.codes ==> k in y.store.codes && z.store.codes[k] == y.store.codes[k]
    ensures CodesTraced(z, q)
  {
  }

  lemma ValuesGrow(y: Sys, a: Digest, r: Digest, f: string)
    requires FreshDigest(y, a) && FreshDigest(y, r)
    ensures forall g :: g in y.family.Values || g == f ==> g in y.family[a := f][r := f].Values
  {
    var more := y.family[a := f][r := f];
    assert more[r] == f;
    forall g | g in y.family.Values ensures g in more.Values {
      var d :| d in y.family && y.family[d] == g;
      assert more[d] == g;
    }
  }

  /** When a code is redeemed, and what that leaves. */
  lemma RedeemIs(y: Sys, op: Op, now: int)
    requires op.Redeeming?
    ensures var z := Next(y, op, now);
            var s, c := y.store, op.code;
            if c in s.codes && s.codes[c].client == op.client && now <= s.codes[c].expires then
              && z.redeemed == y.redeemed + [c]
              && z == Issue(y, op.a, op.r, op.family).(redeemed := z.redeemed, store := z.store)
              && z.store == s.PopCode(c).SaveToken(op.a, op.r, op.client, s.codes[c].scopes, now + ACCESS_TTL, now + REFRESH_TTL, op.family)
            else
              && z == y.(store := z.store)
              && (z.store == s || z.store == s.PopCode(c))
  {
  }

  lemma RedeemTraced(y: Sys, p: Past, op: Op, now: int)
    requires Traced(y, p) && op.Redeeming? && FreshTokens(y, op.a, op.r, op.family)
    ensures Traced(Next(y, op, now), Recorded(p, y, op, now, Next(y, op, now)))
  {
    RedeemIs(y, op, now);
    var z := Next(y, op, now);
    var q := Recorded(p, y, op, now, z);
    hide Next, Traces;
    if z.redeemed == y.redeemed + [op.code] {
      ValuesGrow(y, op.a, op.r, op.family);
      IssueTraced(y, p, y.store.PopCode(op.code), q, z, op.a, op.r, op.client, y.store.codes[op.code].scopes, now, op.family);
    } else {
      DeletionTraced(y, p, z.store, y.replayed);
    }
  }

  /** When a refresh token is exchanged, and what that leaves. */
  lemma RotateIs(y: Sys, op: Op, now: int)
    requires op.Rotating? && Inv(y)
    ensures var z := Next(y, op, now);
            var s, t := y.store, op.token;
            if Pending(s, t) && s.refresh[t].client == op.client && (s.refresh[t].expires == 0 || now <= s.refresh[t].expires) then
              && z.exchanged == y.exchanged + [t]
              && z == Issue(y, op.a, op.r, s.refresh[t].family).(exchanged := z.exchanged, store := z.store)
              && z.store == s.ConsumeRefresh(t).SaveToken(op.a, op.r, op.client, if op.scopes == [] then s.refresh[t].scopes else op.scopes,
                                                          now + ACCESS_TTL, now + REFRESH_TTL, s.refresh[t].family)
            else
              && z == y.(store := z.store, replayed := z.replayed)
              && (z.store == s || (t in s.refresh && z.store == s.RevokeFamily(s.refresh[t].family)))
  {
    InvParts(y);
    hide OneLine, ExchangedOnce, RedeemedOnce, ReplaysEnded, Inv, Store.RevokeFamily, Store.ConsumeRefresh;
  }

  lemma RotateTraced(y: Sys, p: Past, op: Op, now: int)
    requires Traced(y, p) && Inv(y) && op.Rotating? && FreshTokens(y, op.a, op.r, op.family)
    ensures Traced(Next(y, op, now), Recorded(p, y, op, now, Next(y, op, now)))
  {
    hide Inv, Next, Traced, Store.ConsumeRefresh, Store.SaveToken, Store.RevokeFamily;
    RotateIs(y, op, now);
    var z := Next(y, op, now);
    if z.exchanged == y.exchanged + [op.token] {
      ExchangeTraced(y, p, op, now, z);
    } else if z.store != y.store {
      FamilyPart(y.store, y.store.refresh[op.token].family);
      DeletionTraced(y, p, z.store, z.replayed);
    } else {
      SamePart(y.store);
      DeletionTraced(y, p, z.store, z.replayed);
    }
  }

  lemma SamePart(s: Store)
    ensures Part(s, s)
  {
  }

  lemma ConsumedLess(s: Store, t: Digest)
    ensures var less := s.ConsumeRefresh(t);
            && less.codes == s.codes
            && (forall k :: k in less.tokens ==> k in s.tokens && less.tokens[k] == s.tokens[k])
            && forall k :: k in less.refresh ==> k in s.refresh && less.refresh[k].(consumed := s.refresh[k].consumed) == s.refresh[k]
  {
  }

  lemma BirthsExtend(y: Sys, p: Past, op: Op, now: int, z: Sys)
    requires Traced(y, p) && op.Rotating? && FreshDigest(y, op.a) && FreshDigest(y, op.r)
    ensures Extends(p, Recorded(p, y, op, now, z))
  {
    hide Traces, CodesTraced;
  }

  lemma ExchangeTraced(y: Sys, p: Past, op: Op, now: int, z: Sys)
    requires Traced(y, p) && op.Rotating? && FreshTokens(y, op.a, op.r, op.family)
    requires op.token in y.store.refresh && y.store.refresh[op.token].client == op.client
    requires z.exchanged == y.exchanged + [op.token]
    requires z == Issue(y, op.a, op.r, y.store.refresh[op.token].family).(exchanged := z.exchanged, store := z.store)
    requires z.store == y.store.ConsumeRefresh(op.token).SaveToken(
               op.a, op.r, op.client, if op.scopes == [] then y.store.refresh[op.token].scopes else op.scopes,
               now + ACCESS_TTL, now + REFRESH_TTL, y.store.refresh[op.token].family)
    ensures Traced(z, Recorded(p, y, op, now, z))
  {
    hide Store.SaveToken, Store.ConsumeRefresh, CodesTraced;
    ConsumedLess(y.store, op.token);
    BirthsExtend(y, p, op, now, z);
    var record := y.store.refresh[op.token];
    var q := Recorded(p, y, op, now, z);
    assert Owns(p, record.client, record.family);
    hide Traces, Extends;
    ValuesGrow(y, op.a, op.r, record.family);
    IssueTraced(y, p, y.store.ConsumeRefresh(op.token), q, z, op.a, op.r, op.client,
                if op.scopes == [] then record.scopes else op.scopes, now, record.family);
  }

  lemma StepTraced(y: Sys, p: Past, op: Op, now: int, z: Sys)
    requires Inv(y) && Traced(y, p) && Step(y, op, now, z)
    ensures Traced(z, Recorded(p, y, op, now, z))
  {
    hide Inv, Traced, Part, Next, CodeSaved;
    match op
    case Authorizing(_, _, _) => AuthorizeTraced(y, p, op, now, z);
    case Redeeming(_, _, _, _, _) => RedeemTraced(y, p, op, now);
    case Rotating(_, _, _, _, _, _) => RotateTraced(y, p, op, now);
    case _ =>
      DeletesOnly(y, op, now);
      DeletionTraced(y, p, z.store, y.replayed);
  }

  lemma StartTraced()
    ensures Traced(Start, Nothing)
  {
  }

  lemma {:induction false} RunTraced(ys: seq<Sys>, ops: seq<Op>, nows: seq<int>, i: nat)
    requires IsRun(ys, ops, nows) && i < |ys|
    ensures Inv(ys[i]) && Traced(ys[i], PastAt(ys, ops, nows, i))
  {
    hide Inv, Traced, Step, Recorded;
    RunKeeps(ys, ops, nows, i);
    if i == 0 {
      StartTraced();
    } else {
      RunTraced(ys, ops, nows, i - 1);
      StepTraced(ys[i - 1], PastAt(ys, ops, nows, i - 1), ops[i - 1], nows[i - 1], ys[i]);
    }
  }

  // --- who may redeem and who may rotate ----------------------------------------------------

  /** In every state of every run, each access and refresh token belongs to the client that was
      authorized for the code its family began with. */
  lemma TokensBelong(ys: seq<Sys>, ops: seq<Op>, nows: seq<int>, i: nat)
    requires IsRun(ys, ops, nows) && i < |ys|
    ensures var p := PastAt(ys, ops, nows, i);
            && (forall a :: a in ys[i].store.tokens ==> Owns(p, ys[i].store.tokens[a].client, ys[i].store.tokens[a].family))
            && (forall r :: r in ys[i].store.refresh ==> Owns(p, ys[i].store.refresh[r].client, ys[i].store.refresh[r].family))
  {
    RunTraced(ys, ops, nows, i);
    hide Inv, Owns;
  }

  /** A code is redeemed exactly when it was made for this client, less than five minutes ago,
      and is still stored; the tokens are then this client's, cover what was consented to, and
      the code is gone. Otherwise no token is issued. */
  lemma RedeemedIff(ys: seq<Sys>, ops: seq<Op>, nows: seq<int>, i: nat)
    requires IsRun(ys, ops, nows) && i < |ops| && ops[i].Redeeming?
    ensures var y, z, code, now := ys[i], ys[i + 1], ops[i].code, nows[i];
            var consents := PastAt(ys, ops, nows, i).consents;
            && (code in y.store.codes ==> code in consents)
            && (z.redeemed == y.redeemed + [code] <==>
                  code in y.store.codes && consents[code].client == ops[i].client && now <= consents[code].at + CODE_TTL)
            && (z.redeemed == y.redeemed + [code] ==>
                  && code !in z.store.codes
                  && z.store.tokens == y.store.tokens[ops[i].a := Record(ops[i].client, consents[code].scopes, now + ACCESS_TTL, ops[i].family, None, false)]
                  && z.store.refresh == y.store.refresh[ops[i].r := Record(ops[i].client, consents[code].scopes, now + REFRESH_TTL, ops[i].family, Some(ops[i].a), false)])
            && (z.redeemed != y.redeemed + [code] ==>
                  z.redeemed == y.redeemed && z.store.tokens == y.store.tokens && z.store.refresh == y.store.refresh)
  {
    RunTraced(ys, ops, nows, i);
    hide Inv, Traces;
    assert Step(ys[i], ops[i], nows[i], ys[i + 1]);
    RedeemIs(ys[i], ops[i], nows[i]);
    hide Next, PastAt;
  }

  /** A refresh token is exchanged exactly when it is stored, was not exchanged before, is that
      of the client whose code its family began with, and was issued less than thirty days ago
      (an expiry of exactly zero counts as none). The new tokens continue its family; otherwise
      none is issued. */
  lemma RotatedIff(ys: seq<Sys>, ops: seq<Op>, nows: seq<int>, i: nat)
    requires IsRun(ys, ops, nows) && i < |ops| && ops[i].Rotating?
    ensures var y, z, t, now := ys[i], ys[i + 1], ops[i].token, nows[i];
            var p := PastAt(ys, ops, nows, i);
            && (t in y.store.refresh ==> t in y.family && t in p.births)
            && (z.exchanged == y.exchanged + [t] <==>
                  && t in y.store.refresh && t !in y.exchanged
                  && Owns(p, ops[i].client, y.family[t])
                  && (now <= p.births[t] + REFRESH_TTL || p.births[t] + REFRESH_TTL == 0))
            && (z.exchanged == y.exchanged + [t] ==>
                  && ops[i].a in z.store.tokens && ops[i].r in z.store.refresh
                  && z.family == y.family[ops[i].a := y.family[t]][ops[i].r := y.family[t]]
                  && z.store.tokens[ops[i].a].scopes == if ops[i].scopes == [] then y.store.refresh[t].scopes else ops[i].scopes)
            && (z.exchanged != y.exchanged + [t] ==> z.exchanged == y.exchanged && z.family == y.family)
  {
    var y, p := ys[i], PastAt(ys, ops, nows, i);
    RunTraced(ys, ops, nows, i);
    assert Step(ys[i], ops[i], nows[i], ys[i + 1]);
    RotateIs(y, ops[i], nows[i]);
    hide Next, PastAt;
    ExchangedAre(y, ops[i].token);
    hide Inv;
    if ops[i].token in y.store.refresh {
      assert Owns(p, y.store.refresh[ops[i].token].client, y.family[ops[i].token]);
    }
  }

  lemma ExchangedAre(y: Sys, t: Digest)
    requires Inv(y)
    ensures t in y.store.refresh ==> t in y.family && y.store.refresh[t].family == y.family[t]
    ensures Pending(y.store, t) <==> t in y.store.refresh && t !in y.exchanged
  {
    InvParts(y);
    hide OneLine, RedeemedOnce, ReplaysEnded, NoDuplicates;
  }

  /** An access token resolves, to the client whose code its family began with, exactly while it
      is stored and for the hour after it was issued. */
  lemma AccessIff(ys: seq<Sys>, ops: seq<Op>, nows: seq<int>, i: nat, t: Digest, now: int, client: string)
    requires IsRun(ys, ops, nows) && i < |ys|
    ensures var y, p := ys[i], PastAt(ys, ops, nows, i);
            && (t in y.store.tokens ==> t in y.family && t in p.births)
            && (LoadAccess(y.store, t, now).1 == Some(client) <==>
                  t in y.store.tokens && Owns(p, client, y.family[t]) && now <= p.births[t] + ACCESS_TTL)
  {
    var y, p := ys[i], PastAt(ys, ops, nows, i);
    RunTraced(ys, ops, nows, i);
    InvParts(y);
    hide Inv, OneLine, ExchangedOnce, RedeemedOnce, ReplaysEnded, PastAt;
    if t in y.store.tokens {
      assert Owns(p, y.store.tokens[t].client, y.family[t]);
    }
  }
}
