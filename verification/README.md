# Verified model of mail-mcp

A Dafny model of the parts of the mail gateway in which a mistake loses mail, hands out a
token twice or silently drops somebody's change, with proofs of what those parts keep.
`dafny verify dfyconfig.toml` checks all of it.

What the source changes step by step is a `class` or a method with a loop, proved against a
function of the old state; the theorems are about those functions, over every input, every
run or every point where a link can break.

| part of the gateway | modules |
|---|---|
| mailbox names | `Base64`, `Utf16`, `ModifiedUtf7`, `MailboxNames` |
| one IMAP connection, many tasks | `ImapSession`, `ImapCalls`, `ImapConnections`, `ImapProbes`, `ImapLostLinks` |
| changes to a mailbox over a link that breaks | `ImapServer`, `ImapCommands`, `ImapClient`, `ImapSafety`, `ImapReports`, `ImapRetry`, `ImapOutcomes`, `MailTools`, `MailAnswers` |
| OAuth codes and tokens | `OAuthStore`, `OAuthProvider`, `OAuthClients` |
| free time | `FreeTime` |
| calendar writes | `Text`, `CalDav` |
| connections and the cache of clients | `AccountStore`, `Registry` |
| activity log and dashboard | `ActivityLog`, `Overview` |
| address lists | `Text`, `Addresses` |
| IMAP quoting and search | `Utf8`, `ImapQuoting`, `SearchLine`, `SearchCriteria`, `SearchReader`, `SearchMeaning` |
| connection tests per minute | `RateLimit` |

## How the outside world is modelled

- *The IMAP link* (`ImapServer.World`): a list of fates, one per server command, says whether
  it is answered, refused (NO), rejected (BAD), or cut off before or after it took effect.
  `trace` keeps every state the mailbox was in, so a claim over the trace holds at every cut.
  All theorems quantify over the list, the capabilities and the contents.
- *Tasks and threads* (`ImapSession`): a step runs one task from one `await` to the next, ends a
  worker thread, cancels a task or lets a connection die; a run is any sequence of steps.
- *Other calendar writers* (`CalDav.World`): before each request others may store any
  versions; the request may be served, refused, redirected, or cut off before or after. The
  only assumption, where it is stated, is that two versions with one strong ETag hold the same
  bytes (RFC 9110 section 8.8.1).
- *Secrets*: a token stands for its digest, the hash being injective; new secrets and ids are
  fresh. Clocks are parameters. Files are the values written to them.

## Findings

Properties that do not hold of the code for all inputs, each with the exact condition under
which they do and a concrete input or run that shows the failure:

- Moving messages *inside one folder* on a server with UIDPLUS and without MOVE can lose a
  message: if the search that precedes the copy is answered NO, every requested UID counts as
  present, and a copy that is given one of those UIDs is expunged with the originals
  (`ImapSafety.ClashLoses`). The move is safe exactly when no requested UID is one the copies
  will get (`ImapSafety.MoveSafeIff`); between two folders it always is.
- A move that copies *reports its originals as expunged or flagged* without looking at the
  reply to the command that flags them. If that one is refused they stay as they were
  (`ImapReports.RefusedFlagging`). In a given run the report is true exactly when the flagging
  was not refused or not needed (`ImapReports.MoveTakesEffect`); between folders it is true in
  all runs exactly when the server has MOVE, or there is no such target, or every message asked
  for was flagged deleted already (`ImapReports.MoveTruthIff`).
- A connection whose link broke is given up, and no command runs on it again
  (`ImapLostLinks.NeverAgain`), unless the break came under the second of two attempts. Then it
  is kept, and serves the next call (`ImapLostLinks.BrokenServes`, reached by
  `ImapLostLinks.BrokenTwiceHappens`).
- A replayed refresh token is detected exactly while the store still holds its record
  (`OAuthProvider.ReplayDetected`). After its own expiry a purge forgets it, and a replay then
  goes unnoticed while the family lives on (`OAuthProvider.ForgottenReplay`, reached by
  `OAuthProvider.ForgottenReplayHappens`).
- An update of a calendar entry read *without a usable ETag* is written unconditionally, so
  another client's change in between is lost (`CalDav.OvertakenLoses`); never otherwise
  (`CalDav.FreshIff`).
- `delete` lists 404 among the statuses it expects, but `_request` raises on 404 first, so
  deleting an entry that is gone is reported as an error: exactly when the server finds no
  entry or says so (`CalDav.RemoveGoneIff`), for instance when another client deletes it
  between the read and the DELETE (`CalDav.ForestalledFails`).
- The two seven-day figures of the dashboard agree exactly when every moment of the last seven
  days falls on a day of the window (`Overview.SameWeekIff`). Where days have 24 hours that is
  eight days or more, and nine are enough on any civil clock (`Overview.EnoughDays`); in a week
  that skips an hour eight are not (`Overview.SkippedHour`). The dashboard's fourteen are.
- An address list round-trips exactly when no unquoted name starts with white space
  (`Addresses.ListRoundTrip`, `Addresses.LeadingSpaceIsLost`). Both callers of
  `display_address` pass the name through `decode_value`, which trims it, so only a direct
  call reaches the failure.
- A search is readable by a server exactly when its dates have a four-digit year and its size
  is not negative (`SearchReader.SearchArrives`, `SearchReader.UnreadableSearches`).

## Model

| member | source | states |
|---|---|---|
| `Base64.RoundTrip` | src/mail_mcp/mutf7.py:22 | strict base64 decoding undoes encoding, for all bytes |
| `Base64.SameGroups` | src/mail_mcp/mutf7.py:22 | each 3-byte group and its 4 characters are the same 24-bit number (RFC 4648 section 4) |
| `Utf16.RoundTrip` | src/mail_mcp/mutf7.py:22 | strict UTF-16 decoding undoes encoding, surrogate pairs included |
| `ModifiedUtf7.Encode` | src/mail_mcp/mutf7.py:14-36 | the loop with its buffer and `flush` computes the encoding |
| `ModifiedUtf7.Decode` | src/mail_mcp/mutf7.py:39-67 | the scanning loop computes the decoding, unterminated and malformed shifts kept verbatim |
| `ModifiedUtf7.RoundTrip` | src/mail_mcp/mutf7.py:14-67 | decoding an encoding gives back every string |
| `ModifiedUtf7.Injective` | src/mail_mcp/mutf7.py:14-36 | no two names share an encoding |
| `ModifiedUtf7.EncodingIsPrintable` | src/mail_mcp/mutf7.py:14-36 | an encoding is printable ASCII of the RFC 3501 grammar, each `&` closed by a later `-` |
| `ModifiedUtf7.PlainNameDecodes` | src/mail_mcp/mutf7.py:39-50 | a name without `&` decodes to itself |
| `ModifiedUtf7.PlainNameEncodes` | src/mail_mcp/mutf7.py:26-36 | a printable name without `&` encodes to itself |
| `MailboxNames.EncodingIs` | src/mail_mcp/mutf7.py:14-36 | the one text section 5.1.3 of RFC 3501 prescribes: printable characters as they are, `&-`, and each maximal run of others as one shift, the fewest 6-bit groups that hold its UTF-16 (RFC 2781); it exists, is unique, and is what is sent |
| `MailboxNames.ShiftReads` | src/mail_mcp/mutf7.py:59-65 | a shift reads as the text whose UTF-16 its symbols hold, and is kept as it stands when they hold none |
| `MailboxNames.OthersKept` | src/mail_mcp/mutf7.py:59-65 | what is not made of the symbols, and nothing else makes sense of, is kept as it stands |
| `ModifiedUtf7.DecodedUnterminated` | src/mail_mcp/mutf7.py:53-56 | an unterminated shift is kept to the end of the text |
| `ImapSession.StepKeeps` | src/mail_mcp/imap_client.py:93-116 | every step of tasks, threads, cancellations and link deaths keeps the invariants |
| `ImapSession.Serialisation` | src/mail_mcp/imap_client.py:276-333 | in every run: one command thread at most, its task holding the lock; no command on a connection whose caller was cancelled; `retry=False` commands start at most once, others at most twice |
| `ImapSession.LockOutlivesCaller` | src/mail_mcp/imap_client.py:93-116 | no step takes the lock away while the thread of a cancelled caller runs |
| `ImapCalls.CallServed` | src/mail_mcp/imap_client.py:295-326 | in every run a call that ends uncancelled has started its command once; a second time, on another connection, exactly if it may be repeated and the link broke under the first; one time less exactly when the connection it needed could not be had |
| `ImapCalls.EveryCallEnds` | src/mail_mcp/imap_client.py:93-116 | no run deadlocks, and a task ends after at most twelve steps of its own |
| `ImapConnections.ConnectionsAccountedFor` | src/mail_mcp/imap_client.py:236-274 | in every run commands are started only on connections that were logged in, and at rest every usable connection is the current one or is being logged out |
| `ImapConnections.LoginOnlyWhenNeeded` | src/mail_mcp/imap_client.py:236-238 | a login is started only where no connection is usable |
| `ImapConnections.CloseLogsOut` | src/mail_mcp/imap_client.py:328-337 | closing leaves no connection and logs out the one there was |
| `ImapProbes.QuietIsProbed` | src/mail_mcp/imap_client.py:285-304 | in every run a command that must not be repeated starts on a quiet connection only after its probe was answered, and no other connection is probed |
| `ImapLostLinks.NeverAgain` | src/mail_mcp/imap_client.py:285-314 | in every run no command thread is on a connection that failed its probe, or broke under a first attempt |
| `ImapLostLinks.BrokenServes` | src/mail_mcp/imap_client.py:315-333 | a connection that breaks under a second attempt serves the next call |
| `ImapLostLinks.BrokenTwiceHappens` | src/mail_mcp/imap_client.py:315-333 | a run that gets there |
| `ImapClient.ImapClient.StoreFlags` | src/mail_mcp/imap_client.py:622-655 | the commands it sends under every fate, the connection it keeps, what it reports |
| `ImapClient.ImapClient.Move` | src/mail_mcp/imap_client.py:657-712 | likewise: MOVE, or COPY, flag, and expunge by UID or stop |
| `ImapClient.ImapClient.Expunge` | src/mail_mcp/imap_client.py:714-761 | likewise: by UID, folder-wide, or left flagged |
| `ImapClient.ImapClient.Append` | src/mail_mcp/imap_client.py:763-794 | likewise: never retried, the new UID if the server tells it |
| `ImapClient.ImapClient.Fetch` | src/mail_mcp/imap_client.py:590-612 | likewise: reads, retried once |
| `ImapClient.ImapClient.Alive` | src/mail_mcp/imap_client.py:285-293 | a quiet connection is probed, and given up if the probe fails |
| `ImapClient.ImapClient.SearchPresent` | src/mail_mcp/imap_client.py:123-129 | the requested messages found, or all of them when the search is refused |
| `ImapCommands.PresentSplits` | src/mail_mcp/imap_client.py:655 | done and missing split the request, as a multiset, whatever was found |
| `ImapSafety.MoveSafety` | src/mail_mcp/imap_client.py:657-712 | at every cut: no message outside the request is touched, and each message asked for is in the source or copied; a success splits the request and says how it went |
| `ImapReports.MoveTakesEffect` | src/mail_mcp/imap_client.py:675-701 | in every run the report "uids" or "flagged" is true of the originals exactly when their flagging was not refused, or was not needed; which of the two is decided by the capabilities |
| `ImapReports.FlagReportIff` | src/mail_mcp/imap_client.py:696-701 | the same for the commands after the copy, in any folder |
| `ImapReports.MoveTruthIff` | src/mail_mcp/imap_client.py:675-701 | between folders every report of a move is true in all runs exactly when the server has MOVE, or the target is not there, or all messages asked for were flagged deleted |
| `ImapReports.RefusedFlagging` | src/mail_mcp/imap_client.py:696-701 | the run in which all is answered but the flagging, and the report is untrue |
| `ImapReports.ReliableReport` | src/mail_mcp/imap_client.py:675-701 | a run without refusals, or one that needs no flagging, reports the truth |
| `ImapSafety.MoveSafeIff` | src/mail_mcp/imap_client.py:675-701 | inside one folder of distinct texts a move never loses a message exactly when no requested UID will be given to a copy |
| `ImapSafety.ClashLoses` | src/mail_mcp/imap_client.py:675-701 | the run in which such a move loses a message |
| `ImapRetry.StoreFlagsHidesRetry` | src/mail_mcp/imap_client.py:622-655 | one broken link, anywhere, goes unnoticed: result and mailbox are those of an undisturbed run, which flags exactly the requested messages that are there; however many break, a result is that run's, and an error leaves that mailbox or the old one |
| `ImapRetry.ExpungeHidesRetry` | src/mail_mcp/imap_client.py:714-761 | the same for expunging |
| `ImapRetry.RetryingHides` | src/mail_mcp/imap_client.py:295-326 | the same for any command that can be repeated from either side of its effect; only a connection that cannot be had at first is told of |
| `ImapOutcomes.FetchHidesRetry` | src/mail_mcp/imap_client.py:590-612 | one broken link goes unnoticed, and what is answered at all is the message, or that it or the folder is not there |
| `ImapOutcomes.RefusalsAreFinal` | src/mail_mcp/imap_client.py:295-326 | without a broken link no command is sent twice, even if refused |
| `ImapOutcomes.MoveAnswers` | src/mail_mcp/imap_client.py:657-712 | with every command answered the one result of a move: the messages that are there, the others, and the way, or the error |
| `ImapOutcomes.AppendAnswers` | src/mail_mcp/imap_client.py:763-794 | with every command answered the message is added and nothing else, or the folder is not there |
| `ImapOutcomes.CopiedOnce` | src/mail_mcp/imap_client.py:657-712 | whatever becomes of the commands, the target's UIDNEXT moves by the number of messages that were there, or not at all: nothing is copied twice |
| `MailTools.AppendSteps` | src/mail_mcp/imap_client.py:763-794 | the message is added once or not at all, only a broken link leaves open which, and a returned UID names it |
| `MailTools.DiscardMessage` | src/mail_mcp/server.py:1239-1260 | the calls made, in order, and the report |
| `MailTools.ReplaceMessage` | src/mail_mcp/server.py:1393-1408 | write first, then discard; a failed discard does not undo the write |
| `MailTools.DeleteMessages` | src/mail_mcp/server.py:1721-1750 | to Trash, or flagged and expunged by UID, never folder-wide |
| `MailTools.ReplaceSafety` | src/mail_mcp/server.py:1393-1408 | at every cut of `edit_message` and `update_draft`: nothing else is touched, the original or its revision is there, and the original is there or in Trash if there is one; errors and reports are truthful, as in `MailTools.DiscardTells` |
| `MailTools.DiscardTells` | src/mail_mcp/server.py:1239-1260 | what is reported of the discarded message is so: one that was there is never "already gone"; one "moved to Trash" has a copy there and has left, or was refused its flag and is as it was, which a reliable run rules out |
| `MailTools.DeleteSafety` | src/mail_mcp/server.py:1721-1750 | at every cut no message outside the request is removed, flagged deleted or not; every message that was there is reported done, and what is reported of it is so, on the way to Trash as far as the run is reliable |
| `MailAnswers.DeleteAnswers` | src/mail_mcp/server.py:1721-1750 | with every command answered the one result of `delete_messages`: to Trash unless permanent or there is none, else erased or flagged as the server can |
| `MailAnswers.DiscardAnswers` | src/mail_mcp/server.py:1239-1260 | likewise what a discard reports |
| `MailAnswers.ReplaceAnswers` | src/mail_mcp/server.py:1393-1408 | likewise the result of a replacement, for every mailbox, capability set and target |
| `MailAnswers.ReadOnlyChangesNothing` | src/mail_mcp/imap_client.py:616-620 | of a mailbox connected read-only nothing is changed or asked, by any call or tool |
| `MailAnswers.BrokenNotKept` | src/mail_mcp/imap_client.py:307-314 | a connection that broke under a command that is not repeated is not kept; one that served a command is |
| `OAuthStore.ConnectionStore.SaveCode` | src/mail_mcp/store.py:627-656 | keeps the unexpired codes less just enough of the client's first to expire, and the new one |
| `OAuthStore.CodeCap` | src/mail_mcp/store.py:627-656 | at most 20 codes of the client, its latest to expire and the new one; no other client loses an unexpired code |
| `OAuthStore.RoomForOneMore` | src/mail_mcp/store.py:646-647 | below the cap nothing unexpired is lost |
| `OAuthStore.CodesInOrder` | src/mail_mcp/store.py:641-645 | the client's codes, all of them, by expiry and key |
| `OAuthStore.HeadIsEvicted` | src/mail_mcp/store.py:646-647 | popping the head of that order evicts the first to expire |
| `OAuthStore.PopWhere` | src/mail_mcp/store.py:782-794 | the popping loop removes exactly the records meant, and counts them |
| `OAuthStore.RevokedIff` | src/mail_mcp/store.py:810-818 | revoking takes the token and the refresh tokens issued beside it, exactly |
| `OAuthStore.FamilyEndedIff` | src/mail_mcp/store.py:782-794 | ending a family takes its tokens of both kinds, exactly |
| `OAuthStore.PurgedIff` | src/mail_mcp/store.py:820-839 | a purge takes what has an expiry that is past, exactly |
| `OAuthStore.ConnectionStore.SaveToken` | src/mail_mcp/store.py:672-703 | the two records kept |
| `OAuthStore.ConnectionStore.ConsumeRefresh` | src/mail_mcp/store.py:767-780 | marks the refresh token consumed and drops the access token beside it |
| `OAuthStore.ConnectionStore.RevokeFamily` | src/mail_mcp/store.py:782-794 | drops every token of the family and tells how many |
| `OAuthStore.ConnectionStore.RevokeHash` | src/mail_mcp/store.py:810-818 | drops a token and the refresh tokens issued beside it |
| `OAuthStore.ConnectionStore.PurgeExpired` | src/mail_mcp/store.py:820-839 | drops what has expired and tells how many |
| `OAuthStore.ConnectionStore.DropClient` | src/mail_mcp/store.py:367-372 | drops everything of one client |
| `OAuthProvider.MailOAuthProvider.Authorize` | src/mail_mcp/oauth.py:87-106 | a code that lives five minutes is saved, tokens untouched |
| `OAuthProvider.MailOAuthProvider.ExchangeAuthorizationCode` | src/mail_mcp/oauth.py:108-134 | a code is popped and starts a family, or is refused |
| `OAuthProvider.MailOAuthProvider.ExchangeRefreshToken` | src/mail_mcp/oauth.py:138-164 | rotation, refusal, or the end of the family on a replay |
| `OAuthProvider.MailOAuthProvider.LoadAccessToken` | src/mail_mcp/oauth.py:188-202 | an expired access token is dropped alone |
| `OAuthProvider.StepKeeps` | src/mail_mcp/oauth.py:87-205 | every request keeps the invariants of families, tokens and codes |
| `OAuthProvider.Rotation` | src/mail_mcp/oauth.py:127-184 | in every run each family has one live access token and one unconsumed refresh token at most; no refresh token or code is exchanged twice |
| `OAuthProvider.ReplayEndsFamily` | src/mail_mcp/oauth.py:166-184 | after a remembered consumed token is presented no token of its family, old or new, resolves in any later state |
| `OAuthProvider.ReplayDetected` | src/mail_mcp/oauth.py:138-150 | a token exchanged before is never exchanged again; its family is revoked exactly when its record is still stored |
| `OAuthProvider.Remembered` | src/mail_mcp/store.py:767-780 | a consumed token is remembered until its expiry, unless its family ends or it is dropped by name or with its client |
| `OAuthProvider.ForgottenReplay` | src/mail_mcp/store.py:820-839 | a purge after that expiry makes the replay unnoticed |
| `OAuthProvider.ForgottenReplayHappens` | src/mail_mcp/store.py:820-839 | a run that reaches such a state |
| `OAuthClients.TokensBelong` | src/mail_mcp/oauth.py:87-184 | in every state of every run each stored token belongs to the client that was authorized for the code its family began with |
| `OAuthClients.RedeemedIff` | src/mail_mcp/oauth.py:108-134 | a code is redeemed exactly when it was made for this client, at most five minutes ago, and is still stored; the tokens are then this client's and cover what was consented to; else none is issued |
| `OAuthClients.RotatedIff` | src/mail_mcp/oauth.py:138-164 | a refresh token is exchanged exactly when it is stored, was not exchanged before, belongs to this client and was issued at most thirty days ago; the new tokens continue its family |
| `OAuthClients.AccessIff` | src/mail_mcp/oauth.py:188-202 | an access token resolves to its client exactly while it is stored and for the hour after it was issued |
| `FreeTime.BusyPeriods` | src/mail_mcp/server.py:2216-2235 | the busy periods of the events, sorted, none lost; a moment lies in one exactly when an event that is not cancelled goes on then |
| `FreeTime.SweepDay` | src/mail_mcp/server.py:2252-2260 | the sweep of a day yields exactly its maximal free stretches |
| `FreeTime.FreeSlots` | src/mail_mcp/server.py:2202-2262 | slots in order, each a stretch of one day's hours in which no event goes on, and every such stretch lies in one; the error on a bad start hour |
| `FreeTime.SlotsAreUsable` | src/mail_mcp/server.py:2237-2262 | each slot lies in the window and on one day, is long enough, and no event goes on in it |
| `FreeTime.SlotsAreMaximal` | src/mail_mcp/server.py:2237-2262 | no slot can be made longer |
| `FreeTime.ClearIff` | src/mail_mcp/server.py:2216-2235 | a stretch meets no busy period exactly when no event goes on in it and none of no length lies inside; all-day events last whole days, at least one |
| `FreeTime.UniqueSlots` | src/mail_mcp/server.py:2237-2262 | only one list of slots meets that specification |
| `CalDav.UsableEtagIs` | src/mail_mcp/caldav_client.py:116-126 | white space comes off, a weak validator leaves nothing, a strong one is kept as it is |
| `CalDav.CalDavClient.UpdateResource` | src/mail_mcp/caldav_client.py:526-564 | the loop makes the rounds of read, transform and conditional write |
| `CalDav.CalDavClient.DeleteResource` | src/mail_mcp/caldav_client.py:566-586 | likewise for deletion |
| `CalDav.UpdateSafety` | src/mail_mcp/caldav_client.py:526-564 | with others writing in between: `max(1, attempts)` tries and one effective write at most; against a strong ETag a success has stored the change of the very version it replaced and returned |
| `CalDav.DeleteSafety` | src/mail_mcp/caldav_client.py:566-597 | likewise; what is removed is the version read |
| `CalDav.CreateSafety` | src/mail_mcp/caldav_client.py:489-509 | creating never writes over an entry |
| `CalDav.FreshIff` | src/mail_mcp/caldav_client.py:511-524 | no interleaving loses an update exactly when the version read has a usable ETag |
| `CalDav.OvertakenLoses` | src/mail_mcp/caldav_client.py:511-524 | the run in which an unconditional write loses another's change |
| `CalDav.RacesReplayed` | src/mail_mcp/caldav_client.py:542-564 | however many races are lost, if fewer than the attempts, the first undisturbed round puts the change on top of what the others wrote |
| `CalDav.BeatenMeansRace` | src/mail_mcp/caldav_client.py:550-558 | a round is only ever replayed because of another's write in between, or a server that answers 412 |
| `CalDav.RacesLost` | src/mail_mcp/caldav_client.py:546-564 | beaten in every attempt, the update is a conflict after exactly as many tries |
| `CalDav.DeleteReplayed` | src/mail_mcp/caldav_client.py:566-586 | the first undisturbed round of a deletion removes the entry |
| `CalDav.CreatedIff` | src/mail_mcp/caldav_client.py:489-509 | a creation succeeds exactly when it is served and nothing is there, and is a conflict exactly when something is or the server says so |
| `CalDav.WriteFails` | src/mail_mcp/caldav_client.py:180-249 | each way a write fails is reported for exactly its causes |
| `CalDav.ReadFails` | src/mail_mcp/caldav_client.py:180-249 | likewise for a read |
| `CalDav.RemoveGoneIff` | src/mail_mcp/caldav_client.py:588-597 | deleting is reported as failed on a missing entry exactly when the server finds none or says so, and nothing is written then |
| `CalDav.ForestalledFails` | src/mail_mcp/caldav_client.py:566-597 | the run in which another's deletion comes first |
| `AccountStore.ConnectionStore.AddAccount` | src/mail_mcp/store.py:389-409 | the new record, default and revision, for the owner only |
| `AccountStore.ConnectionStore.UpdateAccount` | src/mail_mcp/store.py:411-443 | likewise, in place |
| `AccountStore.ConnectionStore.RemoveAccount` | src/mail_mcp/store.py:445-461 | likewise, the default passing to the first left |
| `AccountStore.ConnectionStore.SetDefaultAccount` | src/mail_mcp/store.py:463-477 | likewise |
| `AccountStore.ConnectionStore.AddCalendar` | src/mail_mcp/store.py:481-499 | likewise |
| `AccountStore.ConnectionStore.RemoveCalendar` | src/mail_mcp/store.py:501-517 | likewise |
| `AccountStore.ConnectionStore.SetDefaultCalendar` | src/mail_mcp/store.py:519-533 | likewise |
| `AccountStore.ConnectionStore.RenameConnection` | src/mail_mcp/store.py:374-385 | the label alone, the revision kept |
| `AccountStore.ConnectionStore.DeleteConnection` | src/mail_mcp/store.py:337-349 | one connection less, for the owner only, and with it the codes and tokens of its client |
| `AccountStore.DeletedIsOut` | src/mail_mcp/store.py:337-372 | a deleted connection is not found, its client is unknown and holds no code or token; every other client keeps its own |
| `AccountStore.ConnectionStore.GetByClient` | src/mail_mcp/store.py:322-326 | the first connection of that client id |
| `AccountStore.PutFound` | src/mail_mcp/store.py:389-409 | after adding, the account is found as given and every other as before |
| `AccountStore.RemovedFound` | src/mail_mcp/store.py:445-461 | after removing, it is not found and every other is as before |
| `AccountStore.UpdateKeeps` | src/mail_mcp/store.py:411-443 | place, default, creation date and secrets not given anew are kept; nothing else changes |
| `AccountStore.ShelfKept` | src/mail_mcp/store.py:389-533 | no id twice, a default exactly when there is something to choose |
| `AccountStore.EditTouchesOne` | src/mail_mcp/store.py:374-533 | a change touches one connection, only for its owner, and moves the revision whenever what it serves changes |
| `AccountStore.EditedIff` | src/mail_mcp/store.py:374-533 | an edit is made exactly when the connection is there, is the caller's, and holds the account the edit is about |
| `AccountStore.DeletedIff` | src/mail_mcp/store.py:337-349 | a connection is deleted exactly when it is there and is the caller's; the others stay in order |
| `AccountStore.ChangeTouches` | src/mail_mcp/store.py:374-533 | what each kind of change leaves alone; the revision moves by one, and only a new label leaves it |
| `AccountStore.RemovedIs` | src/mail_mcp/store.py:445-461 | the others stay in order, and the default passes to the first of them only if it was the one removed |
| `Registry.MailboxRegistry.Forget` | src/mail_mcp/store.py:880-889 | the entry goes, its clients are shut down |
| `Registry.MailboxRegistry.ReapIdle` | src/mail_mcp/store.py:891-912 | idle clients and entries without a connection go, the rest stays |
| `Registry.MailboxRegistry.GetEntry` | src/mail_mcp/store.py:914-930 | the cached entry at the store's revision, else a new one |
| `Registry.MailboxRegistry.AccountSetFor` | src/mail_mcp/store.py:932-934 | the entry's mailboxes |
| `Registry.MailboxRegistry.CalendarSetFor` | src/mail_mcp/store.py:936-938 | the entry's calendars |
| `Registry.MailboxRegistry.ClientFor` | src/mail_mcp/store.py:940-962 | the client kept for the account, or a new one |
| `Registry.ByAgeIs` | src/mail_mcp/store.py:288-303 | accounts are shown oldest first, none gained or lost |
| `Registry.ResolveIs` | src/mail_mcp/accounts.py:228-250 | a call resolves to the oldest account in the store that the selector names, to none if it names none, and without a selector to the default |
| `Registry.StepKeeps` | src/mail_mcp/store.py:865-962 | every store change, lookup, use, forgetting and reaping keeps cache and store coherent |
| `Registry.CacheCoherence` | src/mail_mcp/server.py:388-401 | in every run a lookup answers what the store holds now, and a call's client was built from the account the store has now and was never shut down |
| `Registry.ClientsAccountedFor` | src/mail_mcp/store.py:872-962 | in every run a client ever made is kept for one account of one connection or was shut down, never both and never neither |
| `Registry.KeptIff` | src/mail_mcp/store.py:880-962 | a client is kept from step to step exactly until its connection is forgotten, it is idle when reaped, or its entry is looked at after the store has moved on |
| `Registry.ClientReused` | src/mail_mcp/store.py:940-962 | a call gets the client kept for its account; one is made only where none is |
| `ActivityLog.ActivityLog.Append` | src/mail_mcp/activity.py:162-198 | the file after an append, trimmed every `max(50, max // 10)` |
| `ActivityLog.ActivityLog.ReadEntries` | src/mail_mcp/activity.py:200-237 | the newest matching entries, at least one and at most `limit` |
| `ActivityLog.ReadIs` | src/mail_mcp/activity.py:200-237 | a read gives lines with every field asked for, latest first; it leaves one out only if it is full, and none later than one it gives |
| `ActivityLog.FileIsRecentHistory` | src/mail_mcp/activity.py:162-198 | after any appends the file is a suffix of the full history, of at least `min(n, max)` and at most `max + max(50, max // 10) - 1` entries |
| `ActivityLog.ReadRefinesHistory` | src/mail_mcp/activity.py:200-237 | an unfiltered read of at most `max` entries is the read of the full history |
| `ActivityLog.FilteredReadIff` | src/mail_mcp/activity.py:200-237 | a filtered read is the read of the full history exactly when it comes back full, or nothing trimmed off matches |
| `ActivityLog.ReadIsPrefix` | src/mail_mcp/activity.py:200-237 | any read is the newest part of the read of the history |
| `ActivityLog.OffKeepsNothing` | src/mail_mcp/activity.py:162-165 | a log of size 0 writes nothing |
| `Overview.Overview` | src/mail_mcp/activity.py:321-420 | the loop with its counters computes the figures |
| `Overview.Summarise` | src/mail_mcp/activity.py:423-440 | the loop computes the summary |
| `Overview.SummaryCounts` | src/mail_mcp/activity.py:423-440 | the summary tells of the connections called, and counts their week, their errors and their last call |
| `Overview.DaysAddUp` | src/mail_mcp/activity.py:395-396 | each day's successes and failures are the day's calls of all connections together |
| `Overview.WindowAddsUp` | src/mail_mcp/activity.py:388-395 | the days hold all calls of the window, and all its failures |
| `Overview.ToolsAddUp` | src/mail_mcp/activity.py:360-372 | the tools' calls add up to the total |
| `Overview.AccountsWithin` | src/mail_mcp/activity.py:393-394 | the accounts' calls are calls of the window |
| `Overview.DayCounts` | src/mail_mcp/activity.py:385-395 | each bucket counts the entries of its day and outcome |
| `Overview.NameCounts` | src/mail_mcp/activity.py:372-394 | each tool's and account's figure counts its entries |
| `Overview.ConnectionCounts` | src/mail_mcp/activity.py:379-400 | a connection's series, seven-day figures and last call count its entries |
| `Overview.WindowCounts` | src/mail_mcp/activity.py:360-390 | the totals count the entries they are about |
| `Overview.LastDaysCount` | src/mail_mcp/activity.py:364-369 | the figures of the last two days count theirs |
| `Overview.RecentAreFirst` | src/mail_mcp/activity.py:374-375 | the entries shown are the first eight |
| `Overview.FailuresAreFirst` | src/mail_mcp/activity.py:376-377 | the failures shown are the first five of the week |
| `Overview.SameWeekIff` | src/mail_mcp/activity.py:397-440 | without future entries both seven-day figures agree, for every log and local clock, exactly when every moment of the week falls on a day of the window |
| `Overview.EnoughDays` | src/mail_mcp/activity.py:338-341 | that is eight days where days have 24 hours, and nine are enough on a clock that is moved by less than a day |
| `Overview.SkippedHour` | src/mail_mcp/activity.py:338-341 | the week in which eight days are not enough |
| `Addresses.SplitOutsideQuotes` | src/mail_mcp/composer.py:39-65 | the scanning loop computes the parts, stripped, empty ones left out |
| `Addresses.ScanLosesNothing` | src/mail_mcp/composer.py:39-64 | the text is its parts in order and the separators between them |
| `Addresses.SplitIs` | src/mail_mcp/composer.py:39-65 | a text whose quotes and brackets close is cut at every comma and semicolon outside of them, and nowhere else |
| `Addresses.PlainIff` | src/mail_mcp/message.py:43-56 | a name is printed without quotes exactly when it holds no special of RFC 5322 |
| `Addresses.AddressScanned` | src/mail_mcp/message.py:43-56 | a printed address is scanned as one piece, whatever its name holds |
| `Addresses.ListRoundTrip` | src/mail_mcp/composer.py:39-65 | splitting joined printed addresses gives back the list exactly when no unquoted name starts with white space |
| `Addresses.LeadingSpaceIsLost` | src/mail_mcp/composer.py:65 | the list that does not come back |
| `ImapQuoting.QuotedRoundTrip` | src/mail_mcp/search.py:55-75 | accepted exactly without control characters; a server reads the value back and stops at the closing quote |
| `ImapQuoting.QuoteIsQuoted` | src/mail_mcp/imap_client.py:159-172 | `quote` prints what `_quoted` does |
| `ImapQuoting.FolderNameArrives` | src/mail_mcp/imap_client.py:159-172 | every folder name, encoded and quoted, is accepted, read back and decodes to the name |
| `Utf8.RoundTrip` | src/mail_mcp/search.py:75 | strict UTF-8 decoding undoes encoding |
| `SearchCriteria.BuildCriteria` | src/mail_mcp/search.py:78-135 | appending step by step computes the tokens of the keys the filters mean, or the refusal |
| `SearchReader.DateReads` | src/mail_mcp/search.py:26-31 | a date is read back exactly when its year has four digits |
| `SearchLine.TokeniseJoin` | src/mail_mcp/search.py:138-140 | tokens joined by spaces are taken apart into the same tokens |
| `SearchReader.SearchArrives` | src/mail_mcp/search.py:78-135 | refused exactly for a control character; otherwise one line, the same tokens, and read as the search meant exactly when it can be expressed |
| `SearchReader.UnreadableSearches` | src/mail_mcp/search.py:26-31 | every date before the year 1000 and every negative size is sent and cannot be read |
| `SearchMeaning.SearchMeans` | src/mail_mcp/search.py:78-135 | the keys hold of exactly the messages that the filters ask for, however the server compares texts |
| `SearchMeaning.RefusedIff` | src/mail_mcp/search.py:55-75 | refused exactly when a text among the filters holds a control character other than the tab |
| `RateLimit.Limiter.ProbeAllowed` | src/mail_mcp/web.py:1263-1276 | the verdict and the log kept |
| `RateLimit.VerdictIff` | src/mail_mcp/web.py:1263-1276 | a call passes exactly when fewer than ten of the user's passed in the minute before |
| `RateLimit.AtMostAFewAMinute` | src/mail_mcp/web.py:1263-1276 | no half-open minute holds more than ten passed calls of one user, in any interleaving |

## Left out

- HTML, charts, routes, passkeys, forms and everything else of the web pages but `_probe_allowed`.
- The libraries below the gateway (`imaplib`, `httpx`, `email`, `icalendar`): small servers stand in for them; MIME, XML and iCalendar text are not modelled, and neither are `smtp_client.py`, `discovery.py`, `netguard.py`, `xoauth2.py` and `formatting.py`.
- ModifiedUtf7.Decode: what Python's lenient base64 makes of a malformed chunk is a parameter, because no round trip reaches it; `bytes` input is not modelled.
- ImapSession.Serialisation: counts command threads only, because a logout thread touches a connection already given up; `check`, which connects without the lock, is not a step.
- ImapCalls.EveryCallEnds: that a worker thread ends is left to the timeouts of the libraries; the order in which waiting tasks get the lock is not fixed.
- ImapClient.ImapClient.Move: folder names are compared as given, and a role or name is taken to resolve to the same folder each time; looking folders up only reads.
- ImapClient.ImapClient.Fetch: the SEARCH that falls back to ASCII in a second call, and reading summaries, are not modelled, because they change nothing.
- ImapSafety.MoveSafeIff: takes a folder of distinct texts, because a lost message cannot be told from an equal one that is still there.
- MailTools.ReplaceMessage: rewriting a message is a total function, because a rewriting error ends the call before anything is written; the flags and date copied from the original are part of that function.
- MailTools.DeleteMessages: a dry run is not modelled, because it only reads.
- OAuthProvider.Rotation: loading a code or refresh token and exchanging it are one step, because the code awaits between the two and makes no claim for that moment; records without a family and refresh records of the old format are not covered.
- OAuthStore.ConnectionStore.SaveCode: redirect addresses and code challenges are not kept, because nothing is decided by them here.
- FreeTime.FreeSlots: one clock without jumps, because daylight-saving changes are the library's; events end no earlier than they start.
- CalDav.CalDavClient.UpdateResource: a GET that follows redirects reads the same entry; a server that answers success without doing the write is not modelled.
- AccountStore.ConnectionStore.AddAccount: ids are given rather than drawn, mailbox and calendar ids never coinciding; encryption, and the client secret with its rotation, are not part of this record.
- Registry.MailboxRegistry.ReapIdle: the loop runs without anything in between, because `Registry.StepKeeps` covers one entry at a time with every other step between the entries; `discovered_home` is not part of an account.
- Registry.ResolveIs: a selector is the test it stands for; that an id, an address or a label is compared without regard to case and outer white space is not part of this model.
- ActivityLog.ActivityLog.Append: one line is one entry, and writing never fails.
- Overview.Overview: the median duration, the list of accounts and the ranking of tools and accounts are not modelled, because they only order or name what is counted.
- Addresses.ListRoundTrip: addresses free of structural characters and outer white space, because an address holding a separator is not one address; parsing the parts further is the library's.
- Addresses.SplitIs: of a text whose quotes or brackets stay open only `Addresses.ScanLosesNothing` is stated, because nothing says where such a list should be cut.
- SearchMeaning.SearchMeans: how a server looks for one text in another is a parameter.
- SearchCriteria.BuildCriteria: `raw` tokens are passed through unquoted and are not covered; dates are dates, not texts to be parsed.
- RateLimit.Limiter.ProbeAllowed: moments are real numbers, because rounding is not the point.
