/** The tools that replace and delete messages: a fixed order of client calls, whose first
    aim is that no message is lost whatever fails in between.
  */
module MailTools {
  import opened Prelude
  import opened ImapServer
  import opened ImapCommands
  import opened ImapSafety
  import opened ImapReports
  import opened ImapClient

  /** What became of the message that was replaced. */
  datatype Previous =
    | Kept
    | AlreadyGone
    | CopiedAndFlagged
    | MovedToTrash
    | FlaggedDeleted
    | Deleted
    | NotRemoved(why: Failure)

  datatype Replacement = Replacement(newUid: Option<Uid>, previous: Previous)

  datatype Deletion = Trashed(outcome: Outcome) | Erased(outcome: Outcome, scope: string)

  /** The answers of the calls that only look folders up, and of the clock: what a role leads
      to (a lookup can fail), and whether the connection was quiet before each change. */
  datatype Lookups = Lookups(trash: Attempt<Option<string>>, quietAppend: bool, quietMove: bool)

  // --- what the tools do -------------------------------------------------------------------

  /** To Trash when there is one elsewhere; else flagged deleted and expunged by UID. */
  function Discard(c: Client, l: Lookups, folder: string, uid: Uid): (Client, Attempt<Previous>) {
    if l.trash.Err? then (c, Err(l.trash.error))
    else if l.trash.value.Some? && l.trash.value.value != folder then
      var (c1, a) := c.Move(l.quietMove, folder, [uid], l.trash.value.value);
      if a.Err? then (c1, Err(a.error))
      else if a.value.done == [] then (c1, Ok(AlreadyGone))
      else (c1, Ok(if a.value.how == "flagged" then CopiedAndFlagged else MovedToTrash))
    else
      var (c1, a) := c.StoreFlags(folder, [uid], true, {DELETED});
      if a.Err? then (c1, Err(a.error))
      else if a.value.done == [] then (c1, Ok(AlreadyGone))
      else
        var (c2, scope) := c1.Expunge(folder, Some([uid]), false);
        if scope.Err? then (c2, Err(scope.error))
        else (c2, Ok(if scope.value == "flagged" then FlaggedDeleted else Deleted))
  }

  /** Write the revised message, then discard the original unless it is kept: `edit_message`
      writes to the same folder, `update_draft` to the Drafts folder if there is one. */
  function Replace(c: Client, l: Lookups, folder: string, uid: Uid, target: Option<string>,
                   revise: Message -> Message, keep: bool)
    : (Client, Attempt<Replacement>)
  {
    if c.readOnly then (c, Err(ReadOnly))
    else
      var (c1, original) := c.Fetch(folder, uid);
      if original.Err? then (c1, Err(original.error))
      else if target.None? then (c1, Err(NotFound))
      else
        var (c2, added) := c1.Append(l.quietAppend, target.value, revise(original.value));
        if added.Err? then (c2, Err(added.error))
        else if keep then (c2, Ok(Replacement(added.value, Kept)))
        else
          var (c3, gone) := Discard(c2, l, folder, uid);
          (c3, Ok(Replacement(added.value, if gone.Ok? then gone.value else NotRemoved(gone.error))))
  }

  function Delete(c: Client, l: Lookups, folder: string, uids: seq<Uid>, permanent: bool): (Client, Attempt<Deletion>) {
    if uids == [] then (c, Err(NotFound))
    else if !permanent && l.trash.Err? then (c, Err(l.trash.error))
    else if !permanent && l.trash.value.Some? then
      var (c1, a) := c.Move(l.quietMove, folder, uids, l.trash.value.value);
      (c1, if a.Err? then Err(a.error) else Ok(Trashed(a.value)))
    else
      var (c1, a) := c.StoreFlags(folder, uids, true, {DELETED});
      if a.Err? then (c1, Err(a.error))
      else
        var (c2, scope) := c1.Expunge(folder, Some(a.value.done), false);
        (c2, if scope.Err? then Err(scope.error) else Ok(Erased(a.value, scope.value)))
  }

  method DiscardMessage(client: ImapClient, l: Lookups, folder: string, uid: Uid) returns (a: Attempt<Previous>)
    modifies client
    ensures (client.View(), a) == Discard(old(client.View()), l, folder, uid)
  {
    if l.trash.Err? {
      return Err(l.trash.error);
    }
    if l.trash.value.Some? {
      var trash := l.trash.value.value;
      if trash != folder {
        var outcome := client.Move(l.quietMove, folder, [uid], trash);
        if outcome.Err? {
          return Err(outcome.error);
        }
        if outcome.value.done == [] {
          return Ok(AlreadyGone);
        }
        if outcome.value.how == "flagged" {
          return Ok(CopiedAndFlagged);
        }
        return Ok(MovedToTrash);
      }
    }
    var flagged := client.StoreFlags(folder, [uid], true, {DELETED});
    if flagged.Err? {
      return Err(flagged.error);
    }
    if flagged.value.done == [] {
      return Ok(AlreadyGone);
    }
    var scope := client.Expunge(folder, Some([uid]), false);
    if scope.Err? {
      return Err(scope.error);
    }
    a := Ok(if scope.value == "flagged" then FlaggedDeleted else Deleted);
  }

  method ReplaceMessage(client: ImapClient, l: Lookups, folder: string, uid: Uid, target: Option<string>,
                        revise: Message -> Message, keep: bool)
    returns (a: Attempt<Replacement>)
    modifies client
    ensures (client.View(), a) == Replace(old(client.View()), l, folder, uid, target, revise, keep)
  {
    hide Discard;
    if client.readOnly {
      return Err(ReadOnly);
    }
    var original := client.Fetch(folder, uid);
    if original.Err? {
      return Err(original.error);
    }
    if target.None? {
      return Err(NotFound);
    }
    var newUid := client.Append(l.quietAppend, target.value, revise(original.value));
    if newUid.Err? {
      return Err(newUid.error);
    }
    var previous := Kept;
    if !keep {
      var gone := DiscardMessage(client, l, folder, uid);
      previous := if gone.Ok? then gone.value else NotRemoved(gone.error);
    }
    a := Ok(Replacement(newUid.value, previous));
  }

  method DeleteMessages(client: ImapClient, l: Lookups, folder: string, uids: seq<Uid>, permanent: bool)
    returns (a: Attempt<Deletion>)
    modifies client
    ensures (client.View(), a) == Delete(old(client.View()), l, folder, uids, permanent)
  {
    if uids == [] {
      return Err(NotFound);
    }
    if !permanent {
      if l.trash.Err? {
        return Err(l.trash.error);
      }
      if l.trash.value.Some? {
        var moved := client.Move(l.quietMove, folder, uids, l.trash.value.value);
        return if moved.Err? then Err(moved.error) else Ok(Trashed(moved.value));
      }
    }
    var outcome := client.StoreFlags(folder, uids, true, {DELETED});
    if outcome.Err? {
      return Err(outcome.error);
    }
    var scope := client.Expunge(folder, Some(outcome.value.done), false);
    a := if scope.Err? then Err(scope.error) else Ok(Erased(outcome.value, scope.value));
  }

  // --- messages outside the request ---------------------------------------------------------

  ghost predicate UntouchedSince(r: Request, n: nat, w: World) {
    && n <= |w.trace|
    && Untouched(r, w.mailbox)
    && forall i :: n <= i < |w.trace| ==> Untouched(r, w.trace[i])
  }

  lemma SendUntouched(r: Request, n: nat, w: World, after: Option<Mailbox>)
    requires UntouchedSince(r, n, w)
    requires after.Some? ==> Untouched(r, after.value)
    ensures UntouchedSince(r, n, w.Send(after).0)
  {
    hide Untouched;
  }

  lemma ReadyUntouched(r: Request, n: nat, w: World, connected: bool, probe: bool)
    requires UntouchedSince(r, n, w)
    ensures var w1 := Ready(w, connected, probe).0;
            UntouchedSince(r, n, w1) && w1.mailbox == w.mailbox && w1.caps == w.caps
  {
    hide Untouched;
    SendUntouched(r, n, w, Some(w.mailbox));
    var w1 := w.Send(Some(w.mailbox)).0;
    SendUntouched(r, n, w1, Some(w1.mailbox));
  }

  lemma SelectUntouched(r: Request, n: nat, w: World)
    requires UntouchedSince(r, n, w)
    ensures var (w1, found) := Select(w, r.source, r.uids);
            && UntouchedSince(r, n, w1) && w1.mailbox == w.mailbox && w1.caps == w.caps
            && (found.Ok? ==> found.value == r.uids || (r.source in w.mailbox && found.value == Filter(r.uids, w.mailbox[r.source].msgs.Keys)))
  {
    hide Untouched;
    SendUntouched(r, n, w, Opened(w.mailbox, r.source));
    var w1 := w.Send(Opened(w.mailbox, r.source)).0;
    SendUntouched(r, n, w1, Opened(w1.mailbox, r.source));
  }

  /** What a search can tell to be there of the request. */
  ghost predicate Answer(r: Request, found: seq<Uid>) {
    exists keys :: AnswerFor(r, found, keys)
  }

  predicate AnswerFor(r: Request, found: seq<Uid>, keys: set<Uid>) {
    found == r.uids || found == Filter(r.uids, keys)
  }

  lemma AnswerSplits(r: Request, found: seq<Uid>)
    requires Answer(r, found)
    ensures Splits(r.uids, found, Missing(r.uids, found))
  {
    var keys :| AnswerFor(r, found, keys);
    PresentSplits(r.uids, found, keys);
  }

  /** Every message asked for that was there is among those done. */
  ghost predicate AskedDone(r: Request, done: seq<Uid>) {
    forall u :: r.Asked(u) ==> u in done
  }

  lemma InPlaceIsFound(r: Request, m: Mailbox, found: seq<Uid>)
    requires AllInPlace(r, m)
    requires found == r.uids || (r.source in m && found == Filter(r.uids, m[r.source].msgs.Keys))
    ensures AskedDone(r, found)
  {
    hide Untouched;
    if r.source in m {
      FilterMembers(r.uids, m[r.source].msgs.Keys);
    }
  }

  /** What `StoreOnce` and `StoreFlags` leave, and say. */
  ghost predicate Stored(r: Request, n: nat, w: World, w1: World, a: Attempt<seq<Uid>>) {
    && UntouchedSince(r, n, w1)
    && (AllInPlace(r, w.mailbox) ==> AllInPlace(r, w1.mailbox))
    && (a.Ok? ==> AllFlagged(w1.mailbox, r.source, a.value) && Answer(r, a.value))
    && (a.Ok? && AllInPlace(r, w.mailbox) ==> AskedDone(r, a.value))
  }

  lemma FlagSent(r: Request, n: nat, w: World, found: seq<Uid>)
    requires UntouchedSince(r, n, w) && forall u :: u in found ==> u in r.uids
    ensures var (w1, reply) := w.Send(Flagged(w.mailbox, r.source, found, true, {DELETED}));
            && UntouchedSince(r, n, w1)
            && (AllInPlace(r, w.mailbox) ==> AllInPlace(r, w1.mailbox))
            && (reply == OK ==> AllFlagged(w1.mailbox, r.source, found))
  {
    hide Untouched;
    hide AllInPlace;
    hide AllFlagged;
    hide Flagged;
    hide AllCopied;
    var after := Flagged(w.mailbox, r.source, found, true, {DELETED});
    if after.Some? {
      FlaggedIsSafe(r, found, w.mailbox, after.value, {DELETED}, true);
      FlaggedFolder(w.mailbox, r.source, found);
      FlaggedAll(w.mailbox, r.source, found);
    }
    SendUntouched(r, n, w, after);
  }

  lemma FlaggedFolder(m: Mailbox, folder: string, found: seq<Uid>)
    requires Flagged(m, folder, found, true, {DELETED}).Some?
    ensures folder in m
  {
  }

  lemma NoneFlaggedYet(m: Mailbox, folder: string)
    ensures AllFlagged(m, folder, [])
  {
  }

  lemma SplitMembers(uids: seq<Uid>, done: seq<Uid>, missing: seq<Uid>)
    requires Splits(uids, done, missing)
    ensures forall u :: u in done ==> u in uids
  {
  }

  lemma StoreOnceUntouched(r: Request, n: nat, w: World)
    requires UntouchedSince(r, n, w)
    ensures var (w1, a) := StoreOnce(w, r.source, r.uids, true, {DELETED});
            Stored(r, n, w, w1, a)
  {
    hide UntouchedSince;
    hide AllInPlace;
    hide AskedDone;
    hide AllFlagged;
    hide Answer;
    hide Splits;
    hide Select;
    hide Flagged;
    hide World.Send;
    SelectUntouched(r, n, w);
    var (w1, found) := Select(w, r.source, r.uids);
    if found.Ok? {
      FoundIsAnswer(r, w.mailbox, found.value);
      AnswerSplits(r, found.value);
      SplitMembers(r.uids, found.value, Missing(r.uids, found.value));
      if AllInPlace(r, w.mailbox) {
        InPlaceIsFound(r, w.mailbox, found.value);
      }
      NoneFlaggedYet(w1.mailbox, r.source);
      FlagSent(r, n, w1, found.value);
    }
  }

  lemma FoundIsAnswer(r: Request, m: Mailbox, found: seq<Uid>)
    requires found == r.uids || (r.source in m && found == Filter(r.uids, m[r.source].msgs.Keys))
    ensures Answer(r, found)
  {
    hide Filter;
    assert AnswerFor(r, found, if r.source in m then m[r.source].msgs.Keys else {});
  }

  lemma StoreFlagsUntouched(r: Request, n: nat, w: World, connected: bool)
    requires UntouchedSince(r, n, w) && r.uids != []
    ensures var (w1, a) := StoreFlags(w, connected, r.source, r.uids, true, {DELETED});
            && UntouchedSince(r, n, w1)
            && (AllInPlace(r, w.mailbox) ==> AllInPlace(r, w1.mailbox))
            && (a.Ok? ==> AllFlagged(w1.mailbox, r.source, a.value.done) && Splits(r.uids, a.value.done, a.value.missing))
            && (a.Ok? && AllInPlace(r, w.mailbox) ==> AskedDone(r, a.value.done))
  {
    hide UntouchedSince;
    hide AllInPlace;
    hide AskedDone;
    hide StoreOnce;
    hide AllFlagged;
    hide Splits;
    hide Answer;
    hide Ready;
    hide Reconnect;
    hide Missing;
    ReadyUntouched(r, n, w, connected, false);
    var (w1, up) := Ready(w, connected, false);
    StoreOnceUntouched(r, n, w1);
    var (w2, a) := StoreOnce(w1, r.source, r.uids, true, {DELETED});
    ReconnectUntouched(r, n, w2);
    var (w3, again) := Reconnect(w2);
    StoreOnceUntouched(r, n, w3);
    var (w4, b) := StoreOnce(w3, r.source, r.uids, true, {DELETED});
    if a.Ok? {
      AnswerSplits(r, a.value);
    }
    if b.Ok? {
      AnswerSplits(r, b.value);
    }
  }

  lemma ReconnectUntouched(r: Request, n: nat, w: World)
    requires UntouchedSince(r, n, w)
    ensures var w1 := Reconnect(w).0;
            UntouchedSince(r, n, w1) && w1.mailbox == w.mailbox && w1.caps == w.caps
  {
    hide Untouched;
    SendUntouched(r, n, w, Some(w.mailbox));
  }

  lemma ExpungeOnceUntouched(r: Request, n: nat, w: World, uids: seq<Uid>)
    requires UntouchedSince(r, n, w) && AllFlagged(w.mailbox, r.source, uids)
    requires uids != [] && forall u :: u in uids ==> u in r.uids
    ensures var (w1, a) := ExpungeOnce(w, r.source, Some(uids), false);
            && UntouchedSince(r, n, w1) && AllFlagged(w1.mailbox, r.source, uids)
            && (a.Ok? ==> a.value == if "UIDPLUS" in w.caps then "uids" else "flagged")
            && (a == Ok("uids") ==> NonePresent(w1.mailbox, r.source, uids))
            && w1.caps == w.caps
            && ("UIDPLUS" !in w.caps ==> w1.mailbox == w.mailbox)
  {
    var after := UidExpunged(w.mailbox, r.source, uids);
    if after.Some? {
      ExpungedIsSafe(r, uids, w.mailbox, after.value);
      assert AllFlagged(after.value, r.source, uids) && NonePresent(after.value, r.source, uids);
    }
    hide Untouched;
    hide AllFlagged;
    hide NonePresent;
    hide UidExpunged;
    hide AllCopied;
    SendUntouched(r, n, w, Opened(w.mailbox, r.source));
    var w1 := w.Send(Opened(w.mailbox, r.source)).0;
    SendUntouched(r, n, w1, after);
  }

  lemma ExpungeUntouched(r: Request, n: nat, w: World, connected: bool, uids: seq<Uid>)
    requires UntouchedSince(r, n, w) && AllFlagged(w.mailbox, r.source, uids)
    requires uids != [] && forall u :: u in uids ==> u in r.uids
    ensures var (w1, a) := Expunge(w, connected, r.source, Some(uids), false);
            && UntouchedSince(r, n, w1) && AllFlagged(w1.mailbox, r.source, uids)
            && (a.Ok? ==> a.value == if "UIDPLUS" in w.caps then "uids" else "flagged")
            && (a == Ok("uids") ==> NonePresent(w1.mailbox, r.source, uids))
            && ("UIDPLUS" !in w.caps ==> w1.mailbox == w.mailbox)
  {
    ReadyUntouched(r, n, w, connected, false);
    var (w1, up) := Ready(w, connected, false);
    ExpungeOnceUntouched(r, n, w1, uids);
    var (w2, a) := ExpungeOnce(w1, r.source, Some(uids), false);
    ReadyUntouched(r, n, w2, false, false);
    var (w3, again) := Reconnect(w2);
    ExpungeOnceUntouched(r, n, w3, uids);
    hide UntouchedSince;
    hide ExpungeOnce;
    hide AllFlagged;
    hide NonePresent;
    hide Reconnect;
  }

  // --- deleting -----------------------------------------------------------------------------

  /** Where the messages go: the Trash, or nowhere (a request needs some target). */
  function TrashOf(l: Lookups, folder: string): string {
    if l.trash.Ok? && l.trash.value.Some? then l.trash.value.value else folder
  }

  predicate ToTrash(l: Lookups) {
    l.trash.Ok? && l.trash.value.Some?
  }

  /** What a deletion that went through has done, and says it has done. `sure` tells that the
      report of a move can be relied on. */
  ghost predicate DeleteDone(r: Request, m: Mailbox, d: Deletion, sure: bool) {
    match d
    case Trashed(o) =>
      && Splits(r.uids, o.done, o.missing) && AskedDone(r, o.done)
      && MoveDone(r, m, o.done, o.how)
      && (sure ==> Truthful(m, r.source, o.done, o.how))
    case Erased(o, scope) =>
      && Splits(r.uids, o.done, o.missing) && AskedDone(r, o.done)
      && (scope == "uids" ==> NonePresent(m, r.source, o.done))
      && (scope == "flagged" ==> AllInPlace(r, m) && AllFlagged(m, r.source, o.done))
      && (scope == "none" ==> AllInPlace(r, m) && o.done == [])
      && scope in {"uids", "flagged", "none"}
  }

  lemma TrashedDone(r: Request, c: Client, quiet: bool)
    requires ValidMailbox(r.start) && c.world.mailbox == r.start && !c.readOnly && r.uids != []
    ensures var (c1, a) := c.Move(quiet, r.source, r.uids, r.target);
            && GoodSince(r, |c.world.trace|, c1.world)
            && (a.Ok? ==> DeleteDone(r, c1.world.mailbox, Trashed(a.value), Reliable(r, c.world)))
  {
    hide GoodSince;
    hide MoveDone;
    hide Move;
    hide Splits;
    hide Truthful;
    hide Reliable;
    assert Request(c.world.mailbox, r.source, r.uids, r.target) == r;
    MoveSafety(c.world, c.connected, quiet, r.source, r.uids, r.target);
    if Reliable(r, c.world) {
      ReliableReport(c.world, c.connected, quiet, r.source, r.uids, r.target);
    }
    var (w1, a) := Move(c.world, c.connected, quiet, r.source, r.uids, r.target);
    if a.Ok? {
      DoneAreAsked(r, w1.mailbox, a.value.done, a.value.how);
    }
  }

  lemma DoneAreAsked(r: Request, m: Mailbox, done: seq<Uid>, how: string)
    requires MoveDone(r, m, done, how)
    ensures AskedDone(r, done)
  {
    AskedArePresent(r, done);
  }

  lemma GoodIsUntouched(r: Request, n: nat, w: World)
    requires GoodSince(r, n, w)
    ensures UntouchedSince(r, n, w)
  {
    hide Untouched;
    hide MoveSafe;
    hide NoClash;
  }

  lemma StartUntouched(r: Request, w: World)
    requires ValidMailbox(r.start) && w.mailbox == r.start
    ensures UntouchedSince(r, |w.trace|, w) && AllInPlace(r, w.mailbox)
  {
    StartIsGood(r);
  }

  /** The expunge that follows the flagging. */
  lemma ExpungeDone(r: Request, n: nat, c: Client, o: Outcome)
    requires UntouchedSince(r, n, c.world) && AllInPlace(r, c.world.mailbox) && !c.readOnly
    requires AllFlagged(c.world.mailbox, r.source, o.done) && Splits(r.uids, o.done, o.missing) && AskedDone(r, o.done)
    ensures var (c1, scope) := c.Expunge(r.source, Some(o.done), false);
            && UntouchedSince(r, n, c1.world)
            && (scope.Ok? ==> DeleteDone(r, c1.world.mailbox, Erased(o, scope.value), true))
  {
    if o.done != [] {
      assert forall u :: u in o.done ==> u in r.uids by { hide UntouchedSince; hide AllInPlace; hide AllFlagged; }
      ExpungeUntouched(r, n, c.world, c.connected, o.done);
    }
    hide UntouchedSince;
    hide AllInPlace;
    hide AllFlagged;
    hide NonePresent;
    hide Splits;
    hide Expunge;
  }

  /** Flag the messages, then expunge those by UID or leave them flagged. */
  lemma EraseSafety(r: Request, c: Client)
    requires ValidMailbox(r.start) && c.world.mailbox == r.start && !c.readOnly && r.uids != []
    ensures var (c1, a) := c.StoreFlags(r.source, r.uids, true, {DELETED});
            && UntouchedSince(r, |c.world.trace|, c1.world)
            && (a.Ok? ==>
                  Splits(r.uids, a.value.done, a.value.missing) && AskedDone(r, a.value.done) &&
                  var (c2, scope) := c1.Expunge(r.source, Some(a.value.done), false);
                  && UntouchedSince(r, |c.world.trace|, c2.world)
                  && (scope.Ok? ==> DeleteDone(r, c2.world.mailbox, Erased(a.value, scope.value), true)))
  {
    var n := |c.world.trace|;
    StartUntouched(r, c.world);
    StoreFlagsUntouched(r, n, c.world, c.connected);
    var (c1, a) := c.StoreFlags(r.source, r.uids, true, {DELETED});
    hide UntouchedSince;
    hide AllInPlace;
    hide AllFlagged;
    hide Splits;
    hide DeleteDone;
    hide StoreFlags;
    if a.Ok? {
      ExpungeDone(r, n, c1, a.value);
    }
    hide Expunge;
  }

  lemma SureOrNot(r: Request, m: Mailbox, d: Deletion, sure: bool)
    requires DeleteDone(r, m, d, true)
    ensures DeleteDone(r, m, d, sure)
  {
  }

  /** In every state from the call on, `delete_messages` has touched no message outside the
      request, flagged deleted or not; on its way to Trash every message asked for is in its
      folder or in Trash (unless a copy made inside Trash takes a requested UID). What it
      reports is so, as far as the report of a move can be relied on. */
  lemma DeleteSafety(c: Client, l: Lookups, folder: string, uids: seq<Uid>, permanent: bool)
    requires ValidMailbox(c.world.mailbox)
    ensures var r := Request(c.world.mailbox, folder, uids, TrashOf(l, folder));
            var (c1, a) := Delete(c, l, folder, uids, permanent);
            && UntouchedSince(r, |c.world.trace|, c1.world)
            && (!permanent && ToTrash(l) ==> GoodSince(r, |c.world.trace|, c1.world))
            && (a.Ok? ==> DeleteDone(r, c1.world.mailbox, a.value, Reliable(r, c.world)))
            && (a.Ok? ==> uids != [] && !c.readOnly && (a.value.Trashed? <==> !permanent && ToTrash(l)))
  {
    hide Good;
    hide Untouched;
    hide AllInPlace;
    hide DeleteDone;
    hide Reliable;
    var n := |c.world.trace|;
    var r := Request(c.world.mailbox, folder, uids, TrashOf(l, folder));
    StartUntouched(r, c.world);
    StartIsGood(r);
    if uids != [] && !c.readOnly {
      if permanent || !ToTrash(l) {
        EraseSafety(r, c);
        var (c1, a) := c.StoreFlags(folder, uids, true, {DELETED});
        if a.Ok? {
          var (c2, scope) := c1.Expunge(folder, Some(a.value.done), false);
          if scope.Ok? {
            SureOrNot(r, c2.world.mailbox, Erased(a.value, scope.value), Reliable(r, c.world));
          }
        }
      } else {
        TrashedDone(r, c, l.quietMove);
        GoodIsUntouched(r, n, c.Move(l.quietMove, folder, uids, r.target).0.world);
      }
    }
    hide GoodSince;
    hide UntouchedSince;
    hide Move;
    hide StoreFlags;
    hide Expunge;
  }

  // --- replacing ----------------------------------------------------------------------------

  /** The same server later on, with no refusals that were not to come before. */
  ghost predicate NoWorse(w: World, w1: World) {
    w1.caps == w.caps && (RefusedNo !in w.fates ==> RefusedNo !in w1.fates)
  }

  /** Every state from `w` to `w1` is one of two. */
  ghost predicate EitherSince(w: World, w1: World, m0: Mailbox, m1: Mailbox) {
    && w.trace <= w1.trace && NoWorse(w, w1)
    && (w1.mailbox == m0 || w1.mailbox == m1)
    && forall i :: |w.trace| <= i < |w1.trace| ==> w1.trace[i] == m0 || w1.trace[i] == m1
  }

  lemma SendEither(w: World, w1: World, m0: Mailbox, m1: Mailbox, after: Option<Mailbox>)
    requires EitherSince(w, w1, m0, m1)
    requires after.Some? ==> after.value == m0 || after.value == m1
    ensures EitherSince(w, w1.Send(after).0, m0, m1)
  {
  }

  lemma FetchReads(w: World, connected: bool, folder: string, uid: Uid)
    ensures var (w1, a) := Fetch(w, connected, folder, uid);
            && EitherSince(w, w1, w.mailbox, w.mailbox)
            && (a.Ok? ==> folder in w.mailbox && uid in w.mailbox[folder].msgs && a.value == w.mailbox[folder].msgs[uid])
  {
    var m := w.mailbox;
    SendEither(w, w, m, m, Some(m));
    var (w1, up) := Ready(w, connected, false);
    FetchOnceReads(w, w1, m, folder, uid);
    var (w2, a) := FetchOnce(w1, folder, uid);
    SendEither(w, w2, m, m, Some(m));
    var (w3, again) := Reconnect(w2);
    FetchOnceReads(w, w3, m, folder, uid);
    hide FetchOnce;
    hide EitherSince;
  }

  lemma FetchOnceReads(w: World, w1: World, m: Mailbox, folder: string, uid: Uid)
    requires EitherSince(w, w1, m, m)
    ensures var (w2, a) := FetchOnce(w1, folder, uid);
            && EitherSince(w, w2, m, m)
            && (a.Ok? ==> folder in m && uid in m[folder].msgs && a.value == m[folder].msgs[uid])
  {
    SendEither(w, w1, m, m, Opened(m, folder));
    var w2 := w1.Send(Opened(m, folder)).0;
    SendEither(w, w2, m, m, Opened(m, folder));
  }

  lemma ReadyEither(w: World, connected: bool, quiet: bool, m1: Mailbox)
    ensures var w1 := Ready(w, connected, quiet).0;
            EitherSince(w, w1, w.mailbox, m1) && w1.mailbox == w.mailbox
  {
    hide NoWorse;
    var m0 := w.mailbox;
    assert EitherSince(w, w, m0, m1) by { SameEither(w, m1); }
    SendEither(w, w, m0, m1, Some(m0));
    var w0 := w.Send(Some(m0)).0;
    SendEither(w, w0, m0, m1, Some(m0));
    hide EitherSince;
  }

  lemma SameEither(w: World, m1: Mailbox)
    ensures EitherSince(w, w, w.mailbox, m1)
  {
  }

  /** `append` adds the message once or not at all; a UID it returns names that message, and
      only a broken link leaves open which it was. */
  lemma AppendSteps(w: World, connected: bool, quiet: bool, folder: string, m: Message)
    ensures var (w1, a) := Append(w, connected, quiet, folder, m);
            var added := Appended(w.mailbox, folder, m);
            && EitherSince(w, w1, w.mailbox, if added.Some? then added.value else w.mailbox)
            && (a.Ok? ==> added == Some(w1.mailbox))
            && (a.Ok? && a.value.Some? ==> folder in w.mailbox && a.value.value == w.mailbox[folder].next)
            && (a.Err? && a.error != LinkLost ==> w1.mailbox == w.mailbox)
  {
    hide Appended;
    hide EitherSince;
    hide Ready;
    var added := Appended(w.mailbox, folder, m);
    var m1 := if added.Some? then added.value else w.mailbox;
    ReadyEither(w, connected, quiet, m1);
    var (w1, up) := Ready(w, connected, quiet);
    SendEither(w, w1, w.mailbox, m1, added);
  }

  /** The revised message is in the target, as a new message. */
  ghost predicate RevisedIn(start: Mailbox, m: Mailbox, target: string, revised: Message) {
    && target in start && target in m
    && exists v :: v in m[target].msgs && v >= start[target].next && m[target].msgs[v] == revised
  }

  /** Nothing else touched; the original is there or its revision is, and when there is a
      Trash to move it to, the original itself is there or in Trash. */
  ghost predicate ReplaceSafe(r: Request, uid: Uid, target: string, revised: Message, m: Mailbox) {
    && Untouched(r, m)
    && (r.Asked(uid) ==> InPlace(r, m, uid) || RevisedIn(r.start, m, target, revised))
    && (r.Asked(uid) && r.target != r.source ==> InPlace(r, m, uid) || HasCopy(r, m, uid))
  }

  ghost predicate ReplaceSafeFrom(n: nat, w: World, r: Request, uid: Uid, target: string, revised: Message) {
    && n <= |w.trace|
    && ReplaceSafe(r, uid, target, revised, w.mailbox)
    && forall i :: n <= i < |w.trace| ==> ReplaceSafe(r, uid, target, revised, w.trace[i])
  }

  /** Whatever discarding does to the mailbox it starts from. */
  ghost predicate Discarding(r: Request, m: Mailbox) {
    Untouched(r, m) && (r.target != r.source ==> MoveSafe(r, m))
  }

  ghost predicate DiscardingSince(r: Request, n: nat, w: World) {
    && n <= |w.trace|
    && Discarding(r, w.mailbox)
    && forall i :: n <= i < |w.trace| ==> Discarding(r, w.trace[i])
  }

  lemma GoodIsDiscarding(r: Request, n: nat, w: World)
    requires GoodSince(r, n, w) && r.target != r.source
    ensures DiscardingSince(r, n, w)
  {
    assert NoClash(r);
    hide Untouched;
    hide MoveSafe;
    hide NoClash;
  }

  lemma UntouchedIsDiscarding(r: Request, n: nat, w: World)
    requires UntouchedSince(r, n, w) && r.target == r.source
    ensures DiscardingSince(r, n, w)
  {
    hide Untouched;
  }

  lemma OnlyOne(uid: Uid, done: seq<Uid>, missing: seq<Uid>)
    requires Splits([uid], done, missing) && done != []
    ensures done == [uid]
  {
    assert |multiset(done)| + |multiset(missing)| == |multiset([uid])| == 1;
    assert done[0] in done;
  }

  lemma DiscardSafety(c: Client, l: Lookups, folder: string, uid: Uid)
    requires ValidMailbox(c.world.mailbox) && !c.readOnly
    ensures var r := Request(c.world.mailbox, folder, [uid], TrashOf(l, folder));
            DiscardingSince(r, |c.world.trace|, Discard(c, l, folder, uid).0.world)
  {
    var r := Request(c.world.mailbox, folder, [uid], TrashOf(l, folder));
    var n := |c.world.trace|;
    var m := Move(c.world, c.connected, l.quietMove, folder, [uid], r.target).0;
    if r.target != folder {
      MoveSafety(c.world, c.connected, l.quietMove, folder, [uid], r.target);
      GoodIsDiscarding(r, n, m);
    } else {
      StartUntouched(r, c.world);
      UntouchedIsDiscarding(r, n, c.world);
      EraseSafety(r, c);
      var (c1, a) := c.StoreFlags(folder, [uid], true, {DELETED});
      UntouchedIsDiscarding(r, n, c1.world);
      if a.Ok? && a.value.done != [] {
        UntouchedIsDiscarding(r, n, c1.Expunge(folder, Some(a.value.done), false).0.world);
        OnlyOne(uid, a.value.done, a.value.missing);
      }
    }
    hide DiscardingSince;
    hide UntouchedSince;
    hide GoodSince;
    hide Move;
    hide StoreFlags;
    hide Expunge;
    hide MoveDone;
    hide DeleteDone;
    hide AllInPlace;
    hide Splits;
  }

  /** What a discard that went through says became of the message is so: a message there was
      is never "already gone", and one "moved to Trash" has left, or is as it was because
      flagging it was refused (`sure` rules that out). */
  ghost predicate Told(r: Request, uid: Uid, m: Mailbox, p: Previous, sure: bool) {
    r.Asked(uid) ==>
      match p
      case MovedToTrash => HasCopy(r, m, uid) && Left(r, m, uid, sure)
      case CopiedAndFlagged => InPlace(r, m, uid) && HasCopy(r, m, uid) && (sure ==> DELETED in m[r.source].msgs[uid].flags)
      case FlaggedDeleted => InPlace(r, m, uid) && DELETED in m[r.source].msgs[uid].flags
      case Deleted => r.source in m && uid !in m[r.source].msgs
      case AlreadyGone => false
      case _ => true
  }

  ghost predicate Left(r: Request, m: Mailbox, uid: Uid, sure: bool) {
    r.source in m && uid in m[r.source].msgs ==> !sure && DELETED !in m[r.source].msgs[uid].flags
  }

  lemma MoveTold(r: Request, uid: Uid, m: Mailbox, o: Outcome, sure: bool)
    requires DeleteDone(r, m, Trashed(o), sure) && r.target != r.source && r.uids == [uid]
    requires o.how in {"moved", "uids", "flagged"}
    ensures Told(r, uid, m, if o.done == [] then AlreadyGone else if o.how == "flagged" then CopiedAndFlagged else MovedToTrash, sure)
  {
    assert NoClash(r);
    hide Untouched;
    hide NewUid;
    hide Splits;
    if r.Asked(uid) {
      assert uid in o.done;
      var v :| CopyAt(r, m, uid, v) && NewUid(r, v);
      assert HasCopy(r, m, uid);
    }
  }

  lemma EraseTold(r: Request, uid: Uid, m: Mailbox, o: Outcome, scope: string, sure: bool)
    requires DeleteDone(r, m, Erased(o, scope), true) && o.done == [uid]
    ensures Told(r, uid, m, if scope == "flagged" then FlaggedDeleted else Deleted, sure)
  {
    hide Untouched;
    hide Splits;
  }

  lemma DiscardTells(c: Client, l: Lookups, folder: string, uid: Uid)
    requires ValidMailbox(c.world.mailbox) && !c.readOnly
    ensures var r := Request(c.world.mailbox, folder, [uid], TrashOf(l, folder));
            var (c1, a) := Discard(c, l, folder, uid);
            a.Ok? ==> Told(r, uid, c1.world.mailbox, a.value, Reliable(r, c.world))
  {
    hide Told;
    hide DeleteDone;
    hide Reliable;
    hide Move;
    hide StoreFlags;
    hide Expunge;
    hide GoodSince;
    hide UntouchedSince;
    hide Splits;
    hide AskedDone;
    var r := Request(c.world.mailbox, folder, [uid], TrashOf(l, folder));
    var sure := Reliable(r, c.world);
    if r.target != folder {
      TrashedDone(r, c, l.quietMove);
      MoveTakesEffect(c.world, c.connected, l.quietMove, folder, [uid], r.target);
      hide CopyReport;
      var (c1, a) := c.Move(l.quietMove, folder, [uid], r.target);
      if a.Ok? {
        MoveTold(r, uid, c1.world.mailbox, a.value, sure);
      }
    } else {
      EraseSafety(r, c);
      var (c1, a) := c.StoreFlags(folder, [uid], true, {DELETED});
      if a.Ok? {
        if a.value.done == [] {
          NotThere(r, uid, c1.world.mailbox, sure);
        } else {
          OnlyOne(uid, a.value.done, a.value.missing);
          var (c2, scope) := c1.Expunge(folder, Some([uid]), false);
          if scope.Ok? {
            EraseTold(r, uid, c2.world.mailbox, a.value, scope.value, sure);
          }
        }
      }
    }
  }

  lemma NotThere(r: Request, uid: Uid, m: Mailbox, sure: bool)
    requires AskedDone(r, [])
    ensures Told(r, uid, m, AlreadyGone, sure)
  {
    assert !r.Asked(uid);
  }

  // --- the whole replacement ------------------------------------------------------------------

  /** The mailbox the revised message has been added to, as discarding finds it. */
  ghost predicate Added(r: Request, uid: Uid, target: string, revised: Message, r1: Request) {
    && ValidMailbox(r.start) && r.Asked(uid) && target in r.start && r.uids == [uid]
    && r1 == r.(start := r.start[target := r.start[target].Add(revised)])
  }

  lemma AddedValid(r: Request, uid: Uid, target: string, revised: Message, r1: Request)
    requires Added(r, uid, target, revised, r1)
    ensures ValidMailbox(r1.start) && Arrived(r, r1.start, target, revised)
  {
    assert r1.start[target].msgs[r.start[target].next] == revised;
  }

  lemma AddedInPlace(r: Request, uid: Uid, target: string, revised: Message, r1: Request)
    requires Added(r, uid, target, revised, r1) && ValidMailbox(r1.start)
    ensures AllInPlace(r, r1.start)
  {
  }

  lemma InPlaceIsSafe(r: Request, uid: Uid, target: string, revised: Message, m: Mailbox)
    requires AllInPlace(r, m)
    ensures ReplaceSafe(r, uid, target, revised, m)
  {
    hide Untouched;
    hide InPlace;
  }

  lemma AddedSafe(r: Request, uid: Uid, target: string, revised: Message, r1: Request)
    requires Added(r, uid, target, revised, r1)
    ensures ReplaceSafe(r, uid, target, revised, r1.start)
    ensures ValidMailbox(r1.start) && AllInPlace(r, r1.start)
    ensures Arrived(r, r1.start, target, revised)
  {
    hide *;
    AddedValid(r, uid, target, revised, r1);
    AddedInPlace(r, uid, target, revised, r1);
    InPlaceIsSafe(r, uid, target, revised, r1.start);
  }

  /** The revised message is the first new one of the target. */
  predicate Arrived(r: Request, m: Mailbox, target: string, revised: Message) {
    && target in r.start && target in m
    && r.start[target].next in m[target].msgs
    && m[target].msgs[r.start[target].next] == revised
  }

  lemma DiscardingUntouched(r: Request, uid: Uid, target: string, revised: Message, r1: Request, m: Mailbox)
    requires Added(r, uid, target, revised, r1) && Untouched(r1, m)
    ensures Untouched(r, m) && Arrived(r, m, target, revised)
  {
    assert r1.start[target].msgs[r.start[target].next] == revised;
    forall f | f in r.start
      ensures f in m && m[f].next >= r.start[f].next
      ensures forall u :: u in r.start[f].msgs && !(f == r.source && u in r.uids) ==>
                u in m[f].msgs && m[f].msgs[u] == r.start[f].msgs[u]
    {
      assert f in r1.start && r1.start[f].next >= r.start[f].next;
    }
  }

  lemma DiscardingCopy(r: Request, uid: Uid, target: string, revised: Message, r1: Request, m: Mailbox)
    requires Added(r, uid, target, revised, r1)
    ensures r1.Asked(uid)
    ensures InPlace(r1, m, uid) ==> InPlace(r, m, uid)
    ensures HasCopy(r1, m, uid) ==> HasCopy(r, m, uid)
  {
    assert r1.Asked(uid);
    if HasCopy(r1, m, uid) {
      var v :| v in m[r.target].msgs && CopyAt(r1, m, uid, v);
      assert CopyAt(r, m, uid, v);
    }
  }

  lemma ArrivedIsIn(r: Request, m: Mailbox, target: string, revised: Message)
    requires Arrived(r, m, target, revised)
    ensures RevisedIn(r.start, m, target, revised)
  {
  }

  lemma DiscardingSafe(r: Request, uid: Uid, target: string, revised: Message, r1: Request, m: Mailbox)
    requires Added(r, uid, target, revised, r1) && Discarding(r1, m)
    ensures ReplaceSafe(r, uid, target, revised, m) && Arrived(r, m, target, revised)
  {
    hide Untouched;
    hide InPlace;
    hide HasCopy;
    hide Arrived;
    hide RevisedIn;
    DiscardingUntouched(r, uid, target, revised, r1, m);
    DiscardingCopy(r, uid, target, revised, r1, m);
    ArrivedIsIn(r, m, target, revised);
  }

  lemma StartSafe(r: Request, uid: Uid, target: string, revised: Message)
    requires ValidMailbox(r.start)
    ensures ReplaceSafe(r, uid, target, revised, r.start)
  {
  }

  lemma EitherSafe(n: nat, w: World, w1: World, r: Request, uid: Uid, target: string, revised: Message, m0: Mailbox, m1: Mailbox)
    requires ReplaceSafeFrom(n, w, r, uid, target, revised) && EitherSince(w, w1, m0, m1)
    requires ReplaceSafe(r, uid, target, revised, m0) && ReplaceSafe(r, uid, target, revised, m1)
    ensures ReplaceSafeFrom(n, w1, r, uid, target, revised)
  {
    hide ReplaceSafe;
    forall i | n <= i < |w1.trace|
      ensures ReplaceSafe(r, uid, target, revised, w1.trace[i])
    {
      if i < |w.trace| {
        assert w1.trace[i] == w.trace[i];
      }
    }
  }

  lemma DiscardedSafe(n: nat, w: World, w1: World, r: Request, uid: Uid, target: string, revised: Message, r1: Request)
    requires ReplaceSafeFrom(n, w, r, uid, target, revised) && w.trace <= w1.trace
    requires Added(r, uid, target, revised, r1) && DiscardingSince(r1, |w.trace|, w1)
    ensures ReplaceSafeFrom(n, w1, r, uid, target, revised) && Arrived(r, w1.mailbox, target, revised)
  {
    hide Discarding;
    hide Added;
    hide Arrived;
    DiscardingSafe(r, uid, target, revised, r1, w1.mailbox);
    forall i | n <= i < |w1.trace|
      ensures ReplaceSafe(r, uid, target, revised, w1.trace[i])
    {
      if i < |w.trace| {
        assert w1.trace[i] == w.trace[i];
      } else {
        DiscardingSafe(r, uid, target, revised, r1, w1.trace[i]);
      }
    }
    hide ReplaceSafe;
  }

  lemma DiscardExtends(c: Client, l: Lookups, folder: string, uid: Uid)
    ensures c.world.trace <= Discard(c, l, folder, uid).0.world.trace
  {
    hide Move;
    hide StoreFlags;
    hide Expunge;
  }

  /** What a replacement tells its caller: an error is an original left as it was; a success
      is a revised message in the target, with the UID returned if one is, and an original
      kept, or become what the result says. */
  ghost predicate ReplaceDone(r: Request, uid: Uid, target: string, revised: Message, keep: bool,
                              m: Mailbox, a: Attempt<Replacement>, sure: bool) {
    match a
    case Err(_) => AllInPlace(r, m)
    case Ok(done) =>
      && r.Asked(uid) && Arrived(r, m, target, revised)
      && (done.newUid.Some? ==> done.newUid.value == r.start[target].next)
      && (keep ==> done.previous == Kept && AllInPlace(r, m))
      && (!keep ==> ToldFrom(r, uid, target, revised, m, done.previous, sure))
  }

  ghost predicate ToldFrom(r: Request, uid: Uid, target: string, revised: Message, m: Mailbox, p: Previous, sure: bool) {
    exists r1 :: Added(r, uid, target, revised, r1) && Told(r1, uid, m, p, sure)
  }

  function Revised(r: Request, uid: Uid, revise: Message -> Message): Message {
    if r.Asked(uid) then revise(r.start[r.source].msgs[uid]) else Message("", {})
  }

  /** Discarding the original once the revised message is in. */
  lemma DiscardAfter(n: nat, c: Client, l: Lookups, r: Request, uid: Uid, target: string, revised: Message, r1: Request)
    requires ReplaceSafeFrom(n, c.world, r, uid, target, revised) && !c.readOnly
    requires Added(r, uid, target, revised, r1) && c.world.mailbox == r1.start && r.target == TrashOf(l, r.source)
    ensures var (c1, a) := Discard(c, l, r.source, uid);
            && ReplaceSafeFrom(n, c1.world, r, uid, target, revised)
            && Arrived(r, c1.world.mailbox, target, revised)
            && ToldFrom(r, uid, target, revised, c1.world.mailbox, if a.Ok? then a.value else NotRemoved(a.error), Reliable(r1, c.world))
  {
    hide ReplaceSafeFrom;
    hide DiscardingSince;
    hide Arrived;
    hide Discard;
    hide Told;
    hide Reliable;
    AddedSafe(r, uid, target, revised, r1);
    AddedIs(r, uid, target, revised, r1);
    hide Added;
    DiscardSafety(c, l, r.source, uid);
    DiscardTells(c, l, r.source, uid);
    DiscardExtends(c, l, r.source, uid);
    var (c1, a) := Discard(c, l, r.source, uid);
    DiscardedSafe(n, c.world, c1.world, r, uid, target, revised, r1);
    var p := if a.Ok? then a.value else NotRemoved(a.error);
    assert Told(r1, uid, c1.world.mailbox, p, Reliable(r1, c.world)) by {
      NotRemovedTold(r1, uid, c1.world.mailbox, p, Reliable(r1, c.world));
    }
  }

  lemma NotRemovedTold(r: Request, uid: Uid, m: Mailbox, p: Previous, sure: bool)
    ensures p.NotRemoved? ==> Told(r, uid, m, p, sure)
  {
  }

  lemma AddedIs(r: Request, uid: Uid, target: string, revised: Message, r1: Request)
    requires Added(r, uid, target, revised, r1)
    ensures r1 == Request(r1.start, r.source, [uid], r.target)
  {
  }

  lemma ReliableAfter(r: Request, uid: Uid, target: string, revised: Message, r1: Request, w: World, w1: World)
    requires Added(r, uid, target, revised, r1) && NoWorse(w, w1) && Reliable(r, w)
    ensures Reliable(r1, w1)
  {
  }

  lemma ToldLess(r: Request, uid: Uid, target: string, revised: Message, m: Mailbox, p: Previous, less: bool, more: bool)
    requires ToldFrom(r, uid, target, revised, m, p, more) && (less ==> more)
    ensures ToldFrom(r, uid, target, revised, m, p, less)
  {
    hide Added;
    hide InPlace;
    hide HasCopy;
    var r1 :| Added(r, uid, target, revised, r1) && Told(r1, uid, m, p, more);
    assert Told(r1, uid, m, p, less);
  }

  /** Fetching and adding the revised message, which leave the original where it is. */
  lemma AddedStep(n: nat, c: Client, r: Request, uid: Uid, target: string, revised: Message, quiet: bool, r1: Request)
    requires ReplaceSafeFrom(n, c.world, r, uid, target, revised) && !c.readOnly
    requires ValidMailbox(r.start) && c.world.mailbox == r.start && r.Asked(uid) && r.uids == [uid]
    requires target in r.start ==> Added(r, uid, target, revised, r1)
    ensures var (c1, a) := c.Append(quiet, target, revised);
            && ReplaceSafeFrom(n, c1.world, r, uid, target, revised)
            && AllInPlace(r, c1.world.mailbox)
            && NoWorse(c.world, c1.world)
            && (a.Ok? ==> target in r.start && c1.world.mailbox == r1.start && !c1.readOnly)
            && (a.Ok? && a.value.Some? ==> a.value.value == r.start[target].next)
            && (a.Ok? ==> Arrived(r, c1.world.mailbox, target, revised))
  {
    StartIsGood(r);
    StartSafe(r, uid, target, revised);
    AppendSteps(c.world, c.connected, quiet, target, revised);
    var w1 := c.Append(quiet, target, revised).0.world;
    if target in r.start {
      AddedSafe(r, uid, target, revised, r1);
      EitherSafe(n, c.world, w1, r, uid, target, revised, r.start, r1.start);
    } else {
      EitherSafe(n, c.world, w1, r, uid, target, revised, r.start, r.start);
    }
    hide Append;
    hide ReplaceSafe;
    hide AllInPlace;
    hide Arrived;
    hide ReplaceSafeFrom;
  }

  lemma FetchStep(n: nat, c: Client, r: Request, uid: Uid, target: string, revised: Message)
    requires ReplaceSafeFrom(n, c.world, r, uid, target, revised) && ValidMailbox(r.start) && c.world.mailbox == r.start
    ensures var (c1, a) := c.Fetch(r.source, uid);
            && ReplaceSafeFrom(n, c1.world, r, uid, target, revised)
            && c1.world.mailbox == r.start && c1.readOnly == c.readOnly && NoWorse(c.world, c1.world)
            && (a.Ok? ==> r.source in r.start && uid in r.start[r.source].msgs && a.value == r.start[r.source].msgs[uid])
  {
    StartSafe(r, uid, target, revised);
    FetchReads(c.world, c.connected, r.source, uid);
    EitherSafe(n, c.world, c.Fetch(r.source, uid).0.world, r, uid, target, revised, r.start, r.start);
    hide Fetch;
    hide ReplaceSafe;
    hide ReplaceSafeFrom;
  }

  /** Discarding, as the whole call sees it. */
  lemma DiscardStep(n: nat, w: World, c: Client, l: Lookups, r: Request, uid: Uid, target: string, revised: Message, r1: Request)
    requires ReplaceSafeFrom(n, c.world, r, uid, target, revised) && !c.readOnly && NoWorse(w, c.world)
    requires Added(r, uid, target, revised, r1) && c.world.mailbox == r1.start && r.target == TrashOf(l, r.source)
    ensures var (c1, a) := Discard(c, l, r.source, uid);
            && ReplaceSafeFrom(n, c1.world, r, uid, target, revised)
            && Arrived(r, c1.world.mailbox, target, revised)
            && ToldFrom(r, uid, target, revised, c1.world.mailbox, if a.Ok? then a.value else NotRemoved(a.error), Reliable(r, w))
  {
    hide ReplaceSafeFrom;
    hide Added;
    hide Arrived;
    hide Discard;
    hide ToldFrom;
    hide Reliable;
    hide NoWorse;
    DiscardAfter(n, c, l, r, uid, target, revised, r1);
    var (c1, a) := Discard(c, l, r.source, uid);
    if Reliable(r, w) {
      ReliableAfter(r, uid, target, revised, r1, w, c.world);
    }
    ToldLess(r, uid, target, revised, c1.world.mailbox, if a.Ok? then a.value else NotRemoved(a.error), Reliable(r, w), Reliable(r1, c.world));
  }

  lemma NoWorseTrans(w: World, w1: World, w2: World)
    requires NoWorse(w, w1) && NoWorse(w1, w2)
    ensures NoWorse(w, w2)
  {
  }

  /** For every capability set, folder content and fate of each command: in every state from
      the call on, `edit_message` and `update_draft` have touched no message but the one they
      replace, and the original or its revision is there; and what they report is so. */
  lemma ReplaceSafety(c: Client, l: Lookups, folder: string, uid: Uid, target: Option<string>,
                      revise: Message -> Message, keep: bool)
    requires ValidMailbox(c.world.mailbox)
    ensures var r := Request(c.world.mailbox, folder, [uid], TrashOf(l, folder));
            var t := if target.Some? then target.value else folder;
            var revised := Revised(r, uid, revise);
            var (c1, a) := Replace(c, l, folder, uid, target, revise, keep);
            && ReplaceSafeFrom(|c.world.trace|, c1.world, r, uid, t, revised)
            && ReplaceDone(r, uid, t, revised, keep, c1.world.mailbox, a, Reliable(r, c.world))
  {
    hide Discard;
    hide ToldFrom;
    hide Arrived;
    hide ReplaceSafe;
    hide AllInPlace;
    hide Reliable;
    hide NoWorse;
    var n := |c.world.trace|;
    var r := Request(c.world.mailbox, folder, [uid], TrashOf(l, folder));
    var t := if target.Some? then target.value else folder;
    var revised := Revised(r, uid, revise);
    StartSafe(r, uid, t, revised);
    StartIsGood(r);
    assert ReplaceSafeFrom(n, c.world, r, uid, t, revised);
    hide ReplaceSafeFrom;
    if !c.readOnly {
      FetchStep(n, c, r, uid, t, revised);
      var (c1, original) := c.Fetch(folder, uid);
      if original.Ok? && target.Some? {
        assert revised == revise(original.value);
        var r1 := if t in r.start then r.(start := r.start[t := r.start[t].Add(revised)]) else r;
        AddedStep(n, c1, r, uid, t, revised, l.quietAppend, r1);
        var (c2, added) := c1.Append(l.quietAppend, t, revised);
        if added.Ok? && !keep {
          NoWorseTrans(c.world, c1.world, c2.world);
          DiscardStep(n, c.world, c2, l, r, uid, t, revised, r1);
        }
      }
    }
  }
}
