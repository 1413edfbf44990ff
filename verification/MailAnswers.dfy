/** What the tools answer when every command they send is answered: for each request and each
    set of capabilities, the one result there is.
  */
module MailAnswers {
  import opened Prelude
  import opened ImapServer
  import opened ImapCommands
  import opened ImapRetry
  import opened ImapReports
  import opened ImapOutcomes
  import opened ImapClient
  import MT = MailTools

  ghost predicate StaysCalm(w: World, w1: World) {
    Calm(w1) && w1.caps == w.caps
  }

  // --- the calls, one after another --------------------------------------------------------

  lemma StoreOnceCalm(w: World, folder: string, uids: seq<Uid>, add: bool, flags: set<string>)
    requires Calm(w)
    ensures StaysCalm(w, StoreOnce(w, folder, uids, add, flags).0)
  {
    SelectCalm(w, folder, uids);
    var (w1, found) := Select(w, folder, uids);
    hide Select, Flagged, Calm;
    if found.Ok? {
      SendCalm(w1, Flagged(w1.mailbox, folder, found.value, add, flags));
    }
  }

  lemma ExpungeOnceCalm(w: World, folder: string, uids: Option<seq<Uid>>, folderWide: bool)
    requires Calm(w)
    ensures StaysCalm(w, ExpungeOnce(w, folder, uids, folderWide).0)
  {
    SendCalm(w, Opened(w.mailbox, folder));
    var w1 := w.Send(Opened(w.mailbox, folder)).0;
    var targeted := uids.Some? && uids.value != [] && "UIDPLUS" in w.caps;
    SendCalm(w1, if targeted then UidExpunged(w1.mailbox, folder, uids.value) else Expunged(w1.mailbox, folder));
    hide Calm, UidExpunged, Expunged, World.Send;
  }

  lemma FetchOnceCalm(w: World, folder: string, uid: Uid)
    requires Calm(w)
    ensures StaysCalm(w, FetchOnce(w, folder, uid).0)
  {
    SendCalm(w, Opened(w.mailbox, folder));
    var w1 := w.Send(Opened(w.mailbox, folder)).0;
    SendCalm(w1, Opened(w1.mailbox, folder));
    hide Calm, World.Send;
  }

  lemma CalmIsLinkOnly(w: World, connected: bool)
    requires Calm(w)
    ensures LinkOnly(w) && Cuts(w.fates) <= 1 && !NoConnection(w, connected)
  {
  }

  /** A call that may be retried is not, and stays calm. */
  lemma RetryingCalm<T(!new)>(w: World, connected: bool, once: World -> (World, Attempt<T>))
    requires Calm(w)
    requires forall v {:trigger once(v)} :: Calm(v) ==> StaysCalm(v, once(v).0) && once(v).1 != Err(LinkLost)
    ensures StaysCalm(w, Retrying(w, connected, once).0)
  {
    hide Calm, World.Send;
    ReadyCalm(w, connected, false);
  }

  /** `store_flags`. */
  lemma StoreCalm(c: Client, folder: string, uids: seq<Uid>)
    requires Calm(c.world) && !c.readOnly && uids != []
    ensures var (c1, a) := c.StoreFlags(folder, uids, true, {DELETED});
            && StaysCalm(c.world, c1.world) && !c1.readOnly
            && c1.world.mailbox == ImapRetry.Stored(c.world.mailbox, folder, uids, true, {DELETED})
            && a == Reported(uids, Found(c.world.mailbox, folder, uids))
  {
    var w := c.world;
    CalmIsLinkOnly(w, c.connected);
    StoreFlagsHidesRetry(w, c.connected, folder, uids, true, {DELETED});
    var once := v => StoreOnce(v, folder, uids, true, {DELETED});
    forall v {:trigger once(v)} | Calm(v) ensures StaysCalm(v, once(v).0) && once(v).1 != Err(LinkLost) {
      StoreOnceCalm(v, folder, uids, true, {DELETED});
      NeverLost(v, folder, uids);
    }
    hide StoreOnce, Calm, ImapRetry.Stored, Retrying, Reported, Found;
    RetryingCalm(w, c.connected, once);
  }

  lemma NeverLost(w: World, folder: string, uids: seq<Uid>)
    requires Calm(w)
    ensures StoreOnce(w, folder, uids, true, {DELETED}).1 != Err(LinkLost)
  {
    StoreWithin(w, folder, uids, true, {DELETED});
    hide StoreOnce;
  }

  /** `expunge` of messages by UID, as the tools ask for it. */
  lemma ExpungeCalm(c: Client, folder: string, uids: seq<Uid>)
    requires Calm(c.world) && !c.readOnly && uids != []
    ensures var (c1, a) := c.Expunge(folder, Some(uids), false);
            a == if "UIDPLUS" !in c.world.caps then Ok("flagged") else if folder in c.world.mailbox then Ok("uids") else Err(CannotOpen)
  {
    var w := c.world;
    CalmIsLinkOnly(w, c.connected);
    ExpungeHidesRetry(w, c.connected, folder, Some(uids), false);
    hide Calm, Expunge, Emptied;
  }

  lemma FetchCalm(c: Client, folder: string, uid: Uid)
    requires Calm(c.world)
    ensures var (c1, a) := c.Fetch(folder, uid);
            && StaysCalm(c.world, c1.world) && c1.readOnly == c.readOnly
            && c1.world.mailbox == c.world.mailbox && a == Fetched(c.world.mailbox, folder, uid)
  {
    var w := c.world;
    CalmIsLinkOnly(w, c.connected);
    FetchHidesRetry(w, c.connected, folder, uid);
    var once := v => FetchOnce(v, folder, uid);
    forall v {:trigger once(v)} | Calm(v) ensures StaysCalm(v, once(v).0) && once(v).1 != Err(LinkLost) {
      FetchOnceCalm(v, folder, uid);
      FetchWithin(v, folder, uid);
    }
    hide FetchOnce, Calm, Retrying, Fetched;
    RetryingCalm(w, c.connected, once);
  }

  lemma AppendCalm(c: Client, quiet: bool, folder: string, m: Message)
    requires Calm(c.world) && !c.readOnly
    ensures var (c1, a) := c.Append(quiet, folder, m);
            && StaysCalm(c.world, c1.world) && !c1.readOnly
            && (if folder !in c.world.mailbox then a == Err(Refused) && c1.world.mailbox == c.world.mailbox
                else
                  && a == Ok(if "UIDPLUS" in c.world.caps then Some(c.world.mailbox[folder].next) else None)
                  && c1.world.mailbox == c.world.mailbox[folder := c.world.mailbox[folder].Add(m)])
  {
    var w := c.world;
    AppendAnswers(w, c.connected, quiet, folder, m);
    ReadyCalm(w, c.connected, quiet);
    var w1 := Ready(w, c.connected, quiet).0;
    SendCalm(w1, Appended(w1.mailbox, folder, m));
    hide Calm, Ready, World.Send;
  }

  lemma StoredFolders(m: Mailbox, folder: string, uids: seq<Uid>)
    ensures folder in ImapRetry.Stored(m, folder, uids, true, {DELETED}) <==> folder in m
  {
  }

  // --- deleting ---------------------------------------------------------------------------

  /** What is left to say of the messages found, once they are flagged. */
  function ErasedAs(caps: set<string>, done: seq<Uid>): string {
    if done == [] then "none" else if "UIDPLUS" in caps then "uids" else "flagged"
  }

  /** The answer of `delete_messages` for a mailbox `m`. */
  function DeleteResult(caps: set<string>, m: Mailbox, l: MT.Lookups, folder: string, uids: seq<Uid>, permanent: bool)
    : Attempt<MT.Deletion>
  {
    if uids == [] then Err(NotFound)
    else if !permanent && l.trash.Err? then Err(l.trash.error)
    else if !permanent && l.trash.value.Some? then
      var moved := Moved(caps, m, folder, uids, l.trash.value.value);
      if moved.Err? then Err(moved.error) else Ok(MT.Trashed(moved.value))
    else if folder !in m then Err(CannotOpen)
    else
      var done := Filter(uids, m[folder].msgs.Keys);
      Ok(MT.Erased(Outcome(done, Missing(uids, done), ""), ErasedAs(caps, done)))
  }

  lemma EraseAnswers(c: Client, folder: string, uids: seq<Uid>)
    requires Calm(c.world) && !c.readOnly && uids != []
    ensures var (c1, a) := c.StoreFlags(folder, uids, true, {DELETED});
            if folder !in c.world.mailbox then a == Err(CannotOpen)
            else
              var done := Filter(uids, c.world.mailbox[folder].msgs.Keys);
              && a == Ok(Outcome(done, Missing(uids, done), ""))
              && c1.Expunge(folder, Some(done), false).1 == Ok(ErasedAs(c.world.caps, done))
  {
    StoreCalm(c, folder, uids);
    StoredFolders(c.world.mailbox, folder, uids);
    var (c1, a) := c.StoreFlags(folder, uids, true, {DELETED});
    hide Calm, StoreFlags, Expunge, ImapRetry.Stored, Filter, Missing;
    if folder in c.world.mailbox {
      var done := Filter(uids, c.world.mailbox[folder].msgs.Keys);
      if done != [] {
        ExpungeCalm(c1, folder, done);
      }
    }
  }

  /** With every command answered, `delete_messages` answers exactly this. */
  lemma DeleteAnswers(c: Client, l: MT.Lookups, folder: string, uids: seq<Uid>, permanent: bool)
    requires Calm(c.world) && !c.readOnly
    ensures MT.Delete(c, l, folder, uids, permanent).1 == DeleteResult(c.world.caps, c.world.mailbox, l, folder, uids, permanent)
  {
    hide Calm, StoreFlags, Move, Expunge, Filter, Missing, Moved;
    if uids != [] {
      EraseAnswers(c, folder, uids);
      if l.trash.Ok? && l.trash.value.Some? {
        MoveAnswers(c.world, c.connected, l.quietMove, folder, uids, l.trash.value.value);
      }
    }
  }

  // --- discarding and replacing -------------------------------------------------------------

  /** What becomes of a message that is there. */
  function Discarded(caps: set<string>, m: Mailbox, l: MT.Lookups, folder: string): Attempt<MT.Previous> {
    if l.trash.Err? then Err(l.trash.error)
    else if l.trash.value.Some? && l.trash.value.value != folder then
      if l.trash.value.value !in m then Err(Refused)
      else if Way(caps) == "flagged" then Ok(MT.CopiedAndFlagged)
      else Ok(MT.MovedToTrash)
    else if "UIDPLUS" in caps then Ok(MT.Deleted)
    else Ok(MT.FlaggedDeleted)
  }

  lemma OneFound(uid: Uid, keys: set<Uid>)
    requires uid in keys
    ensures Filter([uid], keys) == [uid] && Missing([uid], [uid]) == []
  {
    assert [uid][..0] == [];
    assert Filter([], keys) == [] && Missing([], [uid]) == [];
    assert [] + [uid] == [uid];
  }

  lemma TrashAnswers(c: Client, quiet: bool, folder: string, uid: Uid, trash: string)
    requires Calm(c.world) && !c.readOnly
    requires folder in c.world.mailbox && uid in c.world.mailbox[folder].msgs
    ensures c.Move(quiet, folder, [uid], trash).1 ==
            if trash in c.world.mailbox then Ok(Outcome([uid], [], Way(c.world.caps))) else Err(Refused)
  {
    OneFound(uid, c.world.mailbox[folder].msgs.Keys);
    hide Calm, Move, Filter, Missing;
    MoveAnswers(c.world, c.connected, quiet, folder, [uid], trash);
  }

  lemma DiscardAnswers(c: Client, l: MT.Lookups, folder: string, uid: Uid)
    requires Calm(c.world) && !c.readOnly
    requires folder in c.world.mailbox && uid in c.world.mailbox[folder].msgs
    ensures MT.Discard(c, l, folder, uid).1 == Discarded(c.world.caps, c.world.mailbox, l, folder)
  {
    hide Calm, Client.StoreFlags, Client.Move, Client.Expunge, Filter, Missing;
    if l.trash.Ok? && l.trash.value.Some? && l.trash.value.value != folder {
      TrashAnswers(c, l.quietMove, folder, uid, l.trash.value.value);
    } else {
      OneFound(uid, c.world.mailbox[folder].msgs.Keys);
      EraseAnswers(c, folder, [uid]);
    }
  }

  /** The answer of `edit_message` and `update_draft` for a mailbox `m`. */
  function ReplaceResult(caps: set<string>, m: Mailbox, l: MT.Lookups, folder: string, uid: Uid, target: Option<string>,
                         keep: bool): Attempt<MT.Replacement> {
    if folder !in m then Err(CannotOpen)
    else if uid !in m[folder].msgs || target.None? then Err(NotFound)
    else if target.value !in m then Err(Refused)
    else
      var newUid := if "UIDPLUS" in caps then Some(m[target.value].next) else None;
      if keep then Ok(MT.Replacement(newUid, MT.Kept))
      else
        var gone := Discarded(caps, m, l, folder);
        Ok(MT.Replacement(newUid, if gone.Ok? then gone.value else MT.NotRemoved(gone.error)))
  }

  /** With every command answered, a replacement answers exactly this. */
  lemma ReplaceAnswers(c: Client, l: MT.Lookups, folder: string, uid: Uid, target: Option<string>,
                       revise: Message -> Message, keep: bool)
    requires Calm(c.world)
    ensures var a := MT.Replace(c, l, folder, uid, target, revise, keep).1;
            a == if c.readOnly then Err(ReadOnly) else ReplaceResult(c.world.caps, c.world.mailbox, l, folder, uid, target, keep)
  {
    hide Calm, Fetch, Append, MT.Discard;
    FetchCalm(c, folder, uid);
    var (c1, original) := c.Fetch(folder, uid);
    if !c.readOnly && original.Ok? && target.Some? {
      AppendCalm(c1, l.quietAppend, target.value, revise(original.value));
      var (c2, added) := c1.Append(l.quietAppend, target.value, revise(original.value));
      if added.Ok? {
        AddedKeeps(c.world.mailbox, target.value, revise(original.value), folder, uid);
        DiscardAnswers(c2, l, folder, uid);
        SameDiscard(c.world.caps, c.world.mailbox, c2.world.mailbox, l, folder);
      }
    }
  }

  lemma AddedKeeps(m: Mailbox, target: string, message: Message, folder: string, uid: Uid)
    requires target in m && folder in m && uid in m[folder].msgs
    ensures var n := m[target := m[target].Add(message)];
            folder in n && uid in n[folder].msgs && n.Keys == m.Keys
  {
  }

  lemma SameDiscard(caps: set<string>, m: Mailbox, n: Mailbox, l: MT.Lookups, folder: string)
    requires m.Keys == n.Keys
    ensures Discarded(caps, m, l, folder) == Discarded(caps, n, l, folder)
  {
    assert forall f :: f in m <==> f in n;
  }

  // --- what no call does -----------------------------------------------------------------------

  /** A mailbox connected read-only is never changed, and the server is asked for nothing. */
  lemma ReadOnlyChangesNothing(c: Client, l: MT.Lookups, folder: string, uid: Uid, uids: seq<Uid>, target: string, add: bool,
                               flags: set<string>, listed: Option<seq<Uid>>, folderWide: bool, m: Message)
    requires c.readOnly
    ensures c.StoreFlags(folder, uids, add, flags) == (c, Err(ReadOnly))
    ensures c.Move(l.quietMove, folder, uids, target) == (c, Err(ReadOnly))
    ensures c.Expunge(folder, listed, folderWide) == (c, Err(ReadOnly))
    ensures c.Append(l.quietAppend, target, m) == (c, Err(ReadOnly))
    ensures forall permanent :: MT.Delete(c, l, folder, uids, permanent).0 == c && MT.Delete(c, l, folder, uids, permanent).1.Err?
    ensures forall place, revise, keep :: MT.Replace(c, l, folder, uid, place, revise, keep) == (c, Err(ReadOnly))
  {
  }

  /** A connection that broke under a command that is not repeated is not kept; one that served
      a command is. */
  lemma BrokenNotKept(c: Client, quiet: bool, folder: string, uids: seq<Uid>, target: string, m: Message)
    requires !c.readOnly && uids != []
    ensures var (c1, a) := c.Move(quiet, folder, uids, target);
            (a == Err(LinkLost) || a == Err(Offline) ==> !c1.connected) && (a.Ok? ==> c1.connected)
    ensures var (c1, a) := c.Append(quiet, target, m);
            (a == Err(LinkLost) || a == Err(Offline) ==> !c1.connected) && (a.Ok? ==> c1.connected)
  {
    hide ImapCommands.Move, ImapCommands.Append;
  }
}
