/** What the calls answer: exactly, when every command is answered or one link breaks, and how
    often the server is asked, whatever becomes of the commands.
  */
module ImapOutcomes {
  import opened Prelude
  import opened ImapServer
  import opened ImapCommands
  import opened ImapRetry
  import opened ImapReports

  // --- fetch_raw ------------------------------------------------------------------------

  /** What there is to fetch. */
  function Fetched(m: Mailbox, folder: string, uid: Uid): Attempt<Message> {
    if folder !in m then Err(CannotOpen)
    else if uid in m[folder].msgs then Ok(m[folder].msgs[uid])
    else Err(NotFound)
  }

  lemma FetchOnceRepeats(w: World, m: Mailbox, folder: string, uid: Uid)
    requires Between(w, w.caps, m, m)
    ensures var (w1, a) := FetchOnce(w, folder, uid);
            Outlasts(w1, a, Cuts(w.fates), w.caps, m, m, Fetched(m, folder, uid))
  {
    SendLink(w, Opened(w.mailbox, folder));
    var w1 := w.Send(Opened(w.mailbox, folder)).0;
    SendLink(w1, Opened(w1.mailbox, folder));
    hide LinkOnly, Cuts;
  }

  /** `fetch_raw`, cut at any command and replayed: one broken link goes unnoticed, and what
      is answered at all is what is there. */
  lemma FetchHidesRetry(w: World, connected: bool, folder: string, uid: Uid)
    requires LinkOnly(w)
    ensures var (w1, a) := Fetch(w, connected, folder, uid);
            var result := Fetched(w.mailbox, folder, uid);
            && w1.mailbox == w.mailbox
            && (a == result || a == Err(LinkLost) || a == Err(Offline))
            && (NoConnection(w, connected) ==> a == Err(Offline))
            && (Cuts(w.fates) <= 1 && !NoConnection(w, connected) ==> a == result)
  {
    var m, result := w.mailbox, Fetched(w.mailbox, folder, uid);
    var once := v => FetchOnce(v, folder, uid);
    forall v {:trigger once(v)} | Between(v, w.caps, m, m)
      ensures Outlasts(once(v).0, once(v).1, Cuts(v.fates), w.caps, m, m, result)
    {
      assert v.caps == w.caps;
      FetchOnceRepeats(v, m, folder, uid);
    }
    hide FetchOnce, Outlasts;
    assert Repeatable(once, w.caps, m, m, result);
    hide Repeatable, Retrying;
    RetryingHides(w, connected, once, m, m, result);
  }

  // --- move and append, when all is answered -------------------------------------------

  ghost predicate Calm(w: World) {
    LinkOnly(w) && Cuts(w.fates) == 0
  }

  lemma SendCalm(w: World, after: Option<Mailbox>)
    requires Calm(w)
    ensures var (w1, r) := w.Send(after);
            && Calm(w1) && w1.caps == w.caps
            && (if after.Some? then r == OK && w1.mailbox == after.value else r == NO && w1.mailbox == w.mailbox)
  {
  }

  lemma ReadyCalm(w: World, connected: bool, probe: bool)
    requires Calm(w)
    ensures var (w1, up) := Ready(w, connected, probe);
            up && Calm(w1) && w1.caps == w.caps && w1.mailbox == w.mailbox
  {
    SendCalm(w, Some(w.mailbox));
    hide Calm, World.Send;
  }

  lemma SelectCalm(w: World, folder: string, uids: seq<Uid>)
    requires Calm(w)
    ensures var (w1, found) := Select(w, folder, uids);
            Calm(w1) && w1.caps == w.caps && w1.mailbox == w.mailbox && found == Found(w.mailbox, folder, uids)
  {
    SendCalm(w, Opened(w.mailbox, folder));
    var w1 := w.Send(Opened(w.mailbox, folder)).0;
    SendCalm(w1, Opened(w1.mailbox, folder));
    hide Calm, World.Send, Filter;
  }

  /** What a move that goes undisturbed answers. */
  function Moved(caps: set<string>, m: Mailbox, source: string, uids: seq<Uid>, target: string): Attempt<Outcome> {
    if uids == [] then Ok(Outcome([], [], ""))
    else if source !in m then Err(CannotOpen)
    else
      var present := Filter(uids, m[source].msgs.Keys);
      if present == [] then Ok(Outcome([], Missing(uids, []), "moved"))
      else if target !in m then Err(Refused)
      else Ok(Outcome(present, Missing(uids, present), Way(caps)))
  }

  lemma TransferIsSome(m: Mailbox, source: string, uids: seq<Uid>, target: string)
    requires source in m
    ensures Copied(m, source, uids, target).Some? <==> target in m
    ensures MovedTo(m, source, uids, target).Some? <==> target in m
    ensures target in m ==> source in Copied(m, source, uids, target).value
  {
    hide AddAll, Existing;
  }

  lemma FlagAndExpungeCalm(w: World, source: string, present: seq<Uid>)
    requires Calm(w) && source in w.mailbox
    ensures FlagAndExpunge(w, source, present).1 == Ok((present, if "UIDPLUS" in w.caps then "uids" else "flagged"))
  {
    var flagged := Flagged(w.mailbox, source, present, true, {DELETED});
    assert flagged.Some? && source in flagged.value;
    SendCalm(w, flagged);
    hide Flagged;
    var w1 := w.Send(flagged).0;
    SendCalm(w1, UidExpunged(w1.mailbox, source, present));
    hide Calm, World.Send;
  }

  lemma MoveOnceCalm(w: World, source: string, uids: seq<Uid>, target: string)
    requires Calm(w) && uids != []
    ensures var a := MoveOnce(w, source, uids, target).1;
            var result := Moved(w.caps, w.mailbox, source, uids, target);
            if result.Err? then a == Err(result.error) else a == Ok((result.value.done, result.value.how))
  {
    SelectCalm(w, source, uids);
    var (w1, found) := Select(w, source, uids);
    hide Select, Filter, Missing, World.Send, Calm;
    if found.Ok? && found.value != [] {
      TransferIsSome(w.mailbox, source, found.value, target);
      hide Copied, MovedTo;
      SendCalm(w1, MovedTo(w1.mailbox, source, found.value, target));
      SendCalm(w1, Copied(w1.mailbox, source, found.value, target));
      if target in w.mailbox {
        FlagAndExpungeCalm(w1.Send(Copied(w1.mailbox, source, found.value, target)).0, source, found.value);
      }
      hide FlagAndExpunge;
    }
  }

  /** A move whose commands are all answered moves exactly the messages that are there. */
  lemma MoveAnswers(w: World, connected: bool, quiet: bool, source: string, uids: seq<Uid>, target: string)
    requires Calm(w)
    ensures Move(w, connected, quiet, source, uids, target).1 == Moved(w.caps, w.mailbox, source, uids, target)
  {
    hide Calm, MoveOnce, Ready, Filter, Missing;
    ReadyCalm(w, connected, quiet);
    if uids != [] {
      MoveOnceCalm(Ready(w, connected, quiet).0, source, uids, target);
    }
  }

  /** An addition whose commands are all answered adds the message, and nothing else. */
  lemma AppendAnswers(w: World, connected: bool, quiet: bool, folder: string, m: Message)
    requires Calm(w)
    ensures var (w1, a) := Append(w, connected, quiet, folder, m);
            if folder !in w.mailbox then a == Err(Refused) && w1.mailbox == w.mailbox
            else
              && a == Ok(if "UIDPLUS" in w.caps then Some(w.mailbox[folder].next) else None)
              && w1.mailbox == w.mailbox[folder := w.mailbox[folder].Add(m)]
  {
    ReadyCalm(w, connected, quiet);
    var w1 := Ready(w, connected, quiet).0;
    SendCalm(w1, Appended(w1.mailbox, folder, m));
    hide Calm, Ready, World.Send;
  }

  // --- no message is copied twice -----------------------------------------------------------

  function Next(m: Mailbox, folder: string): int {
    if folder in m then m[folder].next else 0
  }

  lemma {:induction false} AddAllNext(msgs: map<Uid, Message>, uids: seq<Uid>, dst: Folder)
    requires forall u :: u in uids ==> u in msgs
    ensures AddAll(msgs, uids, dst).next == dst.next + |uids|
  {
    if uids != [] {
      AddAllNext(msgs, uids[..|uids| - 1], dst);
    }
  }

  /** How many messages there are to copy. */
  function ToCopy(m: Mailbox, source: string, uids: seq<Uid>): int {
    if source in m then |Existing(m[source].msgs, uids)| else 0
  }

  lemma TransferNext(m: Mailbox, source: string, uids: seq<Uid>, target: string)
    requires Copied(m, source, uids, target).Some?
    ensures Next(Copied(m, source, uids, target).value, target) == Next(m, target) + ToCopy(m, source, uids)
    ensures MovedTo(m, source, uids, target).Some?
    ensures Next(MovedTo(m, source, uids, target).value, target) == Next(m, target) + ToCopy(m, source, uids)
  {
    ExistingExist(m[source].msgs, uids);
    AddAllNext(m[source].msgs, Existing(m[source].msgs, uids), m[target]);
    hide AddAll, Existing;
  }

  lemma FlagAndExpungeNext(w: World, source: string, present: seq<Uid>, target: string)
    ensures Next(FlagAndExpunge(w, source, present).0.mailbox, target) == Next(w.mailbox, target)
  {
    var (w1, r) := w.Send(Flagged(w.mailbox, source, present, true, {DELETED}));
    assert Next(w1.mailbox, target) == Next(w.mailbox, target);
    var w2 := w1.Send(UidExpunged(w1.mailbox, source, present)).0;
    assert Next(w2.mailbox, target) == Next(w1.mailbox, target);
    hide Flagged, UidExpunged, World.Send;
  }

  lemma {:induction false} FilterExisting(msgs: map<Uid, Message>, uids: seq<Uid>)
    ensures Existing(msgs, Filter(uids, msgs.Keys)) == Existing(msgs, uids)
  {
    if uids != [] {
      var n := |uids| - 1;
      FilterExisting(msgs, uids[..n]);
      var head := Filter(uids[..n], msgs.Keys);
      if uids[n] in msgs {
        assert (head + [uids[n]])[..|head|] == head;
      }
    }
  }

  lemma MoveOnceNext(w: World, source: string, uids: seq<Uid>, target: string)
    ensures var w1 := MoveOnce(w, source, uids, target).0;
            var grown := Next(w1.mailbox, target) - Next(w.mailbox, target);
            grown == 0 || grown == ToCopy(w.mailbox, source, uids)
  {
    SelectKeeps(w, source, uids);
    var (w1, found) := Select(w, source, uids);
    SelectFinds(w, source, uids);
    hide Select, Filter, Existing;
    if found.Ok? && found.value != [] {
      var present := found.value;
      assert ToCopy(w.mailbox, source, present) == ToCopy(w.mailbox, source, uids);
      if Copied(w.mailbox, source, present, target).Some? {
        TransferNext(w.mailbox, source, present, target);
      } else {
        assert MovedTo(w.mailbox, source, present, target) == None;
      }
      hide Copied, MovedTo, ToCopy;
      FlagAndExpungeNext(w1.Send(Copied(w1.mailbox, source, present, target)).0, source, present, target);
      hide FlagAndExpunge, Next;
    }
  }

  lemma SelectFinds(w: World, folder: string, uids: seq<Uid>)
    ensures var found := Select(w, folder, uids).1;
            found.Ok? && folder in w.mailbox ==>
              Existing(w.mailbox[folder].msgs, found.value) == Existing(w.mailbox[folder].msgs, uids)
  {
    if folder in w.mailbox {
      FilterExisting(w.mailbox[folder].msgs, uids);
    }
    hide Filter, Existing;
  }

  /** Whatever becomes of the commands, the copies are made once or not at all: the target's
      UIDNEXT moves by the number of messages that were there, or stays. */
  lemma CopiedOnce(w: World, connected: bool, quiet: bool, source: string, uids: seq<Uid>, target: string)
    ensures var w1 := Move(w, connected, quiet, source, uids, target).0;
            var grown := Next(w1.mailbox, target) - Next(w.mailbox, target);
            grown == 0 || grown == ToCopy(w.mailbox, source, uids)
  {
    hide MoveOnce, Ready, Next, ToCopy, Missing;
    ReadyKeeps(w, connected, quiet);
    MoveOnceNext(Ready(w, connected, quiet).0, source, uids, target);
  }

  // --- how often the server is asked ------------------------------------------------------

  /** At most `n` commands between the two, and of the breaks to come none but those met. */
  ghost predicate Within(w: World, w1: World, n: int) {
    |w1.trace| <= |w.trace| + n && Cuts(w1.fates) <= Cuts(w.fates)
  }

  /** An attempt of at most `n` commands; it fails for a broken link only if one broke. */
  ghost predicate AttemptWithin<T(!new)>(once: World -> (World, Attempt<T>), n: int) {
    forall v {:trigger once(v)} ::
      Within(v, once(v).0, n) && (once(v).1 == Err(LinkLost) ==> Cuts(once(v).0.fates) < Cuts(v.fates))
  }

  lemma SendWithin(w: World, after: Option<Mailbox>)
    ensures Within(w, w.Send(after).0, 1)
    ensures w.Send(after).1 == LOST ==> Cuts(w.Send(after).0.fates) < Cuts(w.fates)
  {
  }

  /** Only a broken link makes a call ask again, and then once: a refusal never does. */
  lemma AsksAgainOnlyIfCut<T(!new)>(w: World, connected: bool, once: World -> (World, Attempt<T>), n: nat)
    requires AttemptWithin(once, n)
    ensures var asked := |Retrying(w, connected, once).0.trace| - |w.trace|;
            && asked <= (if connected then 0 else 1) + n + 1 + n
            && (Cuts(w.fates) == 0 ==> asked <= (if connected then 0 else 1) + n)
  {
    SendWithin(w, Some(w.mailbox));
    var (w1, up) := Ready(w, connected, false);
    if up {
      var (w2, a) := once(w1);
      assert Within(w1, w2, n);
      SendWithin(w2, Some(w2.mailbox));
      var (w3, again) := Reconnect(w2);
      assert Within(w3, once(w3).0, n);
      hide World.Send;
    }
  }

  lemma SelectWithin(w: World, folder: string, uids: seq<Uid>)
    ensures Within(w, Select(w, folder, uids).0, 2)
    ensures Select(w, folder, uids).1 == Err(LinkLost) ==> Cuts(Select(w, folder, uids).0.fates) < Cuts(w.fates)
  {
    SendWithin(w, Opened(w.mailbox, folder));
    var w1 := w.Send(Opened(w.mailbox, folder)).0;
    SendWithin(w1, Opened(w1.mailbox, folder));
    hide World.Send, Filter, Opened;
  }

  lemma StoreWithin(w: World, folder: string, uids: seq<Uid>, add: bool, flags: set<string>)
    ensures var (w1, a) := StoreOnce(w, folder, uids, add, flags);
            Within(w, w1, 3) && (a == Err(LinkLost) ==> Cuts(w1.fates) < Cuts(w.fates))
  {
    SelectWithin(w, folder, uids);
    var (w1, found) := Select(w, folder, uids);
    hide Select, Flagged;
    if found.Ok? {
      SendWithin(w1, Flagged(w1.mailbox, folder, found.value, add, flags));
      hide World.Send;
    }
  }

  lemma ExpungeWithin(w: World, folder: string, uids: Option<seq<Uid>>, folderWide: bool)
    ensures var (w1, a) := ExpungeOnce(w, folder, uids, folderWide);
            Within(w, w1, 2) && (a == Err(LinkLost) ==> Cuts(w1.fates) < Cuts(w.fates))
  {
    SendWithin(w, Opened(w.mailbox, folder));
    var w1 := w.Send(Opened(w.mailbox, folder)).0;
    var targeted := uids.Some? && uids.value != [] && "UIDPLUS" in w.caps;
    SendWithin(w1, if targeted then UidExpunged(w1.mailbox, folder, uids.value) else Expunged(w1.mailbox, folder));
    hide World.Send, UidExpunged, Expunged, Opened;
  }

  lemma FetchWithin(w: World, folder: string, uid: Uid)
    ensures var (w1, a) := FetchOnce(w, folder, uid);
            Within(w, w1, 2) && (a == Err(LinkLost) ==> Cuts(w1.fates) < Cuts(w.fates))
  {
    SendWithin(w, Opened(w.mailbox, folder));
    var w1 := w.Send(Opened(w.mailbox, folder)).0;
    SendWithin(w1, Opened(w1.mailbox, folder));
    hide World.Send, Opened;
  }

  /** With no broken link, each command of a call is sent at most once, even if refused. */
  lemma RefusalsAreFinal(w: World, connected: bool, folder: string, uids: seq<Uid>, add: bool, flags: set<string>,
                         listed: Option<seq<Uid>>, folderWide: bool, uid: Uid)
    requires Cuts(w.fates) == 0
    ensures var first := |w.trace| + if connected then 0 else 1;
            && |StoreFlags(w, connected, folder, uids, add, flags).0.trace| <= first + 3
            && |Expunge(w, connected, folder, listed, folderWide).0.trace| <= first + 2
            && |Fetch(w, connected, folder, uid).0.trace| <= first + 2
  {
    hide StoreOnce, ExpungeOnce, FetchOnce, Within, Retrying, Missing;
    var store := v => StoreOnce(v, folder, uids, add, flags);
    forall v {:trigger store(v)}
      ensures Within(v, store(v).0, 3) && (store(v).1 == Err(LinkLost) ==> Cuts(store(v).0.fates) < Cuts(v.fates))
    {
      StoreWithin(v, folder, uids, add, flags);
    }
    AsksAgainOnlyIfCut(w, connected, store, 3);
    var expunge := v => ExpungeOnce(v, folder, listed, folderWide);
    forall v {:trigger expunge(v)}
      ensures Within(v, expunge(v).0, 2) && (expunge(v).1 == Err(LinkLost) ==> Cuts(expunge(v).0.fates) < Cuts(v.fates))
    {
      ExpungeWithin(v, folder, listed, folderWide);
    }
    AsksAgainOnlyIfCut(w, connected, expunge, 2);
    var fetch := v => FetchOnce(v, folder, uid);
    forall v {:trigger fetch(v)}
      ensures Within(v, fetch(v).0, 2) && (fetch(v).1 == Err(LinkLost) ==> Cuts(fetch(v).0.fates) < Cuts(v.fates))
    {
      FetchWithin(v, folder, uid);
    }
    AsksAgainOnlyIfCut(w, connected, fetch, 2);
  }
}
