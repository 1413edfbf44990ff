/** A call that is replayed after its link broke: whatever was cut, the server and the caller
    see what one undisturbed run would have left, or the caller is told of the broken link.
  */
module ImapRetry {
  import opened Prelude
  import opened ImapServer
  import opened ImapCommands

  predicate Cut(f: Fate) {
    f == CutBefore || f == CutAfter
  }

  /** No command is refused: the link may break, and nothing else goes wrong. */
  ghost predicate LinkOnly(w: World) {
    forall i :: 0 <= i < |w.fates| ==> w.fates[i] == Answered || Cut(w.fates[i])
  }

  /** How often the link breaks. */
  function Cuts(fates: seq<Fate>): nat {
    if fates == [] then 0 else (if Cut(fates[0]) then 1 else 0) + Cuts(fates[1..])
  }

  /** The mailbox is as before the call, or as after it. */
  ghost predicate Between(w: World, caps: set<string>, before: Mailbox, after: Mailbox) {
    LinkOnly(w) && w.caps == caps && (w.mailbox == before || w.mailbox == after)
  }

  /** What one attempt leaves, started from either side of its own effect with `cuts` to come. */
  ghost predicate Outlasts<T>(w: World, a: Attempt<T>, cuts: nat, caps: set<string>,
                              before: Mailbox, after: Mailbox, result: Attempt<T>) {
    && Between(w, caps, before, after)
    && Cuts(w.fates) <= cuts
    && (a == result || (a == Err(LinkLost) && Cuts(w.fates) < cuts))
    && (a == result ==> w.mailbox == after)
  }

  ghost predicate Repeatable<T(!new)>(once: World -> (World, Attempt<T>), caps: set<string>,
                                        before: Mailbox, after: Mailbox, result: Attempt<T>) {
    forall v {:trigger once(v)} :: Between(v, caps, before, after) ==>
      Outlasts(once(v).0, once(v).1, Cuts(v.fates), caps, before, after, result)
  }

  lemma SendLink(w: World, after: Option<Mailbox>)
    requires LinkOnly(w)
    ensures var (w1, r) := w.Send(after);
            && LinkOnly(w1) && w1.caps == w.caps
            && Cuts(w1.fates) == Cuts(w.fates) - (if r == LOST then 1 else 0)
            && (r == OK ==> after.Some? && w1.mailbox == after.value)
            && (r == NO ==> after.None? && w1.mailbox == w.mailbox)
            && (r == LOST ==> w1.mailbox == w.mailbox || after == Some(w1.mailbox))
            && r != BAD
  {
  }

  /** The connection the call needs first is not had. */
  predicate NoConnection(w: World, connected: bool) {
    !connected && w.fates != [] && w.fates[0] != Answered
  }

  /** Replaying a repeatable command hides one broken link altogether; and whatever breaks, a
      result is that of an undisturbed run, and the mailbox is as before the call or after. */
  lemma RetryingHides<T(!new)>(w: World, connected: bool, once: World -> (World, Attempt<T>),
                                before: Mailbox, after: Mailbox, result: Attempt<T>)
    requires Between(w, w.caps, before, after) && Repeatable(once, w.caps, before, after, result)
    requires result != Err(LinkLost) && result != Err(Offline)
    ensures var (w1, a) := Retrying(w, connected, once);
            && (w1.mailbox == before || w1.mailbox == after)
            && (a == result || a == Err(LinkLost) || a == Err(Offline))
            && (a == result ==> w1.mailbox == after)
            && (NoConnection(w, connected) ==> a == Err(Offline))
            && (Cuts(w.fates) <= 1 && !NoConnection(w, connected) ==> a == result)
  {
    hide LinkOnly, Cuts, World.Send, NoConnection, Ready;
    ReadyLink(w, connected);
    var (w1, up) := Ready(w, connected, false);
    if up {
      var (w2, a) := once(w1);
      assert Outlasts(w2, a, Cuts(w1.fates), w.caps, before, after, result);
      SendLink(w2, Some(w2.mailbox));
      var (w3, again) := Reconnect(w2);
      assert Between(w3, w.caps, before, after);
      assert Outlasts(once(w3).0, once(w3).1, Cuts(w3.fates), w.caps, before, after, result);
      NoCutNoLoss(w2);
    }
  }

  lemma ReadyLink(w: World, connected: bool)
    requires LinkOnly(w)
    ensures var (w1, up) := Ready(w, connected, false);
            && LinkOnly(w1) && w1.caps == w.caps && w1.mailbox == w.mailbox && Cuts(w1.fates) <= Cuts(w.fates)
            && (up <==> !NoConnection(w, connected))
  {
    SendLink(w, Some(w.mailbox));
  }

  lemma NoCutNoLoss(w: World)
    requires LinkOnly(w)
    ensures Cuts(w.fates) == 0 ==> Reconnect(w).1
  {
    SendLink(w, Some(w.mailbox));
  }

  lemma SelectLink(w: World, folder: string, uids: seq<Uid>)
    requires LinkOnly(w)
    ensures var (w1, found) := Select(w, folder, uids);
            && LinkOnly(w1) && w1.caps == w.caps && w1.mailbox == w.mailbox
            && Cuts(w1.fates) <= Cuts(w.fates)
            && (|| found == Found(w.mailbox, folder, uids)
                || (Cuts(w1.fates) < Cuts(w.fates) && found == Err(LinkLost)))
  {
    SendLink(w, Opened(w.mailbox, folder));
    var w1 := w.Send(Opened(w.mailbox, folder)).0;
    SendLink(w1, Opened(w1.mailbox, folder));
  }

  /** What SELECT and SEARCH tell when they are answered. */
  function Found(m: Mailbox, folder: string, uids: seq<Uid>): Attempt<seq<Uid>> {
    if folder in m then Ok(Filter(uids, m[folder].msgs.Keys)) else Err(CannotOpen)
  }

  // --- store_flags --------------------------------------------------------------------

  /** The requested messages that are there have the flags added or removed. */
  function Stored(m: Mailbox, folder: string, uids: seq<Uid>, add: bool, flags: set<string>): Mailbox {
    if folder in m then Flagged(m, folder, uids, add, flags).value else m
  }

  lemma FlaggedFound(m: Mailbox, folder: string, uids: seq<Uid>, add: bool, flags: set<string>)
    requires folder in m
    ensures var found := Filter(uids, m[folder].msgs.Keys);
            var n := Stored(m, folder, uids, add, flags);
            && Flagged(m, folder, found, add, flags) == Some(n)
            && (found == [] ==> n == m)
  {
    FilterMembers(uids, m[folder].msgs.Keys);
    var found := Filter(uids, m[folder].msgs.Keys);
    var n := Stored(m, folder, uids, add, flags);
    assert Flagged(m, folder, found, add, flags).value[folder].msgs == n[folder].msgs;
    if found == [] {
      assert n[folder].msgs == m[folder].msgs;
      assert n == m;
    }
  }

  lemma StoredTwice(m: Mailbox, folder: string, uids: seq<Uid>, add: bool, flags: set<string>)
    ensures var n := Stored(m, folder, uids, add, flags);
            Stored(n, folder, uids, add, flags) == n && Found(n, folder, uids) == Found(m, folder, uids)
  {
    var n := Stored(m, folder, uids, add, flags);
    if folder in m {
      var f, g := m[folder], n[folder];
      assert g.msgs.Keys == f.msgs.Keys;
      var again := Stored(n, folder, uids, add, flags)[folder].msgs;
      forall u | u in g.msgs
        ensures again[u] == g.msgs[u]
      {
        var s := f.msgs[u].flags;
        assert (s + flags) + flags == s + flags && (s - flags) - flags == s - flags;
      }
      assert again == g.msgs;
      assert Stored(n, folder, uids, add, flags) == n;
    }
  }

  lemma StoreOnceRepeats(w: World, m: Mailbox, folder: string, uids: seq<Uid>, add: bool, flags: set<string>)
    requires Between(w, w.caps, m, Stored(m, folder, uids, add, flags))
    ensures var (w1, a) := StoreOnce(w, folder, uids, add, flags);
            Outlasts(w1, a, Cuts(w.fates), w.caps, m, Stored(m, folder, uids, add, flags), Found(m, folder, uids))
  {
    StoredTwice(m, folder, uids, add, flags);
    SelectLink(w, folder, uids);
    var (w1, found) := Select(w, folder, uids);
    assert Found(w.mailbox, folder, uids) == Found(m, folder, uids);
    if found.Ok? {
      FlaggedFound(w.mailbox, folder, uids, add, flags);
      SendLink(w1, Flagged(w1.mailbox, folder, found.value, add, flags));
    }
    hide LinkOnly;
    hide Select;
    hide Filter;
    hide Flagged;
  }

  lemma StoreRepeats(caps: set<string>, once: World -> (World, Attempt<seq<Uid>>), m: Mailbox, folder: string,
                     uids: seq<Uid>, add: bool, flags: set<string>)
    requires forall v {:trigger once(v)} :: once(v) == StoreOnce(v, folder, uids, add, flags)
    ensures Repeatable(once, caps, m, Stored(m, folder, uids, add, flags), Found(m, folder, uids))
  {
    var n := Stored(m, folder, uids, add, flags);
    forall v {:trigger once(v)} | Between(v, caps, m, n)
      ensures Outlasts(once(v).0, once(v).1, Cuts(v.fates), caps, m, n, Found(m, folder, uids))
    {
      assert v.caps == caps;
      StoreOnceRepeats(v, m, folder, uids, add, flags);
    }
    hide StoreOnce;
    hide Stored;
    hide Outlasts;
    hide Between;
  }

  /** What `store_flags` makes of the messages found. */
  function Reported(uids: seq<Uid>, found: Attempt<seq<Uid>>): Attempt<Outcome> {
    if uids == [] then Ok(Outcome([], [], ""))
    else if found.Err? then Err(found.error)
    else Ok(Outcome(found.value, Missing(uids, found.value), ""))
  }

  /** `store_flags`, cut at any command and replayed: a result is the result of an undisturbed
      run and leaves the mailbox that run leaves; an error leaves that mailbox or the one
      there was. */
  lemma StoreFlagsHidesRetry(w: World, connected: bool, folder: string, uids: seq<Uid>, add: bool, flags: set<string>)
    requires LinkOnly(w)
    ensures var (w1, a) := StoreFlags(w, connected, folder, uids, add, flags);
            var (clean, result) := StoreFlags(w.(fates := []), connected, folder, uids, add, flags);
            && clean.mailbox == Stored(w.mailbox, folder, uids, add, flags)
            && result == Reported(uids, Found(w.mailbox, folder, uids))
            && (a.Ok? ==> a == result && w1.mailbox == clean.mailbox)
            && (a.Err? ==> a == result || a == Err(LinkLost) || a == Err(Offline))
            && (w1.mailbox == w.mailbox || w1.mailbox == clean.mailbox)
            && (Cuts(w.fates) <= 1 && !NoConnection(w, connected) ==> a == result && w1.mailbox == clean.mailbox)
  {
    var m, n := w.mailbox, Stored(w.mailbox, folder, uids, add, flags);
    if uids == [] {
      StoredNone(m, folder, add, flags);
    } else {
      var once := v => StoreOnce(v, folder, uids, add, flags);
      StoreRepeats(w.caps, once, m, folder, uids, add, flags);
      RetryingHides(w, connected, once, m, n, Found(m, folder, uids));
      RetryingHides(w.(fates := []), connected, once, m, n, Found(m, folder, uids));
      hide Retrying;
      hide Outlasts;
      hide StoreOnce;
      hide Stored;
      hide Repeatable;
    }
  }

  lemma StoredNone(m: Mailbox, folder: string, add: bool, flags: set<string>)
    ensures Stored(m, folder, [], add, flags) == m
  {
    if folder in m {
      assert Stored(m, folder, [], add, flags)[folder].msgs == m[folder].msgs;
      assert Stored(m, folder, [], add, flags) == m;
    }
  }

  // --- expunge ------------------------------------------------------------------------

  /** Which expunge the capabilities and the arguments call for. */
  function Scope(caps: set<string>, uids: Option<seq<Uid>>, folderWide: bool): string {
    if uids.None? then "folder"
    else if "UIDPLUS" in caps then "uids"
    else if folderWide then "folder"
    else "flagged"
  }

  function Emptied(caps: set<string>, m: Mailbox, folder: string, uids: Option<seq<Uid>>, folderWide: bool): Mailbox {
    if folder !in m then m
    else match Scope(caps, uids, folderWide)
      case "uids" => if uids.Some? then UidExpunged(m, folder, uids.value).value else m
      case "folder" => Expunged(m, folder).value
      case _ => m
  }

  function ExpungeResult(caps: set<string>, m: Mailbox, folder: string, uids: Option<seq<Uid>>, folderWide: bool)
    : Attempt<string>
  {
    if Scope(caps, uids, folderWide) != "flagged" && folder !in m then Err(CannotOpen) else Ok(Scope(caps, uids, folderWide))
  }

  lemma EmptiedTwice(caps: set<string>, m: Mailbox, folder: string, uids: Option<seq<Uid>>, folderWide: bool)
    ensures var n := Emptied(caps, m, folder, uids, folderWide);
            Emptied(caps, n, folder, uids, folderWide) == n && (folder in n <==> folder in m)
  {
    var n := Emptied(caps, m, folder, uids, folderWide);
    if folder in m {
      assert Emptied(caps, n, folder, uids, folderWide)[folder].msgs == n[folder].msgs;
      assert Emptied(caps, n, folder, uids, folderWide) == n;
    }
  }

  lemma ExpungeOnceRepeats(w: World, m: Mailbox, folder: string, uids: Option<seq<Uid>>, folderWide: bool)
    requires uids != Some([])
    requires Between(w, w.caps, m, Emptied(w.caps, m, folder, uids, folderWide))
    ensures var (w1, a) := ExpungeOnce(w, folder, uids, folderWide);
            Outlasts(w1, a, Cuts(w.fates), w.caps, m, Emptied(w.caps, m, folder, uids, folderWide),
                     ExpungeResult(w.caps, m, folder, uids, folderWide))
  {
    EmptiedTwice(w.caps, m, folder, uids, folderWide);
    var n := Emptied(w.caps, m, folder, uids, folderWide);
    var targeted := uids.Some? && "UIDPLUS" in w.caps;
    SendLink(w, Opened(w.mailbox, folder));
    var (w1, r) := w.Send(Opened(w.mailbox, folder));
    var after := if targeted then UidExpunged(w1.mailbox, folder, uids.value) else Expunged(w1.mailbox, folder);
    SendLink(w1, after);
    assert targeted || uids.None? || folderWide ==> folder in m ==> after == Some(Emptied(w.caps, w1.mailbox, folder, uids, folderWide));
    hide LinkOnly;
    hide UidExpunged;
    hide Expunged;
  }

  lemma ExpungeRepeats(caps: set<string>, once: World -> (World, Attempt<string>), m: Mailbox, folder: string,
                       uids: Option<seq<Uid>>, folderWide: bool)
    requires uids != Some([])
    requires forall v {:trigger once(v)} :: once(v) == ExpungeOnce(v, folder, uids, folderWide)
    ensures Repeatable(once, caps, m, Emptied(caps, m, folder, uids, folderWide), ExpungeResult(caps, m, folder, uids, folderWide))
  {
    var n, result := Emptied(caps, m, folder, uids, folderWide), ExpungeResult(caps, m, folder, uids, folderWide);
    forall v {:trigger once(v)} | Between(v, caps, m, n)
      ensures Outlasts(once(v).0, once(v).1, Cuts(v.fates), caps, m, n, result)
    {
      assert v.caps == caps;
      ExpungeOnceRepeats(v, m, folder, uids, folderWide);
    }
    hide ExpungeOnce;
    hide Emptied;
    hide ExpungeResult;
    hide Outlasts;
    hide Between;
  }

  /** `expunge`, cut at any command and replayed: as for `store_flags`. */
  lemma ExpungeHidesRetry(w: World, connected: bool, folder: string, uids: Option<seq<Uid>>, folderWide: bool)
    requires LinkOnly(w)
    ensures var (w1, a) := Expunge(w, connected, folder, uids, folderWide);
            var (clean, result) := Expunge(w.(fates := []), connected, folder, uids, folderWide);
            && (clean.mailbox == if uids == Some([]) then w.mailbox else Emptied(w.caps, w.mailbox, folder, uids, folderWide))
            && (result == if uids == Some([]) then Ok("none") else ExpungeResult(w.caps, w.mailbox, folder, uids, folderWide))
            && (a.Ok? ==> a == result && w1.mailbox == clean.mailbox)
            && (a.Err? ==> a == result || a == Err(LinkLost) || a == Err(Offline))
            && (w1.mailbox == w.mailbox || w1.mailbox == clean.mailbox)
            && (Cuts(w.fates) <= 1 && !NoConnection(w, connected) ==> a == result && w1.mailbox == clean.mailbox)
  {
    if uids != Some([]) {
      var m, n := w.mailbox, Emptied(w.caps, w.mailbox, folder, uids, folderWide);
      var result := ExpungeResult(w.caps, m, folder, uids, folderWide);
      var once := v => ExpungeOnce(v, folder, uids, folderWide);
      ExpungeRepeats(w.caps, once, m, folder, uids, folderWide);
      RetryingHides(w, connected, once, m, n, result);
      RetryingHides(w.(fates := []), connected, once, m, n, result);
      hide Retrying;
      hide ExpungeOnce;
      hide ExpungeResult;
      hide Emptied;
      hide Repeatable;
    }
  }
}
