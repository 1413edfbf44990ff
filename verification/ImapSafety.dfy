/** What the mutations of the IMAP client never do, at whatever command the link breaks. */
module ImapSafety {
  import opened Prelude
  import opened ImapServer
  import opened ImapCommands

  /** A request: the mailbox it found, and the messages and folders it names. */
  datatype Request = Request(start: Mailbox, source: string, uids: seq<Uid>, target: string) {

    /** `u` names a message that was there. */
    predicate Asked(u: Uid) {
      source in start && u in start[source].msgs && u in uids
    }
  }

  /** Every message the request does not name is where it was, as it was. */
  ghost predicate Untouched(r: Request, m: Mailbox) {
    && ValidMailbox(m)
    && forall f :: f in r.start ==>
         && f in m
         && m[f].next >= r.start[f].next
         && forall u :: u in r.start[f].msgs && !(f == r.source && u in r.uids) ==>
              u in m[f].msgs && m[f].msgs[u] == r.start[f].msgs[u]
  }

  predicate InPlace(r: Request, m: Mailbox, u: Uid)
    requires r.Asked(u)
  {
    r.source in m && u in m[r.source].msgs && m[r.source].msgs[u].body == r.start[r.source].msgs[u].body
  }

  /** `v` is a message the target did not have, with the text of `u`. */
  predicate CopyAt(r: Request, m: Mailbox, u: Uid, v: Uid)
    requires r.Asked(u)
  {
    && r.target in r.start && r.target in m
    && v >= r.start[r.target].next
    && v in m[r.target].msgs && m[r.target].msgs[v].body == r.start[r.source].msgs[u].body
  }

  predicate HasCopy(r: Request, m: Mailbox, u: Uid)
    requires r.Asked(u)
  {
    r.target in m && exists v :: v in m[r.target].msgs && CopyAt(r, m, u, v)
  }

  /** Nothing else touched, and every message asked for is in the source or copied. */
  ghost predicate MoveSafe(r: Request, m: Mailbox) {
    && Untouched(r, m)
    && forall u :: r.Asked(u) ==> InPlace(r, m, u) || HasCopy(r, m, u)
  }

  ghost predicate AllInPlace(r: Request, m: Mailbox) {
    Untouched(r, m) && forall u :: r.Asked(u) ==> InPlace(r, m, u)
  }

  /** No copy made inside the source folder gets a UID the request also names. */
  predicate NoClash(r: Request) {
    r.source == r.target && r.source in r.start ==>
      var f := r.start[r.source];
      forall u :: u in r.uids ==> !(f.next <= u < f.next + |Existing(f.msgs, r.uids)|)
  }

  // --- copies -----------------------------------------------------------------------------

  /** The target keeps what it has; what is new is named from its UIDNEXT on. */
  lemma {:induction false} AddAllKeeps(msgs: map<Uid, Message>, uids: seq<Uid>, dst: Folder)
    requires dst.Valid() && forall u :: u in uids ==> u in msgs
    ensures var f := AddAll(msgs, uids, dst);
            && f.Valid() && f.next == dst.next + |uids|
            && (forall u :: u in dst.msgs ==> u in f.msgs && f.msgs[u] == dst.msgs[u])
            && (forall u :: u in f.msgs ==> u in dst.msgs || dst.next <= u < f.next)
  {
    if uids != [] {
      AddAllKeeps(msgs, uids[..|uids| - 1], dst);
    }
  }

  /** The copies are named in order. */
  lemma {:induction false} AddAllAt(msgs: map<Uid, Message>, uids: seq<Uid>, dst: Folder, i: nat)
    requires dst.Valid() && i < |uids| && forall u :: u in uids ==> u in msgs
    ensures var f := AddAll(msgs, uids, dst);
            dst.next + i in f.msgs && f.msgs[dst.next + i] == msgs[uids[i]]
  {
    var n := |uids| - 1;
    AddAllKeeps(msgs, uids[..n], dst);
    if i < n {
      AddAllAt(msgs, uids[..n], dst, i);
    }
  }

  /** The UIDs actually copied do not depend on whether the search was answered. */
  lemma {:induction false} ExistingOfFilter(msgs: map<Uid, Message>, uids: seq<Uid>)
    ensures Existing(msgs, Filter(uids, msgs.Keys)) == Existing(msgs, uids)
  {
    if uids != [] {
      var n := |uids| - 1;
      ExistingOfFilter(msgs, uids[..n]);
      if uids[n] in msgs {
        assert Filter(uids, msgs.Keys)[..|Filter(uids, msgs.Keys)| - 1] == Filter(uids[..n], msgs.Keys);
      }
    }
  }

  /** The UIDs a command is sent with: the request, or those of it that were found. */
  predicate Chosen(r: Request, present: seq<Uid>) {
    r.source in r.start && (present == r.uids || present == Filter(r.uids, r.start[r.source].msgs.Keys))
  }

  lemma ChosenMembers(r: Request, present: seq<Uid>)
    requires Chosen(r, present)
    ensures forall u :: u in present ==> u in r.uids
    ensures forall u :: r.Asked(u) <==> u in Existing(r.start[r.source].msgs, present)
    ensures Existing(r.start[r.source].msgs, present) == Existing(r.start[r.source].msgs, r.uids)
  {
    var msgs := r.start[r.source].msgs;
    FilterMembers(r.uids, msgs.Keys);
    ExistingExist(msgs, present);
    ExistingOfFilter(msgs, r.uids);
  }

  /** Every message asked for has a copy whose UID is one of the first new ones. */
  ghost predicate AllCopied(r: Request, m: Mailbox) {
    && Untouched(r, m)
    && forall u :: r.Asked(u) ==> exists v :: CopyAt(r, m, u, v) && NewUid(r, v)
  }

  predicate NewUid(r: Request, v: Uid) {
    && r.source in r.start && r.target in r.start
    && r.start[r.target].next <= v < r.start[r.target].next + |Existing(r.start[r.source].msgs, r.uids)|
  }

  lemma CopiedInPlace(r: Request, present: seq<Uid>, m: Mailbox)
    requires ValidMailbox(r.start) && r.source in r.start
    requires Copied(r.start, r.source, present, r.target) == Some(m)
    ensures AllInPlace(r, m)
  {
    hide AddAll;
    ExistingExist(r.start[r.source].msgs, present);
    hide Existing;
    AddAllKeeps(r.start[r.source].msgs, Existing(r.start[r.source].msgs, present), r.start[r.target]);
  }

  lemma CopyOf(r: Request, present: seq<Uid>, m: Mailbox, u: Uid) returns (v: Uid)
    requires ValidMailbox(r.start) && Chosen(r, present) && r.Asked(u)
    requires Copied(r.start, r.source, present, r.target) == Some(m)
    ensures CopyAt(r, m, u, v) && NewUid(r, v)
  {
    hide AddAll;
    hide Existing;
    var msgs := r.start[r.source].msgs;
    var existing := Existing(msgs, present);
    ChosenMembers(r, present);
    hide Chosen;
    var i :| 0 <= i < |existing| && existing[i] == u;
    v := r.start[r.target].next + i;
    ExistingExist(msgs, present);
    AddAllAt(msgs, existing, r.start[r.target], i);
  }

  lemma CopiedIsSafe(r: Request, present: seq<Uid>, m: Mailbox)
    requires ValidMailbox(r.start) && Chosen(r, present)
    requires Copied(r.start, r.source, present, r.target) == Some(m)
    ensures AllInPlace(r, m) && AllCopied(r, m)
  {
    hide Copied;
    hide Untouched;
    hide CopyAt;
    hide NewUid;
    CopiedInPlace(r, present, m);
    forall u | r.Asked(u)
      ensures exists v :: CopyAt(r, m, u, v) && NewUid(r, v)
    {
      var v := CopyOf(r, present, m, u);
    }
  }

  lemma CopiedIsMoveSafe(r: Request, m: Mailbox)
    requires AllCopied(r, m)
    ensures MoveSafe(r, m)
  {
    forall u | r.Asked(u)
      ensures HasCopy(r, m, u)
    {
      var v :| CopyAt(r, m, u, v) && NewUid(r, v);
    }
  }

  lemma FlaggedUntouched(r: Request, present: seq<Uid>, m: Mailbox, n: Mailbox, flags: set<string>, add: bool)
    requires forall u :: u in present ==> u in r.uids
    requires Flagged(m, r.source, present, add, flags) == Some(n)
    ensures Untouched(r, m) ==> Untouched(r, n)
  {
  }

  lemma FlaggedInPlace(r: Request, present: seq<Uid>, m: Mailbox, n: Mailbox, flags: set<string>, add: bool)
    requires Flagged(m, r.source, present, add, flags) == Some(n)
    requires forall u :: r.Asked(u) ==> InPlace(r, m, u)
    ensures forall u :: r.Asked(u) ==> InPlace(r, n, u)
  {
  }

  lemma FlaggedCopies(r: Request, present: seq<Uid>, m: Mailbox, n: Mailbox, flags: set<string>, add: bool, u: Uid, v: Uid)
    requires Flagged(m, r.source, present, add, flags) == Some(n)
    requires r.Asked(u) && CopyAt(r, m, u, v)
    ensures CopyAt(r, n, u, v)
  {
  }

  lemma FlaggedIsSafe(r: Request, present: seq<Uid>, m: Mailbox, n: Mailbox, flags: set<string>, add: bool)
    requires forall u :: u in present ==> u in r.uids
    requires Flagged(m, r.source, present, add, flags) == Some(n)
    ensures Untouched(r, m) ==> Untouched(r, n)
    ensures AllInPlace(r, m) ==> AllInPlace(r, n)
    ensures AllCopied(r, m) ==> AllCopied(r, n)
  {
    hide Flagged;
    hide Untouched;
    hide InPlace;
    hide CopyAt;
    hide NewUid;
    FlaggedUntouched(r, present, m, n, flags, add);
    if AllInPlace(r, m) {
      FlaggedInPlace(r, present, m, n, flags, add);
    }
    if AllCopied(r, m) {
      forall u | r.Asked(u)
        ensures exists v :: CopyAt(r, n, u, v) && NewUid(r, v)
      {
        var v :| CopyAt(r, m, u, v) && NewUid(r, v);
        FlaggedCopies(r, present, m, n, flags, add, u, v);
      }
    }
  }

  lemma ExpungedIsSafe(r: Request, present: seq<Uid>, m: Mailbox, n: Mailbox)
    requires forall u :: u in present ==> u in r.uids
    requires UidExpunged(m, r.source, present) == Some(n)
    ensures Untouched(r, m) ==> Untouched(r, n)
    ensures NoClash(r) && AllCopied(r, m) ==> AllCopied(r, n)
  {
    if NoClash(r) && AllCopied(r, m) {
      forall u | r.Asked(u)
        ensures exists v :: CopyAt(r, n, u, v) && NewUid(r, v)
      {
        var v :| CopyAt(r, m, u, v) && NewUid(r, v);
        assert CopyAt(r, n, u, v);
      }
    }
  }

  lemma MovedIsSafe(r: Request, present: seq<Uid>, m: Mailbox)
    requires ValidMailbox(r.start) && Chosen(r, present)
    requires MovedTo(r.start, r.source, present, r.target) == Some(m)
    ensures AllCopied(r, m)
    ensures forall u :: u in present ==> u !in m[r.source].msgs || u !in r.start[r.source].msgs
  {
    var copied := Copied(r.start, r.source, present, r.target).value;
    CopiedIsSafe(r, present, copied);
    ChosenMembers(r, present);
    forall u | r.Asked(u)
      ensures exists v :: CopyAt(r, m, u, v) && NewUid(r, v)
    {
      var v :| CopyAt(r, copied, u, v) && NewUid(r, v);
      assert CopyAt(r, m, u, v);
    }
  }

  // --- move ---------------------------------------------------------------------------------

  /** No message outside the request is touched; and, unless a copy takes a requested UID,
      every message asked for is in the source or copied. */
  ghost predicate Good(r: Request, m: Mailbox) {
    Untouched(r, m) && (NoClash(r) ==> MoveSafe(r, m))
  }

  /** The mailbox is good, and has been in every state since the `n`-th. */
  ghost predicate GoodSince(r: Request, n: nat, w: World) {
    && n <= |w.trace|
    && Good(r, w.mailbox)
    && forall i :: n <= i < |w.trace| ==> Good(r, w.trace[i])
  }

  lemma SendGood(r: Request, n: nat, w: World, after: Option<Mailbox>)
    requires GoodSince(r, n, w)
    requires after.Some? ==> Good(r, after.value)
    ensures GoodSince(r, n, w.Send(after).0)
  {
    hide Good;
  }

  lemma StartIsGood(r: Request)
    requires ValidMailbox(r.start)
    ensures Good(r, r.start) && AllInPlace(r, r.start)
  {
  }

  lemma SelectGood(r: Request, n: nat, w: World)
    requires GoodSince(r, n, w) && w.mailbox == r.start
    ensures var (w1, found) := Select(w, r.source, r.uids);
            && GoodSince(r, n, w1) && w1.mailbox == w.mailbox && w1.caps == w.caps
            && (found.Ok? ==> Chosen(r, found.value))
  {
    hide Good;
    SendGood(r, n, w, Opened(w.mailbox, r.source));
    var w1 := w.Send(Opened(w.mailbox, r.source)).0;
    SendGood(r, n, w1, Opened(w1.mailbox, r.source));
  }

  /** How a move that succeeded left the mailbox. */
  ghost predicate MoveDone(r: Request, m: Mailbox, present: seq<Uid>, how: string) {
    && Chosen(r, present)
    && (present == [] || NoClash(r) ==> AllCopied(r, m))
    && (how == "moved" ==> forall u :: r.Asked(u) ==> r.source in m && u !in m[r.source].msgs)
    && (how == "flagged" ==> AllInPlace(r, m) && AllCopied(r, m))
    && (how == "uids" ==> NoneFlagged(r, m))
  }

  /** Originals and copies are both there. */
  ghost predicate Doubled(r: Request, m: Mailbox) {
    AllInPlace(r, m) && AllCopied(r, m)
  }

  lemma DoubledIsGood(r: Request, m: Mailbox)
    requires Doubled(r, m)
    ensures Good(r, m)
  {
    CopiedIsMoveSafe(r, m);
  }

  lemma FlagStep(r: Request, n: nat, w: World, present: seq<Uid>)
    requires GoodSince(r, n, w) && Chosen(r, present) && Doubled(r, w.mailbox)
    ensures var (w1, reply) := w.Send(Flagged(w.mailbox, r.source, present, true, {DELETED}));
            GoodSince(r, n, w1) && Doubled(r, w1.mailbox)
  {
    ChosenMembers(r, present);
    var after := Flagged(w.mailbox, r.source, present, true, {DELETED});
    if after.Some? {
      FlaggedIsSafe(r, present, w.mailbox, after.value, {DELETED}, true);
      assert Doubled(r, after.value);
      DoubledIsGood(r, after.value);
    }
    hide Good;
    hide Doubled;
    hide Flagged;
    SendGood(r, n, w, after);
  }

  lemma ExpungeStep(r: Request, n: nat, w: World, present: seq<Uid>)
    requires GoodSince(r, n, w) && Chosen(r, present) && Doubled(r, w.mailbox)
    ensures var (w1, reply) := w.Send(UidExpunged(w.mailbox, r.source, present));
            && GoodSince(r, n, w1)
            && (NoClash(r) ==> AllCopied(r, w1.mailbox))
            && (reply == OK ==> NoneFlagged(r, w1.mailbox))
  {
    ChosenMembers(r, present);
    AskedArePresent(r, present);
    var after := UidExpunged(w.mailbox, r.source, present);
    if after.Some? {
      ExpungedIsSafe(r, present, w.mailbox, after.value);
      ExpungedIsGood(r, after.value);
      assert NoneFlagged(r, after.value);
    }
    hide Good;
    hide AllCopied;
    hide AllInPlace;
    hide NoClash;
    hide NoneFlagged;
    hide UidExpunged;
    SendGood(r, n, w, after);
  }

  lemma ExpungedIsGood(r: Request, m: Mailbox)
    requires Untouched(r, m) && (NoClash(r) ==> AllCopied(r, m))
    ensures Good(r, m)
  {
    if NoClash(r) {
      CopiedIsMoveSafe(r, m);
    }
  }

  /** No message asked for is both in the source and flagged deleted. */
  ghost predicate NoneFlagged(r: Request, m: Mailbox) {
    forall u :: r.Asked(u) && r.source in m && u in m[r.source].msgs ==> DELETED !in m[r.source].msgs[u].flags
  }

  lemma FlagAndExpungeGood(r: Request, n: nat, w: World, present: seq<Uid>)
    requires GoodSince(r, n, w) && Chosen(r, present) && Doubled(r, w.mailbox)
    ensures var (w1, a) := FlagAndExpunge(w, r.source, present);
            && GoodSince(r, n, w1)
            && (a.Ok? ==> a.value.0 == present && MoveDone(r, w1.mailbox, present, a.value.1))
  {
    FlagStep(r, n, w, present);
    var (w1, reply) := w.Send(Flagged(w.mailbox, r.source, present, true, {DELETED}));
    ExpungeStep(r, n, w1, present);
    assert Doubled(r, w1.mailbox) ==> AllInPlace(r, w1.mailbox) && AllCopied(r, w1.mailbox);
    hide Good;
    hide GoodSince;
    hide Doubled;
    hide AllCopied;
    hide AllInPlace;
    hide NoClash;
    hide Flagged;
    hide UidExpunged;
    hide NoneFlagged;
  }

  lemma AskedArePresent(r: Request, present: seq<Uid>)
    requires Chosen(r, present)
    ensures forall u :: r.Asked(u) ==> u in present
  {
    FilterMembers(r.uids, r.start[r.source].msgs.Keys);
  }

  lemma MoveCommandGood(r: Request, n: nat, w: World, present: seq<Uid>)
    requires GoodSince(r, n, w) && w.mailbox == r.start && ValidMailbox(r.start) && Chosen(r, present)
    ensures var (w1, reply) := w.Send(MovedTo(w.mailbox, r.source, present, r.target));
            GoodSince(r, n, w1) && (reply == OK ==> MoveDone(r, w1.mailbox, present, "moved"))
  {
    var after := MovedTo(w.mailbox, r.source, present, r.target);
    if after.Some? {
      MovedIsSafe(r, present, after.value);
      ExpungedIsGood(r, after.value);
      AskedArePresent(r, present);
      assert MoveDone(r, after.value, present, "moved");
    }
    hide Good;
    hide MoveDone;
    hide MovedTo;
    hide AllCopied;
    SendGood(r, n, w, after);
  }

  lemma CopyCommandGood(r: Request, n: nat, w: World, present: seq<Uid>)
    requires GoodSince(r, n, w) && w.mailbox == r.start && ValidMailbox(r.start) && Chosen(r, present)
    ensures var (w1, reply) := w.Send(Copied(w.mailbox, r.source, present, r.target));
            GoodSince(r, n, w1) && (reply == OK ==> Doubled(r, w1.mailbox))
  {
    var after := Copied(w.mailbox, r.source, present, r.target);
    if after.Some? {
      CopiedIsSafe(r, present, after.value);
      assert Doubled(r, after.value);
      DoubledIsGood(r, after.value);
    }
    hide Good;
    hide Doubled;
    hide Copied;
    SendGood(r, n, w, after);
  }

  /** Nothing asked for is there: there is nothing to move. */
  lemma NothingAsked(r: Request, m: Mailbox)
    requires Chosen(r, []) && m == r.start && ValidMailbox(m)
    ensures MoveDone(r, m, [], "moved")
  {
    AskedArePresent(r, []);
    assert forall u :: !r.Asked(u);
  }

  lemma MoveOnceGood(r: Request, n: nat, w: World)
    requires GoodSince(r, n, w) && w.mailbox == r.start && ValidMailbox(r.start)
    ensures var (w1, a) := MoveOnce(w, r.source, r.uids, r.target);
            GoodSince(r, n, w1) && (a.Ok? ==> MoveDone(r, w1.mailbox, a.value.0, a.value.1))
  {
    SelectGood(r, n, w);
    var (w1, found) := Select(w, r.source, r.uids);
    if found.Ok? {
      if found.value == [] {
        NothingAsked(r, w1.mailbox);
      } else if "MOVE" in w.caps {
        MoveCommandGood(r, n, w1, found.value);
      } else {
        CopyCommandGood(r, n, w1, found.value);
        var (w2, reply) := w1.Send(Copied(w1.mailbox, r.source, found.value, r.target));
        if reply == OK {
          FlagAndExpungeGood(r, n, w2, found.value);
        }
      }
    }
    hide GoodSince;
    hide MoveDone;
    hide Chosen;
    hide Doubled;
    hide Select;
    hide FlagAndExpunge;
    hide Copied;
    hide MovedTo;
  }

  lemma ReadyGood(r: Request, n: nat, w: World, connected: bool, probe: bool)
    requires GoodSince(r, n, w)
    ensures var w1 := Ready(w, connected, probe).0;
            GoodSince(r, n, w1) && w1.mailbox == w.mailbox && w1.caps == w.caps
  {
    hide Good;
    SendGood(r, n, w, Some(w.mailbox));
    var w1 := w.Send(Some(w.mailbox)).0;
    SendGood(r, n, w1, Some(w1.mailbox));
  }

  /** For every capability set, folder content and fate of each command: in every state from
      the call on, `move` has touched no message it was not given, and (unless a copy made
      inside the source takes a requested UID) every message asked for is in the source or
      has a copy in the target. A call that succeeds splits the request into done and
      missing, and says how it went. */
  lemma MoveSafety(w: World, connected: bool, quiet: bool, source: string, uids: seq<Uid>, target: string)
    requires ValidMailbox(w.mailbox)
    ensures var r := Request(w.mailbox, source, uids, target);
            var (w1, a) := Move(w, connected, quiet, source, uids, target);
            && GoodSince(r, |w.trace|, w1)
            && (a.Ok? ==> Splits(uids, a.value.done, a.value.missing))
            && (a.Ok? && uids != [] ==> MoveDone(r, w1.mailbox, a.value.done, a.value.how))
  {
    var r := Request(w.mailbox, source, uids, target);
    StartIsGood(r);
    if uids != [] {
      var once := v => MoveOnce(v, source, uids, target);
      ReadyGood(r, |w.trace|, w, connected, quiet);
      var (w1, up) := Ready(w, connected, quiet);
      MoveOnceGood(r, |w.trace|, w1);
      var (w2, a) := MoveOnce(w1, source, uids, target);
      if a.Ok? {
        assert Chosen(r, a.value.0);
        PresentSplits(uids, a.value.0, w.mailbox[source].msgs.Keys);
      }
      hide GoodSince;
      hide MoveDone;
      hide Ready;
      hide MoveOnce;
      hide Splits;
    }
  }

  // --- what is left behind --------------------------------------------------------------------

  /** Those of the messages that are there are flagged deleted. */
  ghost predicate AllFlagged(m: Mailbox, folder: string, uids: seq<Uid>) {
    folder in m ==> forall u :: u in uids && u in m[folder].msgs ==> DELETED in m[folder].msgs[u].flags
  }

  ghost predicate NonePresent(m: Mailbox, folder: string, uids: seq<Uid>) {
    folder in m && forall u :: u in uids ==> u !in m[folder].msgs
  }

  // --- exactly when a move can lose a message -------------------------------------------------

  /** In every state the mailbox goes through, the move is safe. */
  ghost predicate SafeThroughout(r: Request, caps: set<string>, fates: seq<Fate>, connected: bool, quiet: bool) {
    var w := World(r.start, caps, fates, []);
    var w1 := Move(w, connected, quiet, r.source, r.uids, r.target).0;
    MoveSafe(r, w1.mailbox) && forall i :: 0 <= i < |w1.trace| ==> MoveSafe(r, w1.trace[i])
  }

  ghost predicate AlwaysSafe(r: Request) {
    forall caps, fates, connected, quiet :: SafeThroughout(r, caps, fates, connected, quiet)
  }

  predicate DistinctTexts(f: Folder) {
    forall u, v :: u in f.msgs && v in f.msgs && f.msgs[u].body == f.msgs[v].body ==> u == v
  }

  lemma {:induction false} ExistingDistinct(msgs: map<Uid, Message>, uids: seq<Uid>)
    ensures forall i, j :: 0 <= i < j < |Existing(msgs, uids)| ==> Existing(msgs, uids)[i] != Existing(msgs, uids)[j]
  {
    if uids != [] {
      ExistingDistinct(msgs, uids[..|uids| - 1]);
    }
  }

  /** The source folder after copying the request into it and expunging every UID it names. */
  function SelfMoved(f: Folder, uids: seq<Uid>): Folder {
    ExistingExist(f.msgs, uids);
    Removed(AddAll(f.msgs, Existing(f.msgs, uids), f), uids)
  }

  /** A move inside one folder with UIDPLUS only, when the search is answered NO. */
  lemma UnansweredSelfMove(mb: Mailbox, source: string, uids: seq<Uid>)
    requires source in mb && uids != []
    ensures var w := World(mb, {"UIDPLUS"}, [Answered, RefusedNo], []);
            Move(w, true, false, source, uids, source).0.mailbox == mb[source := SelfMoved(mb[source], uids)]
  {
    var w := World(mb, {"UIDPLUS"}, [Answered, RefusedNo], []);
    var f := mb[source];
    var w1 := World(mb, {"UIDPLUS"}, [RefusedNo], [mb]);
    assert [Answered, RefusedNo][1..] == [RefusedNo] && [RefusedNo][1..] == [];
    assert [] + [mb] == [mb] && [mb] + [mb] == [mb, mb];
    assert w.Send(Opened(mb, source)) == (w1, OK);
    var w2 := World(mb, {"UIDPLUS"}, [], [mb, mb]);
    assert Select(w, source, uids) == (w2, Ok(uids));
    SelfMoveTail(w2, source, uids);
  }

  /** Flagging messages and expunging them by UID removes them. */
  lemma FlaggedThenExpunged(m: Mailbox, folder: string, uids: seq<Uid>)
    requires folder in m
    ensures var flagged := Flagged(m, folder, uids, true, {DELETED});
            && flagged.Some?
            && UidExpunged(flagged.value, folder, uids) == Some(m[folder := Removed(m[folder], uids)])
  {
    var g := m[folder];
    var h := Flagged(m, folder, uids, true, {DELETED}).value[folder];
    assert forall u :: u in h.msgs <==> u in g.msgs;
    assert UidExpunged(Flagged(m, folder, uids, true, {DELETED}).value, folder, uids).value[folder].msgs == Removed(g, uids).msgs;
    assert UidExpunged(Flagged(m, folder, uids, true, {DELETED}).value, folder, uids).value == m[folder := Removed(g, uids)];
  }

  lemma SelfCopied(m: Mailbox, source: string, uids: seq<Uid>)
    requires source in m
    ensures var copied := Copied(m, source, uids, source);
            && copied.Some? && source in copied.value
            && copied.value[source := Removed(copied.value[source], uids)] == m[source := SelfMoved(m[source], uids)]
  {
    hide AddAll;
    hide Existing;
    hide Removed;
    ExistingExist(m[source].msgs, uids);
    var g := AddAll(m[source].msgs, Existing(m[source].msgs, uids), m[source]);
    assert m[source := g][source := Removed(g, uids)] == m[source := Removed(g, uids)];
  }

  lemma SelfMoveTail(w: World, source: string, uids: seq<Uid>)
    requires w.fates == [] && source in w.mailbox && w.caps == {"UIDPLUS"}
    ensures var w1 := w.Send(Copied(w.mailbox, source, uids, source)).0;
            && w.Send(Copied(w.mailbox, source, uids, source)).1 == OK
            && FlagAndExpunge(w1, source, uids).0.mailbox
               == w.mailbox[source := SelfMoved(w.mailbox[source], uids)]
  {
    hide Copied;
    hide Flagged;
    hide UidExpunged;
    hide SelfMoved;
    hide Removed;
    SelfCopied(w.mailbox, source, uids);
    var w1 := w.Send(Copied(w.mailbox, source, uids, source)).0;
    FlaggedThenExpunged(w1.mailbox, source, uids);
  }

  lemma CopyNamed(msgs: map<Uid, Message>, uids: seq<Uid>, dst: Folder, v: Uid)
    requires dst.Valid() && forall u :: u in uids ==> u in msgs
    requires v >= dst.next && v in AddAll(msgs, uids, dst).msgs
    ensures v < dst.next + |uids| && AddAll(msgs, uids, dst).msgs[v] == msgs[uids[v - dst.next]]
  {
    AddAllKeeps(msgs, uids, dst);
    AddAllAt(msgs, uids, dst, v - dst.next);
  }

  lemma DistinctAt(msgs: map<Uid, Message>, uids: seq<Uid>, i: nat, j: nat)
    requires i < |Existing(msgs, uids)| && j < |Existing(msgs, uids)| && i != j
    ensures Existing(msgs, uids)[i] != Existing(msgs, uids)[j]
  {
    ExistingDistinct(msgs, uids);
    if j < i {
      assert Existing(msgs, uids)[j] != Existing(msgs, uids)[i];
    }
  }

  /** What is left above UIDNEXT after the self-move is copies other than the one named `u`. */
  lemma OtherCopies(f: Folder, uids: seq<Uid>, u: Uid, v: Uid)
    requires f.Valid() && DistinctTexts(f)
    requires u in uids && f.next <= u < f.next + |Existing(f.msgs, uids)|
    requires Existing(f.msgs, uids)[u - f.next] in f.msgs
    requires v in SelfMoved(f, uids).msgs && v >= f.next
    ensures SelfMoved(f, uids).msgs[v].body != f.msgs[Existing(f.msgs, uids)[u - f.next]].body
  {
    var existing := Existing(f.msgs, uids);
    ExistingExist(f.msgs, uids);
    CopyNamed(f.msgs, existing, f, v);
    assert v != u;
    DistinctAt(f.msgs, uids, v - f.next, u - f.next);
    assert existing[v - f.next] in existing;
    assert SelfMoved(f, uids).msgs[v] == f.msgs[existing[v - f.next]];
    hide AddAll;
    hide Existing;
    hide SelfMoved;
  }

  /** The message whose copy gets the requested UID `u` is gone, and so is its copy. */
  lemma CopyTaken(f: Folder, uids: seq<Uid>, u: Uid) returns (x: Uid)
    requires f.Valid() && DistinctTexts(f)
    requires u in uids && f.next <= u < f.next + |Existing(f.msgs, uids)|
    ensures x in f.msgs && x in uids && x !in SelfMoved(f, uids).msgs
    ensures forall v :: v in SelfMoved(f, uids).msgs && v >= f.next ==>
              SelfMoved(f, uids).msgs[v].body != f.msgs[x].body
  {
    var existing := Existing(f.msgs, uids);
    ExistingExist(f.msgs, uids);
    x := existing[u - f.next];
    assert x in existing;
    assert x !in SelfMoved(f, uids).msgs;
    hide AddAll;
    hide Existing;
    hide SelfMoved;
    hide DistinctTexts;
    forall v | v in SelfMoved(f, uids).msgs && v >= f.next
      ensures SelfMoved(f, uids).msgs[v].body != f.msgs[x].body
    {
      OtherCopies(f, uids, u, v);
    }
  }

  lemma ClashLoses(r: Request)
    requires ValidMailbox(r.start) && r.source in r.start && DistinctTexts(r.start[r.source])
    requires !NoClash(r)
    ensures !SafeThroughout(r, {"UIDPLUS"}, [Answered, RefusedNo], true, false)
  {
    var f := r.start[r.source];
    var u :| u in r.uids && f.next <= u < f.next + |Existing(f.msgs, r.uids)|;
    UnansweredSelfMove(r.start, r.source, r.uids);
    var x := CopyTaken(f, r.uids, u);
    var m := r.start[r.source := SelfMoved(f, r.uids)];
    assert r.Asked(x);
    hide SelfMoved;
    hide Untouched;
    hide Move;
    assert !InPlace(r, m, x) && !HasCopy(r, m, x);
  }

  lemma NoClashIsSafe(r: Request, caps: set<string>, fates: seq<Fate>, connected: bool, quiet: bool)
    requires ValidMailbox(r.start) && NoClash(r)
    ensures SafeThroughout(r, caps, fates, connected, quiet)
  {
    MoveSafety(World(r.start, caps, fates, []), connected, quiet, r.source, r.uids, r.target);
    hide MoveSafe;
    hide Untouched;
    hide Move;
  }

  /** Between folders a move never loses a message. Inside one folder, whose texts differ, it
      never does exactly when no requested UID is one the copies will get. */
  lemma MoveSafeIff(r: Request)
    requires ValidMailbox(r.start) && r.source in r.start && DistinctTexts(r.start[r.source])
    ensures AlwaysSafe(r) <==> NoClash(r)
  {
    if NoClash(r) {
      forall caps, fates, connected, quiet
        ensures SafeThroughout(r, caps, fates, connected, quiet)
      {
        NoClashIsSafe(r, caps, fates, connected, quiet);
      }
    } else {
      ClashLoses(r);
    }
    hide SafeThroughout;
    hide NoClash;
  }
}
