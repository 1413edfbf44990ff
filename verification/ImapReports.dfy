/** Whether what a move reports of the originals is so. The reply to the STORE that flags them
    is not looked at, and that is all that can make the report untrue.
  */
module ImapReports {
  import opened Prelude
  import opened ImapServer
  import opened ImapCommands
  import opened ImapSafety

  /** Reported as expunged they are gone, reported as flagged they are flagged. */
  ghost predicate Truthful(m: Mailbox, folder: string, done: seq<Uid>, how: string) {
    && (how == "uids" ==> NonePresent(m, folder, done))
    && (how == "flagged" ==> AllFlagged(m, folder, done))
  }

  /** The way of a move, decided by what the server can do. */
  function Way(caps: set<string>): string {
    if "MOVE" in caps then "moved" else if "UIDPLUS" in caps then "uids" else "flagged"
  }

  lemma FlaggedAll(m: Mailbox, folder: string, present: seq<Uid>)
    requires folder in m
    ensures AllFlagged(Flagged(m, folder, present, true, {DELETED}).value, folder, present)
    ensures folder in Flagged(m, folder, present, true, {DELETED}).value
  {
  }

  lemma ExpungedIff(m: Mailbox, folder: string, present: seq<Uid>)
    requires folder in m
    ensures NonePresent(UidExpunged(m, folder, present).value, folder, present) <==> AllFlagged(m, folder, present)
  {
    var n := UidExpunged(m, folder, present).value;
    assert forall u :: u in present ==> (u in n[folder].msgs <==> u in m[folder].msgs && !Purged(m[folder], u));
  }

  /** After the copy: the report is true exactly when the flagging was not refused, or was
      not needed. */
  lemma FlagReportIff(w: World, source: string, present: seq<Uid>)
    requires source in w.mailbox
    ensures var (w1, a) := FlagAndExpunge(w, source, present);
            a.Ok? ==>
              && a.value.0 == present && a.value.1 == (if "UIDPLUS" in w.caps then "uids" else "flagged")
              && (Truthful(w1.mailbox, source, present, a.value.1) <==> w.Fate() != RefusedNo || AllFlagged(w.mailbox, source, present))
  {
    hide Flagged;
    hide UidExpunged;
    hide AllFlagged;
    hide NonePresent;
    FlaggedAll(w.mailbox, source, present);
    var (w1, r) := w.Send(Flagged(w.mailbox, source, present, true, {DELETED}));
    assert r == OK || r == NO ==> w1.mailbox == if r == OK then Flagged(w.mailbox, source, present, true, {DELETED}).value else w.mailbox;
    assert r == NO <==> w.Fate() == RefusedNo by { FlaggedIsSome(w.mailbox, source, present); }
    if r == OK || r == NO {
      ExpungedIff(w1.mailbox, source, present);
    }
  }

  lemma FlaggedIsSome(m: Mailbox, folder: string, present: seq<Uid>)
    requires folder in m
    ensures Flagged(m, folder, present, true, {DELETED}).Some?
  {
  }

  /** The connection, the selection and the copy that come before the flagging. */
  function BeforeFlagging(w: World, connected: bool, quiet: bool, source: string, uids: seq<Uid>, target: string): World {
    var w1 := Ready(w, connected, quiet).0;
    var (w2, found) := Select(w1, source, uids);
    if found.Err? then w2 else w2.Send(Copied(w2.mailbox, source, found.value, target)).0
  }

  lemma ReadyKeeps(w: World, connected: bool, probe: bool)
    ensures var w1 := Ready(w, connected, probe).0;
            w1.mailbox == w.mailbox && w1.caps == w.caps
  {
  }

  lemma SelectKeeps(w: World, folder: string, uids: seq<Uid>)
    ensures var (w1, found) := Select(w, folder, uids);
            && w1.mailbox == w.mailbox && w1.caps == w.caps
            && (found.Ok? ==> forall u :: u in found.value ==> u in uids)
            && (found.Ok? ==> folder in w.mailbox)
  {
    if folder in w.mailbox {
      FilterMembers(uids, w.mailbox[folder].msgs.Keys);
    }
  }

  /** A move that went by way of a copy: what it had copied, and whether its report is true. */
  ghost predicate CopyReport(w: World, b: World, source: string, target: string, w1: World, done: seq<Uid>, how: string) {
    && Copied(w.mailbox, source, done, target) == Some(b.mailbox)
    && (Truthful(w1.mailbox, source, done, how) <==> b.Fate() != RefusedNo || AllFlagged(b.mailbox, source, done))
  }

  lemma MoveOnceReport(w: World, source: string, uids: seq<Uid>, target: string)
    ensures var (w1, a) := MoveOnce(w, source, uids, target);
            var (w2, found) := Select(w, source, uids);
            a.Ok? ==>
              && found == Ok(a.value.0)
              && a.value.1 == (if a.value.0 == [] then "moved" else Way(w.caps))
              && (a.value.1 != "moved" ==>
                    var b := w2.Send(Copied(w2.mailbox, source, found.value, target)).0;
                    CopyReport(w, b, source, target, w1, a.value.0, a.value.1))
  {
    hide Select;
    hide Copied;
    hide MovedTo;
    hide FlagAndExpunge;
    hide Truthful;
    hide AllFlagged;
    SelectKeeps(w, source, uids);
    var (w2, found) := Select(w, source, uids);
    if found.Ok? && found.value != [] && "MOVE" !in w.caps {
      var after := Copied(w2.mailbox, source, found.value, target);
      var (b, r) := w2.Send(after);
      if r == OK {
        assert after == Some(b.mailbox) && b.caps == w.caps;
        CopiedKeepsSource(w2.mailbox, source, found.value, target);
        FlagReportIff(b, source, found.value);
      }
    }
  }

  lemma CopiedKeepsSource(m: Mailbox, source: string, uids: seq<Uid>, target: string)
    requires Copied(m, source, uids, target).Some?
    ensures var n := Copied(m, source, uids, target).value;
            source in n && source in m && (source != target ==> n[source] == m[source])
  {
    hide AddAll;
    hide Existing;
  }

  /** Whatever becomes of the commands: a move that reports its originals expunged or flagged
      tells the truth exactly when the flagging was not refused, or was not needed; which of the
      two it reports is decided by the capabilities. */
  lemma MoveTakesEffect(w: World, connected: bool, quiet: bool, source: string, uids: seq<Uid>, target: string)
    ensures var (w1, a) := Move(w, connected, quiet, source, uids, target);
            var b := BeforeFlagging(w, connected, quiet, source, uids, target);
            && (a.Ok? && a.value.how in {"uids", "flagged"} ==> CopyReport(w, b, source, target, w1, a.value.done, a.value.how))
            && (a.Ok? && uids != [] ==> a.value.how == if a.value.done == [] then "moved" else Way(w.caps))
            && (a.Ok? && uids == [] ==> a.value.how == "")
            && (a.Ok? ==> forall u :: u in a.value.done ==> u in uids)
  {
    hide Ready;
    hide Select;
    hide MoveOnce;
    hide Copied;
    hide Missing;
    hide Truthful;
    hide AllFlagged;
    ReadyKeeps(w, connected, quiet);
    var (w1, up) := Ready(w, connected, quiet);
    SelectKeeps(w1, source, uids);
    MoveOnceReport(w1, source, uids, target);
  }

  // --- exactly when every report is true ---------------------------------------------------

  ghost predicate ReportTrue(r: Request, caps: set<string>, fates: seq<Fate>, connected: bool, quiet: bool) {
    var (w1, a) := Move(World(r.start, caps, fates, []), connected, quiet, r.source, r.uids, r.target);
    a.Ok? ==> Truthful(w1.mailbox, r.source, a.value.done, a.value.how)
  }

  ghost predicate AlwaysTrue(r: Request, caps: set<string>) {
    forall fates, connected, quiet :: ReportTrue(r, caps, fates, connected, quiet)
  }

  /** Every message asked for was flagged deleted already. */
  ghost predicate AllMarked(r: Request) {
    forall u :: r.Asked(u) ==> DELETED in r.start[r.source].msgs[u].flags
  }

  /** No original needs flagging: the server moves by itself, the copy cannot succeed, or the
      flags are there. */
  ghost predicate NoFlaggingNeeded(r: Request, caps: set<string>) {
    "MOVE" in caps || r.target !in r.start || AllMarked(r)
  }

  /** For every fate of every command, whatever the capabilities. */
  lemma ReportsTrue(w: World, connected: bool, quiet: bool, source: string, uids: seq<Uid>, target: string)
    requires source != target
    requires NoFlaggingNeeded(Request(w.mailbox, source, uids, target), w.caps)
    ensures var (w1, a) := Move(w, connected, quiet, source, uids, target);
            a.Ok? ==> Truthful(w1.mailbox, source, a.value.done, a.value.how)
  {
    hide Move;
    hide NonePresent;
    MoveTakesEffect(w, connected, quiet, source, uids, target);
    var (w1, a) := Move(w, connected, quiet, source, uids, target);
    var b := BeforeFlagging(w, connected, quiet, source, uids, target);
    hide BeforeFlagging;
    if a.Ok? && a.value.how in {"uids", "flagged"} {
      CopiedKeepsSource(w.mailbox, source, a.value.done, target);
      hide Copied;
      assert target in w.mailbox by { CopiedNeedsTarget(w.mailbox, source, a.value.done, target); }
      var r := Request(w.mailbox, source, uids, target);
      assert forall u :: u in a.value.done && u in w.mailbox[source].msgs ==> r.Asked(u);
      assert AllFlagged(b.mailbox, source, a.value.done);
    }
  }

  lemma CopiedNeedsTarget(m: Mailbox, source: string, uids: seq<Uid>, target: string)
    requires Copied(m, source, uids, target).Some?
    ensures target in m
  {
    hide AddAll;
    hide Existing;
  }

  const STORE_REFUSED: seq<Fate> := [Answered, Answered, Answered, RefusedNo]

  /** Everything is answered but the flagging, which is refused: a message that was not
      flagged stays, unflagged, and is reported as expunged or flagged. */
  lemma RefusedFlagging(r: Request, caps: set<string>)
    requires r.source != r.target && !NoFlaggingNeeded(r, caps)
    ensures !ReportTrue(r, caps, STORE_REFUSED, true, false)
  {
    var w := World(r.start, caps, STORE_REFUSED, []);
    var u :| r.Asked(u) && DELETED !in r.start[r.source].msgs[u].flags;
    var found := Filter(r.uids, r.start[r.source].msgs.Keys);
    FilterMembers(r.uids, r.start[r.source].msgs.Keys);
    assert u in found;
    SelectAnswered(w, r.source, r.uids);
    var w2 := Select(w, r.source, r.uids).0;
    CopyAnswered(w2, r.source, found, r.target);
    var b := w2.Send(Copied(w2.mailbox, r.source, found, r.target)).0;
    CopiedKeepsSource(r.start, r.source, found, r.target);
    RefusedGoesOn(b, r.source, found);
    MoveTakesEffect(w, true, false, r.source, r.uids, r.target);
    hide Select;
    hide Copied;
    hide Filter;
    hide Missing;
    hide Truthful;
    hide FlagAndExpunge;
    assert !AllFlagged(b.mailbox, r.source, found);
    hide AllFlagged;
    assert BeforeFlagging(w, true, false, r.source, r.uids, r.target) == b;
    assert Move(w, true, false, r.source, r.uids, r.target).1.Ok?;
  }

  lemma SelectAnswered(w: World, folder: string, uids: seq<Uid>)
    requires w.fates == STORE_REFUSED && folder in w.mailbox
    ensures var (w1, found) := Select(w, folder, uids);
            && found == Ok(Filter(uids, w.mailbox[folder].msgs.Keys))
            && w1.mailbox == w.mailbox && w1.caps == w.caps && w1.fates == [Answered, RefusedNo]
  {
    hide Filter;
    assert STORE_REFUSED[1..][1..] == [Answered, RefusedNo];
  }

  lemma CopyAnswered(w: World, source: string, uids: seq<Uid>, target: string)
    requires w.fates == [Answered, RefusedNo] && source in w.mailbox && target in w.mailbox
    ensures var (w1, r) := w.Send(Copied(w.mailbox, source, uids, target));
            && r == OK && Copied(w.mailbox, source, uids, target) == Some(w1.mailbox)
            && w1.caps == w.caps && w1.fates == [RefusedNo]
  {
    hide AddAll;
    hide Existing;
    assert [Answered, RefusedNo][1..] == [RefusedNo];
  }

  lemma RefusedGoesOn(w: World, source: string, present: seq<Uid>)
    requires w.fates == [RefusedNo] && source in w.mailbox
    ensures var a := FlagAndExpunge(w, source, present).1;
            a == Ok((present, if "UIDPLUS" in w.caps then "uids" else "flagged"))
  {
    hide Flagged;
    assert [RefusedNo][1..] == [];
  }

  /** Between folders, all reports of a move are true in all runs exactly when the server has
      MOVE, or there is no such target, or every message asked for was flagged already. */
  lemma MoveTruthIff(r: Request, caps: set<string>)
    requires r.source != r.target
    ensures AlwaysTrue(r, caps) <==> NoFlaggingNeeded(r, caps)
  {
    hide ReportTrue;
    hide NoFlaggingNeeded;
    if NoFlaggingNeeded(r, caps) {
      forall fates, connected, quiet
        ensures ReportTrue(r, caps, fates, connected, quiet)
      {
        RunTrue(r, caps, fates, connected, quiet);
      }
    } else {
      RefusedFlagging(r, caps);
    }
  }

  lemma RunTrue(r: Request, caps: set<string>, fates: seq<Fate>, connected: bool, quiet: bool)
    requires r.source != r.target && NoFlaggingNeeded(r, caps)
    ensures ReportTrue(r, caps, fates, connected, quiet)
  {
    hide Move;
    hide Truthful;
    hide NoFlaggingNeeded;
    assert Request(r.start, r.source, r.uids, r.target) == r;
    ReportsTrue(World(r.start, caps, fates, []), connected, quiet, r.source, r.uids, r.target);
  }

  // --- a report that can be relied on ------------------------------------------------------

  /** No command of the run is refused, or none of the originals needs flagging. */
  ghost predicate Reliable(r: Request, w: World) {
    RefusedNo !in w.fates || (r.source != r.target && NoFlaggingNeeded(r, w.caps))
  }

  lemma SendNeverRefused(w: World, after: Option<Mailbox>)
    requires RefusedNo !in w.fates
    ensures w.Fate() != RefusedNo && RefusedNo !in w.Send(after).0.fates
  {
    var rest := w.Send(after).0.fates;
    assert w.fates != [] ==> w.fates == [w.fates[0]] + rest;
  }

  lemma SelectNeverRefused(w: World, folder: string, uids: seq<Uid>)
    requires RefusedNo !in w.fates
    ensures RefusedNo !in Select(w, folder, uids).0.fates
  {
    hide World.Send;
    hide Opened;
    hide Filter;
    SendNeverRefused(w, Opened(w.mailbox, folder));
    var w1 := w.Send(Opened(w.mailbox, folder)).0;
    SendNeverRefused(w1, Opened(w1.mailbox, folder));
  }

  lemma ReadyNeverRefused(w: World, connected: bool, probe: bool)
    requires RefusedNo !in w.fates
    ensures RefusedNo !in Ready(w, connected, probe).0.fates
  {
    hide World.Send;
    SendNeverRefused(w, Some(w.mailbox));
    var w1 := w.Send(Some(w.mailbox)).0;
    SendNeverRefused(w1, Some(w1.mailbox));
  }

  lemma NeverRefused(w: World, connected: bool, quiet: bool, source: string, uids: seq<Uid>, target: string)
    requires RefusedNo !in w.fates
    ensures BeforeFlagging(w, connected, quiet, source, uids, target).Fate() != RefusedNo
  {
    hide World.Send;
    hide World.Fate;
    hide Copied;
    hide Ready;
    hide Select;
    ReadyNeverRefused(w, connected, quiet);
    var w1 := Ready(w, connected, quiet).0;
    SelectNeverRefused(w1, source, uids);
    var (w2, found) := Select(w1, source, uids);
    var b := BeforeFlagging(w, connected, quiet, source, uids, target);
    if found.Ok? {
      SendNeverRefused(w2, Copied(w2.mailbox, source, found.value, target));
    }
    SendNeverRefused(b, None);
  }

  lemma ReliableReport(w: World, connected: bool, quiet: bool, source: string, uids: seq<Uid>, target: string)
    requires Reliable(Request(w.mailbox, source, uids, target), w)
    ensures var (w1, a) := Move(w, connected, quiet, source, uids, target);
            a.Ok? ==> Truthful(w1.mailbox, source, a.value.done, a.value.how)
  {
    hide Move;
    hide NonePresent;
    hide AllFlagged;
    hide NoFlaggingNeeded;
    if RefusedNo !in w.fates {
      NeverRefused(w, connected, quiet, source, uids, target);
      MoveTakesEffect(w, connected, quiet, source, uids, target);
    } else {
      ReportsTrue(w, connected, quiet, source, uids, target);
    }
    hide BeforeFlagging;
    hide Copied;
  }
}
