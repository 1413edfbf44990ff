/** The mutations of the IMAP client: what each sends, in which order, and what it makes of
    the replies, whatever becomes of the link.
  */
module ImapCommands {
  import opened Prelude
  import opened ImapServer

  /** Why a call failed. Only a lost link makes `_call` reconnect and try again. */
  datatype Failure = ReadOnly | CannotOpen | NotFound | Refused | Rejected | LinkLost | Offline

  datatype Outcome = Outcome(done: seq<Uid>, missing: seq<Uid>, how: string)

  type Attempt<+T> = Result<T, Failure>

  function FailureOf(r: Reply): Failure {
    match r
    case NO => Refused
    case BAD => Rejected
    case _ => LinkLost
  }

  /** A SELECT answered NO raises the client's own error, which is not retried. */
  function OpenFailure(r: Reply): Failure {
    if r == NO then CannotOpen else FailureOf(r)
  }

  // --- connecting -----------------------------------------------------------------

  function Reconnect(w: World): (r: (World, bool))
    ensures w.trace <= r.0.trace
  {
    var (w1, r) := w.Send(Some(w.mailbox));
    (w1, r == OK)
  }

  /** A usable connection before the command: the one at hand, checked with NOOP first when
      `probe` asks for it, or a new one. */
  function Ready(w: World, connected: bool, probe: bool): (r: (World, bool))
    ensures w.trace <= r.0.trace
  {
    if !connected then Reconnect(w)
    else if probe then
      var (w1, r) := w.Send(Some(w.mailbox));
      if r == BAD || r == LOST then Reconnect(w1) else (w1, true)
    else (w, true)
  }

  /** `_call` with `retry=True`: once more, on a new connection, if the link broke. */
  function Retrying<T>(w: World, connected: bool, once: World -> (World, Attempt<T>)): (World, Attempt<T>) {
    var (w1, up) := Ready(w, connected, false);
    if !up then (w1, Err(Offline))
    else
      var (w2, a) := once(w1);
      if a == Err(LinkLost) then
        var (w3, again) := Reconnect(w2);
        if !again then (w3, Err(Offline)) else once(w3)
      else
        (w2, a)
  }

  /** `_call` with `retry=False`: once, on a connection that was checked if it was quiet. */
  function NotRetrying<T>(w: World, connected: bool, quiet: bool, once: World -> (World, Attempt<T>)): (World, Attempt<T>) {
    var (w1, up) := Ready(w, connected, quiet);
    if !up then (w1, Err(Offline)) else once(w1)
  }

  // --- which messages are there -----------------------------------------------------

  /** `[u for u in uids if u in found]`. */
  function Filter(uids: seq<Uid>, found: set<Uid>): seq<Uid> {
    if uids == [] then []
    else
      var n := |uids| - 1;
      if uids[n] in found then Filter(uids[..n], found) + [uids[n]] else Filter(uids[..n], found)
  }

  /** `[u for u in uids if u not in present]`. */
  function Missing(uids: seq<Uid>, present: seq<Uid>): seq<Uid> {
    if uids == [] then []
    else
      var n := |uids| - 1;
      if uids[n] in present then Missing(uids[..n], present) else Missing(uids[..n], present) + [uids[n]]
  }

  /** `_present`: a SEARCH answered NO tells nothing, so every UID is assumed there. */
  function Present(w: World, folder: string, uids: seq<Uid>): (r: (World, Attempt<seq<Uid>>))
    ensures r.1 != Err(Offline) && w.trace <= r.0.trace
  {
    var (w1, r) := w.Send(Opened(w.mailbox, folder));
    if r == BAD || r == LOST then (w1, Err(FailureOf(r)))
    else if r == NO || folder !in w.mailbox then (w1, Ok(uids))
    else (w1, Ok(Filter(uids, w.mailbox[folder].msgs.Keys)))
  }

  /** SELECT, then the search. */
  function Select(w: World, folder: string, uids: seq<Uid>): (r: (World, Attempt<seq<Uid>>))
    ensures r.1 != Err(Offline) && w.trace <= r.0.trace
  {
    var (w1, r) := w.Send(Opened(w.mailbox, folder));
    if r != OK then (w1, Err(OpenFailure(r))) else Present(w1, folder, uids)
  }

  // --- fetch_raw ------------------------------------------------------------------------

  function FetchOnce(w: World, folder: string, uid: Uid): (r: (World, Attempt<Message>))
    ensures r.1 != Err(Offline) && w.trace <= r.0.trace
  {
    var (w1, r) := w.Send(Opened(w.mailbox, folder));
    if r != OK then (w1, Err(OpenFailure(r)))
    else
      var (w2, e) := w1.Send(Opened(w1.mailbox, folder));
      if e != OK then (w2, Err(FailureOf(e)))
      else if folder in w1.mailbox && uid in w1.mailbox[folder].msgs then (w2, Ok(w1.mailbox[folder].msgs[uid]))
      else (w2, Err(NotFound))
  }

  function Fetch(w: World, connected: bool, folder: string, uid: Uid): (r: (World, Attempt<Message>))
    ensures w.trace <= r.0.trace
  {
    Retrying(w, connected, v => FetchOnce(v, folder, uid))
  }

  // --- store_flags --------------------------------------------------------------------

  function StoreOnce(w: World, folder: string, uids: seq<Uid>, add: bool, flags: set<string>): (r: (World, Attempt<seq<Uid>>))
    ensures r.1 != Err(Offline) && w.trace <= r.0.trace
  {
    var (w1, found) := Select(w, folder, uids);
    if found.Err? || found.value == [] then (w1, found)
    else
      var (w2, r) := w1.Send(Flagged(w1.mailbox, folder, found.value, add, flags));
      (w2, if r == OK then found else Err(FailureOf(r)))
  }

  function StoreFlags(w: World, connected: bool, folder: string, uids: seq<Uid>, add: bool, flags: set<string>)
    : (r: (World, Attempt<Outcome>))
    ensures w.trace <= r.0.trace
  {
    if uids == [] then (w, Ok(Outcome([], [], "")))
    else
      var (w1, a) := Retrying(w, connected, v => StoreOnce(v, folder, uids, add, flags));
      (w1, if a.Err? then Err(a.error) else Ok(Outcome(a.value, Missing(uids, a.value), "")))
  }

  // --- move ---------------------------------------------------------------------------

  function MoveOnce(w: World, source: string, uids: seq<Uid>, target: string): (r: (World, Attempt<(seq<Uid>, string)>))
    ensures r.1 != Err(Offline) && w.trace <= r.0.trace
  {
    var (w1, found) := Select(w, source, uids);
    if found.Err? then (w1, Err(found.error))
    else if found.value == [] then (w1, Ok(([], "moved")))
    else if "MOVE" in w.caps then
      var (w2, r) := w1.Send(MovedTo(w1.mailbox, source, found.value, target));
      (w2, if r == OK then Ok((found.value, "moved")) else Err(FailureOf(r)))
    else
      var (w2, r) := w1.Send(Copied(w1.mailbox, source, found.value, target));
      if r != OK then (w2, Err(FailureOf(r))) else FlagAndExpunge(w2, source, found.value)
  }

  /** After the copy. A STORE answered NO is not looked at. */
  function FlagAndExpunge(w: World, source: string, present: seq<Uid>): (r: (World, Attempt<(seq<Uid>, string)>))
    ensures r.1 != Err(Offline) && w.trace <= r.0.trace
  {
    var (w1, r) := w.Send(Flagged(w.mailbox, source, present, true, {DELETED}));
    if r == BAD || r == LOST then (w1, Err(FailureOf(r)))
    else if "UIDPLUS" in w.caps then
      var (w2, e) := w1.Send(UidExpunged(w1.mailbox, source, present));
      (w2, if e == OK then Ok((present, "uids")) else Err(FailureOf(e)))
    else
      (w1, Ok((present, "flagged")))
  }

  function Move(w: World, connected: bool, quiet: bool, source: string, uids: seq<Uid>, target: string)
    : (r: (World, Attempt<Outcome>))
    ensures w.trace <= r.0.trace
  {
    if uids == [] then (w, Ok(Outcome([], [], "")))
    else
      var (w1, a) := NotRetrying(w, connected, quiet, v => MoveOnce(v, source, uids, target));
      (w1, if a.Err? then Err(a.error) else Ok(Outcome(a.value.0, Missing(uids, a.value.0), a.value.1)))
  }

  // --- expunge ------------------------------------------------------------------------

  /** `uids` is None for the folder-wide form. */
  function ExpungeOnce(w: World, folder: string, uids: Option<seq<Uid>>, folderWide: bool): (r: (World, Attempt<string>))
    ensures r.1 != Err(Offline) && w.trace <= r.0.trace
  {
    var listed := uids.Some? && uids.value != [];
    var targeted := listed && "UIDPLUS" in w.caps;
    if !targeted && listed && !folderWide then (w, Ok("flagged"))
    else
      var (w1, r) := w.Send(Opened(w.mailbox, folder));
      if r != OK then (w1, Err(OpenFailure(r)))
      else
        var after := if targeted then UidExpunged(w1.mailbox, folder, uids.value) else Expunged(w1.mailbox, folder);
        var (w2, e) := w1.Send(after);
        (w2, if e == OK then Ok(if targeted then "uids" else "folder") else Err(FailureOf(e)))
  }

  function Expunge(w: World, connected: bool, folder: string, uids: Option<seq<Uid>>, folderWide: bool)
    : (r: (World, Attempt<string>))
    ensures w.trace <= r.0.trace
  {
    if uids == Some([]) then (w, Ok("none"))
    else Retrying(w, connected, v => ExpungeOnce(v, folder, uids, folderWide))
  }

  // --- append -------------------------------------------------------------------------

  /** The UID is known when the server says it (UIDPLUS). */
  function AppendOnce(w: World, folder: string, m: Message): (r: (World, Attempt<Option<Uid>>))
    ensures r.1 != Err(Offline) && w.trace <= r.0.trace
  {
    var (w1, r) := w.Send(Appended(w.mailbox, folder, m));
    if r != OK then (w1, Err(FailureOf(r)))
    else (w1, Ok(if "UIDPLUS" in w.caps && folder in w.mailbox then Some(w.mailbox[folder].next) else None))
  }

  function Append(w: World, connected: bool, quiet: bool, folder: string, m: Message): (r: (World, Attempt<Option<Uid>>))
    ensures w.trace <= r.0.trace
  {
    NotRetrying(w, connected, quiet, v => AppendOnce(v, folder, m))
  }

  // --- done and missing split the request -----------------------------------------------

  lemma {:induction false} FilterMembers(uids: seq<Uid>, found: set<Uid>)
    ensures forall u :: u in Filter(uids, found) <==> u in uids && u in found
  {
    if uids != [] {
      var n := |uids| - 1;
      FilterMembers(uids[..n], found);
      assert uids == uids[..n] + [uids[n]];
    }
  }

  lemma {:induction false} MissingMembers(uids: seq<Uid>, present: seq<Uid>)
    ensures forall u :: u in Missing(uids, present) <==> u in uids && u !in present
  {
    if uids != [] {
      var n := |uids| - 1;
      MissingMembers(uids[..n], present);
      assert uids == uids[..n] + [uids[n]];
    }
  }

  lemma {:induction false} SplitBy(uids: seq<Uid>, present: seq<Uid>, found: set<Uid>)
    requires forall u :: u in uids ==> (u in present <==> u in found)
    ensures multiset(uids) == multiset(Filter(uids, found)) + multiset(Missing(uids, present))
  {
    if uids != [] {
      var n := |uids| - 1;
      SplitBy(uids[..n], present, found);
      assert uids == uids[..n] + [uids[n]];
    }
  }

  lemma {:induction false} FilterAll(uids: seq<Uid>, found: set<Uid>)
    requires forall u :: u in uids ==> u in found
    ensures Filter(uids, found) == uids
  {
    if uids != [] {
      var n := |uids| - 1;
      FilterAll(uids[..n], found);
      assert uids == uids[..n] + [uids[n]];
    }
  }

  /** The two lists an outcome reports, for whatever was taken to be present. */
  ghost predicate Splits(uids: seq<Uid>, done: seq<Uid>, missing: seq<Uid>) {
    && multiset(uids) == multiset(done) + multiset(missing)
    && (forall u :: u in missing <==> u in uids && u !in done)
    && forall u :: u in done ==> u in uids
  }

  lemma PresentSplits(uids: seq<Uid>, present: seq<Uid>, found: set<Uid>)
    requires present == uids || present == Filter(uids, found)
    ensures Splits(uids, present, Missing(uids, present))
  {
    MissingMembers(uids, present);
    FilterMembers(uids, found);
    if present == uids {
      var all := set u | u in uids;
      FilterAll(uids, all);
      SplitBy(uids, present, all);
    } else {
      SplitBy(uids, present, found);
    }
  }
}
