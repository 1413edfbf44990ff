/** The client object: the connection it may hold, and its mutations as they run, one server
    command after another. Each is proved against the functions of `ImapCommands`.
  */
module ImapClient {
  import opened Prelude
  import opened ImapServer
  import opened ImapCommands

  /** The client as a value: what it talks to, whether it holds a connection, and whether the
      account was connected read-only. */
  datatype Client = Client(world: World, connected: bool, readOnly: bool) {

    /** After a call that may be retried the client holds a connection unless it could not get one. */
    function AfterRetrying<T>(r: (World, Attempt<T>)): (Client, Attempt<T>) {
      (Client(r.0, r.1 != Err(Offline), readOnly), r.1)
    }

    /** A broken link also loses the connection when the call is not retried. */
    function AfterOnce<T>(r: (World, Attempt<T>)): (Client, Attempt<T>) {
      (Client(r.0, r.1 != Err(Offline) && r.1 != Err(LinkLost), readOnly), r.1)
    }

    function Fetch(folder: string, uid: Uid): (Client, Attempt<Message>) {
      AfterRetrying(ImapCommands.Fetch(world, connected, folder, uid))
    }

    function StoreFlags(folder: string, uids: seq<Uid>, add: bool, flags: set<string>): (Client, Attempt<Outcome>) {
      if readOnly then (this, Err(ReadOnly))
      else if uids == [] then (this, Ok(Outcome([], [], "")))
      else AfterRetrying(ImapCommands.StoreFlags(world, connected, folder, uids, add, flags))
    }

    function Move(quiet: bool, source: string, uids: seq<Uid>, target: string): (Client, Attempt<Outcome>) {
      if readOnly then (this, Err(ReadOnly))
      else if uids == [] then (this, Ok(Outcome([], [], "")))
      else AfterOnce(ImapCommands.Move(world, connected, quiet, source, uids, target))
    }

    function Expunge(folder: string, uids: Option<seq<Uid>>, folderWide: bool): (Client, Attempt<string>) {
      if readOnly then (this, Err(ReadOnly))
      else if uids == Some([]) then (this, Ok("none"))
      else AfterRetrying(ImapCommands.Expunge(world, connected, folder, uids, folderWide))
    }

    function Append(quiet: bool, folder: string, m: Message): (Client, Attempt<Option<Uid>>) {
      if readOnly then (this, Err(ReadOnly))
      else AfterOnce(ImapCommands.Append(world, connected, quiet, folder, m))
    }
  }

  class ImapClient {
    var world: World
    var connected: bool
    const readOnly: bool

    constructor (world: World, readOnly: bool)
      ensures this.world == world && !connected && this.readOnly == readOnly
    {
      this.world, connected, this.readOnly := world, false, readOnly;
    }

    function View(): Client
      reads this
    {
      Client(world, connected, readOnly)
    }

    method Send(after: Option<Mailbox>) returns (r: Reply)
      modifies this`world
      ensures (world, r) == old(world).Send(after)
    {
      var sent := world.Send(after);
      world, r := sent.0, sent.1;
    }

    method EnsureConn() returns (up: bool)
      modifies this
      ensures (world, up) == old(if connected then (world, true) else Reconnect(world))
      ensures connected == up
    {
      if connected {
        return true;
      }
      var r := Send(Some(world.mailbox));
      connected := r == OK;
      return connected;
    }

    /** A connection that was quiet for a minute is checked before a command that must not run twice. */
    method Alive(quiet: bool)
      modifies this
      ensures var probed := old(world).Send(Some(old(world).mailbox));
              if !old(connected) || !quiet then world == old(world) && connected == old(connected)
              else world == probed.0 && connected == (probed.1 == OK || probed.1 == NO)
    {
      if !connected || !quiet {
        return;
      }
      var r := Send(Some(world.mailbox));
      if r == BAD || r == LOST {
        connected := false;
      }
    }

    method SearchPresent(folder: string, uids: seq<Uid>) returns (found: Attempt<seq<Uid>>)
      modifies this`world
      ensures (world, found) == Present(old(world), folder, uids)
    {
      var before := world.mailbox;
      var r := Send(Opened(before, folder));
      if r == BAD || r == LOST {
        return Err(FailureOf(r));
      }
      if r == NO {
        return Ok(uids);
      }
      found := Ok(if folder in before then Filter(uids, before[folder].msgs.Keys) else uids);
    }

    method RunStore(folder: string, uids: seq<Uid>, add: bool, flags: set<string>) returns (a: Attempt<seq<Uid>>)
      modifies this`world
      ensures (world, a) == StoreOnce(old(world), folder, uids, add, flags)
    {
      hide Flagged;
      var r := Send(Opened(world.mailbox, folder));
      if r != OK {
        return Err(OpenFailure(r));
      }
      a := SearchPresent(folder, uids);
      if a.Err? || a.value == [] {
        return;
      }
      r := Send(Flagged(world.mailbox, folder, a.value, add, flags));
      if r != OK {
        a := Err(FailureOf(r));
      }
    }

    method StoreFlags(folder: string, uids: seq<Uid>, add: bool, flags: set<string>) returns (a: Attempt<Outcome>)
      modifies this
      ensures (View(), a) == old(View()).StoreFlags(folder, uids, add, flags)
    {
      hide StoreOnce;
      if readOnly {
        return Err(ReadOnly);
      }
      if uids == [] {
        return Ok(Outcome([], [], ""));
      }
      var up := EnsureConn();
      if !up {
        return Err(Offline);
      }
      var present := RunStore(folder, uids, add, flags);
      if present == Err(LinkLost) {
        connected := false;
        up := EnsureConn();
        if !up {
          return Err(Offline);
        }
        present := RunStore(folder, uids, add, flags);
      }
      a := if present.Err? then Err(present.error) else Ok(Outcome(present.value, Missing(uids, present.value), ""));
    }

    method RunMove(source: string, uids: seq<Uid>, target: string) returns (a: Attempt<(seq<Uid>, string)>)
      modifies this`world
      ensures (world, a) == MoveOnce(old(world), source, uids, target)
    {
      hide Flagged;
      hide Copied;
      hide MovedTo;
      hide UidExpunged;
      var canMove := "MOVE" in world.caps;
      var r := Send(Opened(world.mailbox, source));
      if r != OK {
        return Err(OpenFailure(r));
      }
      var present := SearchPresent(source, uids);
      if present.Err? {
        return Err(present.error);
      }
      if present.value == [] {
        return Ok(([], "moved"));
      }
      if canMove {
        r := Send(MovedTo(world.mailbox, source, present.value, target));
        return if r == OK then Ok((present.value, "moved")) else Err(FailureOf(r));
      }
      r := Send(Copied(world.mailbox, source, present.value, target));
      if r != OK {
        return Err(FailureOf(r));
      }
      r := Send(Flagged(world.mailbox, source, present.value, true, {DELETED}));
      if r == BAD || r == LOST {
        return Err(FailureOf(r));
      }
      if "UIDPLUS" in world.caps {
        r := Send(UidExpunged(world.mailbox, source, present.value));
        return if r == OK then Ok((present.value, "uids")) else Err(FailureOf(r));
      }
      a := Ok((present.value, "flagged"));
    }

    method Move(quiet: bool, source: string, uids: seq<Uid>, target: string) returns (a: Attempt<Outcome>)
      modifies this
      ensures (View(), a) == old(View()).Move(quiet, source, uids, target)
    {
      hide MoveOnce;
      if readOnly {
        return Err(ReadOnly);
      }
      if uids == [] {
        return Ok(Outcome([], [], ""));
      }
      Alive(quiet);
      var up := EnsureConn();
      if !up {
        return Err(Offline);
      }
      var moved := RunMove(source, uids, target);
      if moved == Err(LinkLost) {
        connected := false;
      }
      a := if moved.Err? then Err(moved.error) else Ok(Outcome(moved.value.0, Missing(uids, moved.value.0), moved.value.1));
    }

    method RunExpunge(folder: string, uids: Option<seq<Uid>>, folderWide: bool) returns (a: Attempt<string>)
      modifies this`world
      ensures (world, a) == ExpungeOnce(old(world), folder, uids, folderWide)
    {
      hide UidExpunged;
      hide Expunged;
      var listed := uids.Some? && uids.value != [];
      var targeted := listed && "UIDPLUS" in world.caps;
      if !targeted && listed && !folderWide {
        return Ok("flagged");
      }
      var r := Send(Opened(world.mailbox, folder));
      if r != OK {
        return Err(OpenFailure(r));
      }
      if targeted {
        r := Send(UidExpunged(world.mailbox, folder, uids.value));
      } else {
        r := Send(Expunged(world.mailbox, folder));
      }
      a := if r == OK then Ok(if targeted then "uids" else "folder") else Err(FailureOf(r));
    }

    method Expunge(folder: string, uids: Option<seq<Uid>>, folderWide: bool) returns (a: Attempt<string>)
      modifies this
      ensures (View(), a) == old(View()).Expunge(folder, uids, folderWide)
    {
      hide ExpungeOnce;
      if readOnly {
        return Err(ReadOnly);
      }
      if uids == Some([]) {
        return Ok("none");
      }
      var up := EnsureConn();
      if !up {
        return Err(Offline);
      }
      a := RunExpunge(folder, uids, folderWide);
      if a == Err(LinkLost) {
        connected := false;
        up := EnsureConn();
        if !up {
          return Err(Offline);
        }
        a := RunExpunge(folder, uids, folderWide);
      }
    }

    method RunAppend(folder: string, m: Message) returns (a: Attempt<Option<Uid>>)
      modifies this`world
      ensures (world, a) == AppendOnce(old(world), folder, m)
    {
      hide Appended;
      var next := if folder in world.mailbox then Some(world.mailbox[folder].next) else None;
      var r := Send(Appended(world.mailbox, folder, m));
      a := if r != OK then Err(FailureOf(r)) else Ok(if "UIDPLUS" in world.caps then next else None);
    }

    method Append(quiet: bool, folder: string, m: Message) returns (a: Attempt<Option<Uid>>)
      modifies this
      ensures (View(), a) == old(View()).Append(quiet, folder, m)
    {
      hide AppendOnce;
      if readOnly {
        return Err(ReadOnly);
      }
      Alive(quiet);
      var up := EnsureConn();
      if !up {
        return Err(Offline);
      }
      a := RunAppend(folder, m);
      if a == Err(LinkLost) {
        connected := false;
      }
    }

    method RunFetch(folder: string, uid: Uid) returns (a: Attempt<Message>)
      modifies this`world
      ensures (world, a) == FetchOnce(old(world), folder, uid)
    {
      var r := Send(Opened(world.mailbox, folder));
      if r != OK {
        return Err(OpenFailure(r));
      }
      var before := world.mailbox;
      r := Send(Opened(before, folder));
      if r != OK {
        return Err(FailureOf(r));
      }
      if folder in before && uid in before[folder].msgs {
        return Ok(before[folder].msgs[uid]);
      }
      a := Err(NotFound);
    }

    method Fetch(folder: string, uid: Uid) returns (a: Attempt<Message>)
      modifies this
      ensures (View(), a) == old(View()).Fetch(folder, uid)
    {
      hide FetchOnce;
      var up := EnsureConn();
      if !up {
        return Err(Offline);
      }
      a := RunFetch(folder, uid);
      if a == Err(LinkLost) {
        connected := false;
        up := EnsureConn();
        if !up {
          return Err(Offline);
        }
        a := RunFetch(folder, uid);
      }
    }
  }
}
