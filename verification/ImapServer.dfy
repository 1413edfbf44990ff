/** An IMAP server as the client sees it: folders of messages named by UID, commands that
    take effect as a whole, and a link that can break before or after any of them.
  */
module ImapServer {
  import opened Prelude

  type Uid = nat

  const DELETED: string := "\\Deleted"

  datatype Message = Message(body: string, flags: set<string>)

  /** `next` is UIDNEXT: a new message gets a UID no message of the folder ever had. */
  datatype Folder = Folder(next: Uid, msgs: map<Uid, Message>) {
    predicate Valid() {
      forall u :: u in msgs ==> u < next
    }

    function Add(m: Message): Folder {
      Folder(next + 1, msgs[next := m])
    }
  }

  type Mailbox = map<string, Folder>

  ghost predicate ValidMailbox(mb: Mailbox) {
    forall f :: f in mb ==> mb[f].Valid()
  }

  // --- effects of the commands; None is the server answering NO -------------------

  /** The listed messages a folder holds, once each. */
  function Existing(msgs: map<Uid, Message>, uids: seq<Uid>): seq<Uid> {
    if uids == [] then []
    else
      var n := |uids| - 1;
      var found := Existing(msgs, uids[..n]);
      if uids[n] in msgs && uids[n] !in found then found + [uids[n]] else found
  }

  /** `dst` after the messages `uids` of `msgs` were added to it, flags included. */
  function AddAll(msgs: map<Uid, Message>, uids: seq<Uid>, dst: Folder): Folder
    requires forall u :: u in uids ==> u in msgs
  {
    if uids == [] then dst
    else AddAll(msgs, uids[..|uids| - 1], dst).Add(msgs[uids[|uids| - 1]])
  }

  lemma ExistingExist(msgs: map<Uid, Message>, uids: seq<Uid>)
    ensures forall u :: u in Existing(msgs, uids) <==> u in uids && u in msgs
  {
    if uids != [] {
      var n := |uids| - 1;
      ExistingExist(msgs, uids[..n]);
      assert uids == uids[..n] + [uids[n]];
    }
  }

  function Copied(mb: Mailbox, source: string, uids: seq<Uid>, target: string): Option<Mailbox> {
    if source !in mb || target !in mb then None
    else
      ExistingExist(mb[source].msgs, uids);
      Some(mb[target := AddAll(mb[source].msgs, Existing(mb[source].msgs, uids), mb[target])])
  }

  function Flagged(mb: Mailbox, folder: string, uids: seq<Uid>, add: bool, flags: set<string>): Option<Mailbox> {
    if folder !in mb then None
    else
      var f := mb[folder];
      Some(mb[folder := f.(msgs := map u | u in f.msgs ::
                             if u !in uids then f.msgs[u]
                             else f.msgs[u].(flags := if add then f.msgs[u].flags + flags else f.msgs[u].flags - flags))])
  }

  function Removed(f: Folder, uids: seq<Uid>): Folder {
    f.(msgs := map u | u in f.msgs && u !in uids :: f.msgs[u])
  }

  /** RFC 6851: the messages are in the target and out of the source, in one step. */
  function MovedTo(mb: Mailbox, source: string, uids: seq<Uid>, target: string): Option<Mailbox> {
    match Copied(mb, source, uids, target)
    case None => None
    case Some(copied) => Some(copied[source := Removed(copied[source], Existing(mb[source].msgs, uids))])
  }

  predicate Purged(f: Folder, u: Uid) {
    u in f.msgs && DELETED in f.msgs[u].flags
  }

  /** UID EXPUNGE (RFC 4315 section 2.1): only listed messages, and only if flagged deleted. */
  function UidExpunged(mb: Mailbox, folder: string, uids: seq<Uid>): Option<Mailbox> {
    if folder !in mb then None
    else
      var f := mb[folder];
      Some(mb[folder := f.(msgs := map u | u in f.msgs && !(u in uids && Purged(f, u)) :: f.msgs[u])])
  }

  /** EXPUNGE: every message flagged deleted, whoever flagged it. */
  function Expunged(mb: Mailbox, folder: string): Option<Mailbox> {
    if folder !in mb then None
    else
      var f := mb[folder];
      Some(mb[folder := f.(msgs := map u | u in f.msgs && !Purged(f, u) :: f.msgs[u])])
  }

  function Appended(mb: Mailbox, folder: string, m: Message): Option<Mailbox> {
    if folder !in mb then None else Some(mb[folder := mb[folder].Add(m)])
  }

  /** A command that reads: it fails only on a folder that is not there. */
  function Opened(mb: Mailbox, folder: string): Option<Mailbox> {
    if folder !in mb then None else Some(mb)
  }

  // --- the link -------------------------------------------------------------------

  /** What becomes of one command: answered, refused (NO), rejected (BAD), or the link
      breaks before the server saw it, or after it was done. */
  datatype Fate = Answered | RefusedNo | RejectedBad | CutBefore | CutAfter

  datatype Reply = OK | NO | BAD | LOST

  /** `fates` decides for the commands to come (answered once it runs out); `trace` is
      every state the mailbox has been in. */
  datatype World = World(mailbox: Mailbox, caps: set<string>, fates: seq<Fate>, trace: seq<Mailbox>) {

    function Fate(): Fate {
      if fates == [] then Answered else fates[0]
    }

    /** Send a command whose effect is `after`. */
    function Send(after: Option<Mailbox>): (r: (World, Reply))
      ensures trace <= r.0.trace
    {
      var rest := if fates == [] then [] else fates[1..];
      var reply :=
        match Fate()
        case Answered => if after == None then NO else OK
        case RefusedNo => NO
        case RejectedBad => BAD
        case CutBefore => LOST
        case CutAfter => LOST;
      var mb := if after.Some? && (Fate() == Answered || Fate() == CutAfter) then after.value else mailbox;
      (World(mb, caps, rest, trace + [mb]), reply)
    }
  }
}
