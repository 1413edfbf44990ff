/** What each call over the shared connection comes to. A run is read from its steps and its
    log, one task at a time: the command threads the task started, how they ended, the answers
    of the token endpoint, and whether the task was cancelled.
  */
module ImapCalls {
  import opened Prelude
  import opened ImapSession

  // --- what happens to one task -------------------------------------------------

  datatype Note =
    | Entered(quiet: bool, current: Option<ConnId>)          // got the lock
    | Begun(conn: ConnId, purpose: Purpose)                  // a command thread was started
    | Ended(conn: ConnId, purpose: Purpose, outcome: Outcome)
    | Token(ok: bool)
    | Cancelled

  /** The entry for `t` that a step adds to the log, if it does. */
  function BegunBy(before: seq<Event>, after: seq<Event>, t: TaskId): seq<Note> {
    if |after| == |before| + 1 && after[|before|].Started? && after[|before|].task == t then
      [Begun(after[|before|].conn, after[|before|].purpose)]
    else
      []
  }

  /** What the step itself means to `t`. */
  function Cause(s: State, step: Step, t: TaskId): seq<Note> {
    match step
    case Acquire(u, quiet) => if u == t then [Entered(quiet, s.conn)] else []
    case TokenReply(u, ok) => if u == t then [Token(ok)] else []
    case ThreadEnds(th, o) =>
      if th in s.threads && s.threads[th].Command? && s.threads[th].task == t then
        [Ended(s.threads[th].conn, s.threads[th].purpose, o)]
      else
        []
    case Cancel(u) => if u == t then [Cancelled] else []
    case _ => []
  }

  function NotesOf(s: State, step: Step, t: TaskId): seq<Note>
    requires Enabled(s, step)
  {
    Cause(s, step, t) + BegunBy(s.log, Apply(s, step).log, t)
  }

  function Notes(s: State, steps: seq<Step>, t: TaskId): seq<Note>
    requires IsRun(s, steps)
    decreases |steps|
  {
    if steps == [] then []
    else NotesOf(s, steps[0], t) + Notes(Apply(s, steps[0]), steps[1..], t)
  }

  /** An ended attempt: the connection it was made on and how it ended. */
  datatype Attempt = Attempt(conn: ConnId, outcome: Outcome)

  /** The attempts at the task's own command that have ended. */
  function Works(notes: seq<Note>): seq<Attempt> {
    if notes == [] then []
    else
      var n := notes[|notes| - 1];
      Works(notes[..|notes| - 1]) + if n.Ended? && n.purpose == Work then [Attempt(n.conn, n.outcome)] else []
  }

  /** The note after which no command is started: no token, no login, or a probe that raised
      something other than an IMAP or network error. */
  predicate Hopeless(n: Note) {
    match n
    case Token(ok) => !ok
    case Ended(_, p, o) => (p == Login && o != Success) || (p == Probe && o == Failed)
    case _ => false
  }

  predicate Stopped(notes: seq<Note>) {
    exists i :: 0 <= i < |notes| && Hopeless(notes[i])
  }

  /** What a call that ran to its end has done: its command once, or a second time on another
      connection exactly if it may be repeated and the link broke; and if a connection could
      not be had, only what came before. */
  predicate Served(retry: bool, works: seq<Attempt>, stopped: bool) {
    var again := retry && |works| >= 1 && works[0].outcome == LinkLost;
    && |works| == (if again then 2 else 1) - (if stopped then 1 else 0)
    && (|works| == 2 ==> works[0].conn != works[1].conn)
  }

  // --- what is known of a task at each await --------------------------------------

  /** The attempts made before attempt number `n` starts. */
  predicate Before(s: State, retry: bool, works: seq<Attempt>, n: nat) {
    || (n == 1 && works == [])
    || (n == 2 && retry && |works| == 1 && works[0].outcome == LinkLost
        && works[0].conn < s.nextConn && s.conn != Some(works[0].conn))
  }

  predicate Follows(s: State, task: Task, works: seq<Attempt>, stopped: bool, cancelled: bool)
    requires task.kind.Call?
  {
    var retry := task.kind.retry;
    match task.pc
    case Finished => cancelled || (Served(retry, works, stopped) && task.starts == |works|)
    case Draining(_, _, _) => cancelled
    case Discarding(_) => cancelled
    case _ => !cancelled && Underway(s, task.pc, retry, works, stopped)
  }

  predicate Underway(s: State, pc: Pc, retry: bool, works: seq<Attempt>, stopped: bool) {
    match pc
    case Queued => works == [] && !stopped
    case Probing(th, _) => works == [] && (stopped <==> th in s.results && s.results[th] == Failed)
    case Replacing(_) => works == [] && !stopped
    case AwaitingToken(n) => Before(s, retry, works, n) && !stopped
    case Opening(th, c, n) =>
      && Before(s, retry, works, n)
      && (works != [] ==> works[0].conn != c)
      && (stopped <==> th in s.results && s.results[th] != Success)
    case Running(th, c, n) =>
      && !stopped
      && (n == 1 || (n == 2 && retry && |works| >= 1 && works[0].outcome == LinkLost && works[0].conn != c))
      && (if th in s.results then |works| == n && works[n - 1] == Attempt(c, s.results[th]) else |works| == n - 1)
    case Reconnecting(_) =>
      && !stopped
      && |works| == 1 && works[0].outcome == LinkLost
      && works[0].conn < s.nextConn && s.conn == None
    case _ => false
  }

  /** The thread a task awaits is its own, and runs or has ended. */
  ghost predicate Linked(s: State, t: TaskId, pc: Pc) {
    match pc
    case Probing(th, c) => Awaited(s, th, Command(t, c, Probe))
    case Opening(th, c, _) => Awaited(s, th, Command(t, c, Login))
    case Running(th, c, _) => Awaited(s, th, Command(t, c, Work))
    case Draining(th, c, login) =>
      && th in s.threads.Keys + s.results.Keys
      && (login && th in s.threads ==> s.threads[th] == Command(t, c, Login))
    case Queued => true
    case AwaitingToken(_) => true
    case Finished => true
    case _ => pc.th in s.threads.Keys + s.results.Keys
  }

  ghost predicate Awaited(s: State, th: ThreadId, thread: Thread) {
    th in s.threads.Keys + s.results.Keys && (th in s.threads ==> s.threads[th] == thread)
  }

  /** What is known of `t`, and how it agrees with its notes in short. */
  ghost predicate Fits(s: State, t: TaskId, works: seq<Attempt>, stopped: bool, cancelled: bool) {
    t in s.tasks &&
    var linked, follows := Linked(s, t, s.tasks[t].pc), s.tasks[t].kind.Call? ==> Follows(s, s.tasks[t], works, stopped, cancelled);
    linked && follows
  }

  ghost predicate Known(s: State, t: TaskId, notes: seq<Note>) {
    if t !in s.tasks then notes == [] else Fits(s, t, Works(notes), Stopped(notes), Cancelled in notes)
  }

  lemma NotesMore(notes: seq<Note>, n: Note)
    ensures Works(notes + [n])
         == Works(notes) + if n.Ended? && n.purpose == Work then [Attempt(n.conn, n.outcome)] else []
    ensures Stopped(notes + [n]) <==> Stopped(notes) || Hopeless(n)
  {
    assert (notes + [n])[..|notes|] == notes;
    if Stopped(notes) {
      var i :| 0 <= i < |notes| && Hopeless(notes[i]);
      assert Hopeless((notes + [n])[i]);
    }
    if Hopeless(n) {
      assert Hopeless((notes + [n])[|notes|]);
    }
  }

  /** Notes that tell nothing of attempts or failures. */
  predicate Plain(notes: seq<Note>) {
    |notes| <= 1 && forall n :: n in notes ==> !n.Ended? && !Hopeless(n) && !n.Cancelled?
  }

  lemma PlainMore(notes: seq<Note>, more: seq<Note>)
    requires Plain(more)
    ensures Works(notes + more) == Works(notes)
    ensures Stopped(notes + more) <==> Stopped(notes)
    ensures Cancelled in notes + more <==> Cancelled in notes
  {
    if more == [] {
      assert notes + more == notes;
    } else {
      NotesMore(notes, more[0]);
      assert more == [more[0]];
      assert more[0] in more;
    }
  }

  // --- the task's own steps ---------------------------------------------------------

  /** Only `t` is at work, and its attempts so far are `works`. */
  ghost predicate Busy(s: State, t: TaskId) {
    && t in s.tasks && s.tasks[t].kind.Call?
    && (forall th :: th in s.threads || th in s.results ==> th < s.nextThread)
    && (s.conn.Some? ==> s.conn.value < s.nextConn)
  }

  lemma MidIsBusy(s: State, t: TaskId)
    requires Mid(s, t) && s.tasks[t].kind.Call?
    ensures Busy(s, t)
  {
    hide LogSafe, CountInv, StartsOf, StartsFit;
  }

  lemma RunIs(s: State, t: TaskId, c: ConnId, n: nat)
    requires t in s.tasks
    ensures var after := Run(s, t, c, n);
            && t in after.tasks
            && after.tasks[t] == s.tasks[t].(pc := Running(s.nextThread, c, n), starts := s.tasks[t].starts + 1)
            && after.threads == s.threads[s.nextThread := Command(t, c, Work)]
            && after.results == s.results && after.conn == s.conn && after.nextConn == s.nextConn
  {
  }

  lemma RunFollows(s: State, t: TaskId, c: ConnId, n: nat, works: seq<Attempt>)
    requires Busy(s, t) && s.conn == Some(c)
    requires Before(s, s.tasks[t].kind.retry, works, n)
    ensures Fits(Run(s, t, c, n), t, works, false, false)
  {
    RunIs(s, t, c, n);
    hide Run;
  }

  lemma OpenFollows(s: State, t: TaskId, n: nat, works: seq<Attempt>)
    requires Busy(s, t)
    requires Before(s, s.tasks[t].kind.retry, works, n)
    ensures Fits(Open(s, t, n), t, works, false, false)
  {
  }

  lemma EnsureFollows(s: State, t: TaskId, n: nat, works: seq<Attempt>)
    requires Busy(s, t)
    requires Before(s, s.tasks[t].kind.retry, works, n)
    ensures Fits(Ensure(s, t, n), t, works, false, false)
  {
    if s.conn.Some? && s.conn.value in s.usable {
      RunFollows(s, t, s.conn.value, n, works);
    } else if !s.oauth {
      OpenFollows(s, t, n, works);
    }
    hide Run, Open;
  }

  lemma ReleaseFollows(s: State, t: TaskId, works: seq<Attempt>, stopped: bool, cancelled: bool)
    requires Busy(s, t)
    requires cancelled || (Served(s.tasks[t].kind.retry, works, stopped) && s.tasks[t].starts == |works|)
    ensures Fits(Release(s, t), t, works, stopped, cancelled)
  {
  }

  lemma DropFollows(s: State, t: TaskId, pc: Pc, works: seq<Attempt>, stopped: bool, cancelled: bool)
    requires Busy(s, t) && s.conn.Some?
    requires (pc.Replacing? || pc.Reconnecting? || pc.Discarding?) && pc.th == s.nextThread
    requires Follows(Drop(s), s.tasks[t].(pc := pc), works, stopped, cancelled)
    ensures Fits(At(Drop(s), t, pc), t, works, stopped, cancelled)
  {
  }

  /** A task that is about to go on, and what it knows. */
  ghost predicate Resumes(s: State, t: TaskId, works: seq<Attempt>, stopped: bool, cancelled: bool) {
    Busy(s, t) && StartsFit(s.tasks[t]) && Fits(s, t, works, stopped, cancelled)
  }

  lemma ProbeFollows(s: State, t: TaskId, works: seq<Attempt>, stopped: bool, cancelled: bool)
    requires Resumes(s, t, works, stopped, cancelled)
    requires s.tasks[t].pc.Probing? && s.tasks[t].pc.th in s.results
    ensures Fits(AfterProbe(s, t, s.results[s.tasks[t].pc.th]), t, works, stopped, cancelled)
  {
    hide Ensure, Release, Linked;
    var o := s.results[s.tasks[t].pc.th];
    if o == Success || (o != Failed && s.conn == None) {
      EnsureFollows(s, t, 1, works);
    } else if o == Failed {
      ReleaseFollows(s, t, works, stopped, cancelled);
    } else {
      DropFollows(s, t, Replacing(s.nextThread), works, stopped, cancelled);
    }
  }

  lemma LoginFollows(s: State, t: TaskId, works: seq<Attempt>, stopped: bool, cancelled: bool)
    requires Resumes(s, t, works, stopped, cancelled)
    requires s.tasks[t].pc.Opening? && s.tasks[t].pc.th in s.results
    requires s.tasks[t].pc.conn < s.nextConn
    ensures var pc := s.tasks[t].pc;
            Fits(AfterLogin(s, t, pc.conn, pc.attempt, s.results[pc.th]), t, works, stopped, cancelled)
  {
    hide Run, Release, Linked;
    var pc := s.tasks[t].pc;
    if s.results[pc.th] == Success {
      RunFollows(s.(conn := Some(pc.conn)), t, pc.conn, pc.attempt, works);
    } else {
      ReleaseFollows(s, t, works, stopped, cancelled);
    }
  }

  lemma LinkLostFollows(s: State, t: TaskId, works: seq<Attempt>, stopped: bool, cancelled: bool)
    requires Resumes(s, t, works, stopped, cancelled) && s.tasks[t].pc.Reconnecting?
    ensures Fits(AfterLinkLost(s, t), t, works, stopped, cancelled)
  {
    hide Ensure, Release, Linked;
    if s.tasks[t].kind == Call(true) {
      EnsureFollows(s, t, 2, works);
    } else {
      ReleaseFollows(s, t, works, stopped, cancelled);
    }
  }

  lemma CommandFollows(s: State, t: TaskId, works: seq<Attempt>, stopped: bool, cancelled: bool)
    requires Resumes(s, t, works, stopped, cancelled)
    requires s.tasks[t].pc.Running? && s.tasks[t].pc.th in s.results && s.conn == Some(s.tasks[t].pc.conn)
    ensures var pc := s.tasks[t].pc;
            Fits(AfterCommand(s, t, pc.attempt, s.results[pc.th]), t, works, stopped, cancelled)
  {
    hide AfterLinkLost, Release, Linked;
    var pc := s.tasks[t].pc;
    if s.results[pc.th] == LinkLost && pc.attempt == 1 {
      DropFollows(s, t, Reconnecting(s.nextThread), works, stopped, cancelled);
    } else {
      ReleaseFollows(s, t, works, stopped, cancelled);
    }
  }

  lemma DrainFollows(s: State, t: TaskId, works: seq<Attempt>, stopped: bool, c: ConnId, login: bool, o: Outcome)
    requires Busy(s, t)
    ensures Fits(AfterDrain(s, t, c, login, o), t, works, stopped, true)
  {
  }

  // --- every step -------------------------------------------------------------------

  /** What `t` knows after a step: the cause is told, and the start of a thread tells nothing. */
  lemma Settled(s: State, step: Step, t: TaskId, notes: seq<Note>)
    requires Enabled(s, step)
    requires var told := notes + Cause(s, step, t);
             Fits(Apply(s, step), t, Works(told), Stopped(told), Cancelled in told)
    ensures Known(Apply(s, step), t, notes + NotesOf(s, step, t))
  {
    hide Works, Stopped, Apply, Linked, Follows, Cause;
    var begun := BegunBy(s.log, Apply(s, step).log, t);
    PlainMore(notes + Cause(s, step, t), begun);
    assert notes + (Cause(s, step, t) + begun) == notes + Cause(s, step, t) + begun;
  }

  lemma AcquireFits(s: State, t: TaskId, quiet: bool, works: seq<Attempt>, stopped: bool, cancelled: bool)
    requires Inv(s) && Enabled(s, Acquire(t, quiet)) && Fits(s, t, works, stopped, cancelled)
    ensures Fits(Apply(s, Acquire(t, quiet)), t, works, stopped, cancelled)
  {
    AcquiredIsMid(s, t);
    hide Inv, Mid, Ensure, Drop, Release, Inside;
    if s.tasks[t].kind.Call? {
      MidIsBusy(s.(lock := Some(t)), t);
      CallFits(s, t, quiet);
    } else {
      CloseFits(s, t, quiet, works, stopped, cancelled);
    }
  }

  lemma CallFits(s: State, t: TaskId, quiet: bool)
    requires Enabled(s, Acquire(t, quiet)) && s.tasks[t].kind.Call?
    requires Busy(s.(lock := Some(t)), t)
    ensures Fits(Apply(s, Acquire(t, quiet)), t, [], false, false)
  {
    if s.tasks[t].kind.retry || !quiet || s.conn == None {
      EnsureFollows(s.(lock := Some(t)), t, 1, []);
      hide Ensure;
    }
  }

  lemma CloseFits(s: State, t: TaskId, quiet: bool, works: seq<Attempt>, stopped: bool, cancelled: bool)
    requires Enabled(s, Acquire(t, quiet)) && s.tasks[t].kind == Close
    ensures Fits(Apply(s, Acquire(t, quiet)), t, works, stopped, cancelled)
  {
  }

  lemma TokenFits(s: State, t: TaskId, ok: bool, works: seq<Attempt>, stopped: bool, cancelled: bool)
    requires Inv(s) && Enabled(s, TokenReply(t, ok)) && Fits(s, t, works, stopped, cancelled)
    ensures Fits(Apply(s, TokenReply(t, ok)), t, works, stopped || !ok, cancelled)
  {
    WaitingIsMid(s, t);
    InvAt(s, t);
    MidIsBusy(s, t);
    hide Inv, Mid, Open, Release;
    if ok {
      OpenFollows(s, t, s.tasks[t].pc.attempt, works);
    } else {
      ReleaseFollows(s, t, works, true, false);
    }
  }

  lemma ResumeFits(s: State, t: TaskId, works: seq<Attempt>, stopped: bool, cancelled: bool)
    requires Inv(s) && Enabled(s, Resume(t)) && Fits(s, t, works, stopped, cancelled)
    ensures Fits(Apply(s, Resume(t)), t, works, stopped, cancelled)
  {
    ResumedIsMid(s, t);
    InvAt(s, t);
    hide Inv, Mid, Apply, StartsFit, PcInv;
    if s.tasks[t].kind.Call? {
      MidIsBusy(s, t);
      ResumedFits(s, t, works, stopped, cancelled);
    } else {
      CloseResumed(s, t, works, stopped, cancelled);
    }
  }

  /** A task that closes the connection waits for nothing but its logout. */
  lemma CloseResumed(s: State, t: TaskId, works: seq<Attempt>, stopped: bool, cancelled: bool)
    requires Enabled(s, Resume(t)) && s.tasks[t].kind == Close && StartsFit(s.tasks[t])
    ensures Fits(Apply(s, Resume(t)), t, works, stopped, cancelled)
  {
    hide Ensure, AfterLogin, AfterProbe, AfterLinkLost;
  }

  lemma ResumedFits(s: State, t: TaskId, works: seq<Attempt>, stopped: bool, cancelled: bool)
    requires Enabled(s, Resume(t)) && Resumes(s, t, works, stopped, cancelled) && PcInv(s, s.tasks[t].pc)
    ensures Fits(Apply(s, Resume(t)), t, works, stopped, cancelled)
  {
    hide Ensure, Release, AfterLogin, AfterProbe, AfterCommand, AfterLinkLost, AfterDrain, Linked;
    match s.tasks[t].pc
    case Probing(_, _) => ProbeFollows(s, t, works, stopped, cancelled);
    case Replacing(_) => EnsureFollows(s, t, 1, works);
    case Opening(_, _, _) => LoginFollows(s, t, works, stopped, cancelled);
    case Running(_, _, _) => CommandFollows(s, t, works, stopped, cancelled);
    case Reconnecting(_) => LinkLostFollows(s, t, works, stopped, cancelled);
    case Draining(th, c, login) => DrainFollows(s, t, works, stopped, c, login, s.results[th]);
    case Discarding(_) => ReleaseFollows(s, t, works, stopped, cancelled);
    case _ =>
  }

  /** Where a cancelled task goes. */
  function CancelledPc(pc: Pc): Pc {
    match pc
    case Probing(th, c) => Draining(th, c, false)
    case Running(th, c, _) => Draining(th, c, false)
    case Opening(th, c, _) => Draining(th, c, true)
    case Draining(_, _, _) => pc
    case _ => Finished
  }

  /** A cancelled task has left, or waits for what it started. */
  lemma CancelIs(s: State, t: TaskId)
    requires Enabled(s, Cancel(t))
    ensures var after := Apply(s, Cancel(t));
            && t in after.tasks && after.tasks[t].kind == s.tasks[t].kind
            && after.tasks[t].pc == CancelledPc(s.tasks[t].pc)
            && after.nextConn == s.nextConn && after.threads == s.threads && after.results == s.results
  {
    hide Spawn, Ensure, Drop;
    match s.tasks[t].pc
    case Queued =>
    case Probing(_, _) =>
    case Running(_, _, _) =>
    case Opening(_, _, _) =>
    case Draining(_, _, _) =>
    case _ =>
  }

  lemma CancelStartsNothing(s: State, t: TaskId)
    requires Enabled(s, Cancel(t))
    ensures BegunBy(s.log, Apply(s, Cancel(t)).log, t) == []
  {
  }

  lemma FitsIsLinked(s: State, t: TaskId, works: seq<Attempt>, stopped: bool, cancelled: bool)
    requires Fits(s, t, works, stopped, cancelled)
    ensures t in s.tasks && Linked(s, t, s.tasks[t].pc)
  {
  }

  lemma CancelFits(s: State, t: TaskId, works: seq<Attempt>, stopped: bool)
    requires Enabled(s, Cancel(t)) && Linked(s, t, s.tasks[t].pc)
    ensures Fits(Apply(s, Cancel(t)), t, works, stopped, true)
  {
    CancelIs(s, t);
    hide Apply;
  }

  lemma ArriveFits(s: State, t: TaskId, kind: Kind)
    requires Enabled(s, Arrive(t, kind))
    ensures Fits(Apply(s, Arrive(t, kind)), t, [], false, false)
  {
  }

  /** The task a step runs or cancels; none for the end of a thread or of a link. */
  function Actor(step: Step): Option<TaskId> {
    match step
    case Arrive(u, _) => Some(u)
    case Acquire(u, _) => Some(u)
    case TokenReply(u, _) => Some(u)
    case Resume(u) => Some(u)
    case Cancel(u) => Some(u)
    case _ => None
  }

  lemma NoNotes()
    ensures Works([]) == [] && !Stopped([])
  {
  }

  /** The task's own steps. */
  lemma OwnFollows(s: State, step: Step, t: TaskId, notes: seq<Note>)
    requires Inv(s) && Enabled(s, step) && Known(s, t, notes) && Actor(step) == Some(t)
    ensures Known(Apply(s, step), t, notes + NotesOf(s, step, t))
  {
    hide Inv, Apply, Works, Stopped, Fits, NotesOf;
    var works, stopped := Works(notes), Stopped(notes);
    match step
    case Arrive(_, kind) =>
      assert notes + [] == [];
      NoNotes();
      ArriveFits(s, t, kind);
      Settled(s, step, t, notes);
    case Acquire(_, quiet) =>
      PlainMore(notes, [Entered(quiet, s.conn)]);
      AcquireFits(s, t, quiet, works, stopped, Cancelled in notes);
      Settled(s, step, t, notes);
    case TokenReply(_, ok) =>
      NotesMore(notes, Token(ok));
      assert works + [] == works;
      assert Cancelled in notes + [Token(ok)] <==> Cancelled in notes;
      TokenFits(s, t, ok, works, stopped, Cancelled in notes);
      Settled(s, step, t, notes);
    case Resume(_) =>
      PlainMore(notes, []);
      ResumeFits(s, t, works, stopped, Cancelled in notes);
      Settled(s, step, t, notes);
    case Cancel(_) =>
      NotesMore(notes, Cancelled);
      assert works + [] == works;
      assert Cancelled in notes + [Cancelled];
      FitsIsLinked(s, t, works, stopped, Cancelled in notes);
      CancelFits(s, t, works, stopped);
      Settled(s, step, t, notes);
  }

  // --- the end of a thread --------------------------------------------------------------

  /** The end of a command thread is noted by its task; of any other thread by none. */
  lemma EndIs(s: State, th: ThreadId, o: Outcome, t: TaskId)
    requires th in s.threads
    ensures NotesOf(s, ThreadEnds(th, o), t) ==
            if s.threads[th].Command? && s.threads[th].task == t then
              [Ended(s.threads[th].conn, s.threads[th].purpose, o)]
            else
              []
  {
  }

  lemma EndFollows(s: State, th: ThreadId, o: Outcome, t: TaskId, notes: seq<Note>)
    requires Inv(s) && th in s.threads && Known(s, t, notes)
    ensures Known(Apply(s, ThreadEnds(th, o)), t, notes + NotesOf(s, ThreadEnds(th, o), t))
  {
    hide Apply, Works, Stopped, Fits, NotesOf, Inv;
    EndIs(s, th, o, t);
    EndedIs(s, th, o);
    if s.threads[th].Command? {
      OwnedThread(s, th);
    }
    if t in s.tasks && s.threads[th].Command? && s.threads[th].task == t {
      var e := Ended(s.threads[th].conn, s.threads[th].purpose, o);
      NotesMore(notes, e);
      assert Cancelled in notes + [e] <==> Cancelled in notes;
      OwnEndFits(s, th, o, Works(notes), Stopped(notes), Cancelled in notes);
    } else {
      assert notes + [] == notes;
      if t in s.tasks {
        Unended(s, th);
        OtherEndFits(s, th, o, t, Works(notes), Stopped(notes), Cancelled in notes);
      }
    }
  }

  lemma Unended(s: State, th: ThreadId)
    requires Inv(s) && th in s.threads
    ensures th !in s.results
  {
  }

  lemma OwnedThread(s: State, th: ThreadId)
    requires Inv(s) && th in s.threads && s.threads[th].Command?
    ensures th !in s.results && s.threads[th].task in s.tasks
    ensures Awaits(s.tasks[s.threads[th].task].pc, th, s.threads[th].conn)
    ensures StartsFit(s.tasks[s.threads[th].task])
  {
    hide LogSafe, ConnInv, StartsOf, StartsFit;
  }

  /** The state `s` once the thread has ended, as far as its task can tell. */
  lemma EndedIs(s: State, th: ThreadId, o: Outcome)
    requires th in s.threads
    ensures var after := Apply(s, ThreadEnds(th, o));
            && after.threads == s.threads - {th} && after.results == s.results[th := o]
            && after.tasks == s.tasks && after.conn == s.conn && after.nextConn == s.nextConn
  {
  }

  lemma OwnEndFits(s: State, th: ThreadId, o: Outcome, works: seq<Attempt>, stopped: bool, cancelled: bool)
    requires th in s.threads && th !in s.results && s.threads[th].Command?
    requires s.threads[th].task in s.tasks && StartsFit(s.tasks[s.threads[th].task])
    requires Awaits(s.tasks[s.threads[th].task].pc, th, s.threads[th].conn)
    requires Fits(s, s.threads[th].task, works, stopped, cancelled)
    ensures var thread := s.threads[th];
            Fits(Apply(s, ThreadEnds(th, o)), thread.task,
                 works + (if thread.purpose == Work then [Attempt(thread.conn, o)] else []),
                 stopped || Hopeless(Ended(thread.conn, thread.purpose, o)), cancelled)
  {
    EndedIs(s, th, o);
    hide Apply;
  }

  lemma OtherEndFits(s: State, th: ThreadId, o: Outcome, t: TaskId, works: seq<Attempt>, stopped: bool, cancelled: bool)
    requires th in s.threads && th !in s.results && t in s.tasks && Fits(s, t, works, stopped, cancelled)
    requires s.threads[th].Command? ==> s.threads[th].task != t
    ensures Fits(Apply(s, ThreadEnds(th, o)), t, works, stopped, cancelled)
  {
    EndedIs(s, th, o);
    hide Apply;
  }

  // --- other tasks -----------------------------------------------------------------------

  /** Nothing of `t` is changed, and no thread is started for it. */
  ghost predicate Elsewhere(s: State, after: State, t: TaskId) {
    && (t in after.tasks <==> t in s.tasks)
    && (t in s.tasks ==> after.tasks[t] == s.tasks[t])
    && after.results == s.results && after.nextConn >= s.nextConn
    && (forall th :: th in s.threads ==> th in after.threads)
    && (forall th :: th in after.threads ==> if th < s.nextThread then th in s.threads && after.threads[th] == s.threads[th] else th == s.nextThread)
    && BegunBy(s.log, after.log, t) == []
  }

  /** `u` is at work: the pieces between two awaits change nothing of another task. */
  lemma EnsureElsewhere(s: State, u: TaskId, n: nat, t: TaskId)
    requires u in s.tasks && u != t
    requires forall th :: th in s.threads ==> th < s.nextThread
    ensures Elsewhere(s, Ensure(s, u, n), t)
  {
  }

  lemma RunElsewhere(s: State, u: TaskId, c: ConnId, n: nat, t: TaskId)
    requires u in s.tasks && u != t
    requires forall th :: th in s.threads ==> th < s.nextThread
    ensures Elsewhere(s, Run(s, u, c, n), t)
  {
  }

  /** The other things a task does when it goes on. */
  lemma DropElsewhere(s: State, u: TaskId, pc: Pc, t: TaskId)
    requires u in s.tasks && u != t && s.conn.Some?
    requires forall th :: th in s.threads ==> th < s.nextThread
    ensures Elsewhere(s, At(Drop(s), u, pc), t)
  {
  }

  lemma ReleaseElsewhere(s: State, u: TaskId, t: TaskId)
    requires u in s.tasks && u != t
    requires forall th :: th in s.threads ==> th < s.nextThread
    ensures Elsewhere(s, Release(s, u), t)
  {
  }

  lemma DrainElsewhere(s: State, u: TaskId, c: ConnId, login: bool, o: Outcome, t: TaskId)
    requires u in s.tasks && u != t
    requires forall th :: th in s.threads ==> th < s.nextThread
    ensures Elsewhere(s, AfterDrain(s, u, c, login, o), t)
  {
  }

  lemma ProbeElsewhere(s: State, u: TaskId, o: Outcome, t: TaskId)
    requires u in s.tasks && u != t
    requires forall th :: th in s.threads ==> th < s.nextThread
    ensures Elsewhere(s, AfterProbe(s, u, o), t)
  {
    EnsureElsewhere(s, u, 1, t);
    ReleaseElsewhere(s, u, t);
    if s.conn.Some? {
      DropElsewhere(s, u, Replacing(s.nextThread), t);
    }
    hide Ensure, Release, Drop, Elsewhere;
  }

  lemma CommandElsewhere(s: State, u: TaskId, n: nat, o: Outcome, t: TaskId)
    requires u in s.tasks && u != t
    requires forall th :: th in s.threads ==> th < s.nextThread
    ensures Elsewhere(s, AfterCommand(s, u, n, o), t)
    ensures Elsewhere(s, AfterLinkLost(s, u), t)
  {
    EnsureElsewhere(s, u, 2, t);
    ReleaseElsewhere(s, u, t);
    if s.conn.Some? {
      DropElsewhere(s, u, Reconnecting(s.nextThread), t);
    }
    hide Ensure, Release, Drop, Elsewhere;
  }

  lemma LoginElsewhere(s: State, u: TaskId, c: ConnId, n: nat, o: Outcome, t: TaskId)
    requires u in s.tasks && u != t
    requires forall th :: th in s.threads ==> th < s.nextThread
    ensures Elsewhere(s, AfterLogin(s, u, c, n, o), t)
  {
    RunElsewhere(s.(conn := Some(c)), u, c, n, t);
    ReleaseElsewhere(s, u, t);
    hide Run, Release;
  }

  lemma ResumeElsewhere(s: State, u: TaskId, t: TaskId)
    requires Enabled(s, Resume(u)) && u != t
    requires forall th :: th in s.threads ==> th < s.nextThread
    ensures Elsewhere(s, Apply(s, Resume(u)), t)
  {
    hide Ensure, Release, AfterProbe, AfterLogin, AfterCommand, AfterLinkLost, AfterDrain, Elsewhere;
    match s.tasks[u].pc
    case Probing(th, _) => ProbeElsewhere(s, u, s.results[th], t);
    case Replacing(_) => EnsureElsewhere(s, u, 1, t);
    case Opening(th, c, n) => LoginElsewhere(s, u, c, n, s.results[th], t);
    case Running(th, _, n) => CommandElsewhere(s, u, n, s.results[th], t);
    case Reconnecting(_) => CommandElsewhere(s, u, 1, LinkLost, t);
    case Draining(th, c, login) => DrainElsewhere(s, u, c, login, s.results[th], t);
    case _ => ReleaseElsewhere(s, u, t);
  }

  lemma AcquireElsewhere(s: State, u: TaskId, quiet: bool, t: TaskId)
    requires Enabled(s, Acquire(u, quiet)) && u != t
    requires forall th :: th in s.threads ==> th < s.nextThread
    ensures Elsewhere(s, Apply(s, Acquire(u, quiet)), t)
  {
    hide Ensure, Release, Drop, SpawnCommand, At, Elsewhere;
    var s1 := s.(lock := Some(u));
    LockElsewhere(s, s1, Apply(s, Acquire(u, quiet)), t);
    EnsureElsewhere(s1, u, 1, t);
    ReleaseElsewhere(s1, u, t);
    if s.conn.Some? {
      DropElsewhere(s1, u, Closing(s.nextThread), t);
      ProbingElsewhere(s1, u, s.conn.value, t);
    }
  }

  lemma LockElsewhere(s: State, s1: State, after: State, t: TaskId)
    requires s1 == s.(lock := s1.lock)
    ensures Elsewhere(s1, after, t) ==> Elsewhere(s, after, t)
  {
  }

  lemma ProbingElsewhere(s: State, u: TaskId, c: ConnId, t: TaskId)
    requires u in s.tasks && u != t
    requires forall th :: th in s.threads ==> th < s.nextThread
    ensures Elsewhere(s, At(SpawnCommand(s, u, c, Probe), u, Probing(s.nextThread, c)), t)
  {
  }

  lemma TokenElsewhere(s: State, u: TaskId, ok: bool, t: TaskId)
    requires Enabled(s, TokenReply(u, ok)) && u != t
    requires forall th :: th in s.threads ==> th < s.nextThread
    ensures Elsewhere(s, Apply(s, TokenReply(u, ok)), t)
  {
  }

  lemma CancelElsewhere(s: State, u: TaskId, t: TaskId)
    requires Enabled(s, Cancel(u)) && u != t
    requires forall th :: th in s.threads ==> th < s.nextThread
    ensures Elsewhere(s, Apply(s, Cancel(u)), t)
  {
  }

  lemma OtherElsewhere(s: State, step: Step, t: TaskId)
    requires Inv(s) && Enabled(s, step) && Actor(step) != Some(t) && !step.ThreadEnds?
    ensures Elsewhere(s, Apply(s, step), t)
    ensures Cause(s, step, t) == []
  {
    ThreadsOld(s, t);
    hide Inv, Ensure, Release, AfterProbe, AfterLogin, AfterCommand, AfterLinkLost, AfterDrain;
    match step
    case Acquire(u, quiet) => AcquireElsewhere(s, u, quiet, t);
    case TokenReply(u, ok) => TokenElsewhere(s, u, ok, t);
    case Resume(u) => ResumeElsewhere(s, u, t);
    case Cancel(u) => CancelElsewhere(s, u, t);
    case Arrive(_, _) =>
    case LinkDies(_) =>
  }

  /** While `t` is inside the critical section, no other task touches the connection. */
  lemma OtherKeepsConn(s: State, step: Step, t: TaskId)
    requires LockInv(s) && Enabled(s, step) && Actor(step) != Some(t) && !step.ThreadEnds?
    requires t in s.tasks && Inside(s.tasks[t].pc)
    ensures Apply(s, step).conn == s.conn && Apply(s, step).nextConn == s.nextConn
  {
    hide Ensure, AfterProbe, AfterLogin, AfterCommand, AfterLinkLost, AfterDrain;
  }

  lemma OtherFollows(s: State, step: Step, t: TaskId, notes: seq<Note>)
    requires Inv(s) && Enabled(s, step) && Actor(step) != Some(t) && !step.ThreadEnds?
    requires Known(s, t, notes)
    ensures Known(Apply(s, step), t, notes + NotesOf(s, step, t))
  {
    hide Works, Stopped, Inv, Apply, Fits;
    OtherElsewhere(s, step, t);
    assert notes + NotesOf(s, step, t) == notes;
    if t in s.tasks {
      ThreadsOld(s, t);
      if Inside(s.tasks[t].pc) {
        LockHeld(s);
        OtherKeepsConn(s, step, t);
      }
      ElsewhereFits(s, Apply(s, step), t, Works(notes), Stopped(notes), Cancelled in notes);
    }
  }

  lemma LockHeld(s: State)
    requires Inv(s)
    ensures LockInv(s)
  {
  }

  lemma ElsewhereFits(s: State, after: State, t: TaskId, works: seq<Attempt>, stopped: bool, cancelled: bool)
    requires Elsewhere(s, after, t) && Fits(s, t, works, stopped, cancelled)
    requires forall th :: th in s.threads || th in s.results ==> th < s.nextThread
    requires Inside(s.tasks[t].pc) ==> after.conn == s.conn && after.nextConn == s.nextConn
    ensures Fits(after, t, works, stopped, cancelled)
  {
  }

  lemma ThreadsOld(s: State, t: TaskId)
    requires Inv(s)
    ensures forall th :: th in s.threads || th in s.results ==> th < s.nextThread
  {
  }

  lemma StepFollows(s: State, step: Step, t: TaskId, notes: seq<Note>)
    requires Inv(s) && Enabled(s, step) && Known(s, t, notes)
    ensures Known(Apply(s, step), t, notes + NotesOf(s, step, t))
  {
    hide Inv, Known, Apply, NotesOf;
    if step.ThreadEnds? {
      EndFollows(s, step.th, step.outcome, t, notes);
    } else if Actor(step) == Some(t) {
      OwnFollows(s, step, t, notes);
    } else {
      OtherFollows(s, step, t, notes);
    }
  }

  // --- whole runs --------------------------------------------------------------------

  lemma {:induction false} RunNotes(s: State, steps: seq<Step>, t: TaskId, notes: seq<Note>)
    requires Inv(s) && IsRun(s, steps) && Known(s, t, notes)
    ensures Inv(Final(s, steps)) && Known(Final(s, steps), t, notes + Notes(s, steps, t))
    decreases |steps|
  {
    hide Inv, Known, Apply, NotesOf, Enabled;
    if steps == [] {
      assert notes + [] == notes;
    } else {
      StepKeeps(s, steps[0]);
      StepFollows(s, steps[0], t, notes);
      RunNotes(Apply(s, steps[0]), steps[1..], t, notes + NotesOf(s, steps[0], t));
      assert notes + Notes(s, steps, t)
          == notes + NotesOf(s, steps[0], t) + Notes(Apply(s, steps[0]), steps[1..], t);
    }
  }

  lemma FinishedIs(s: State, t: TaskId, notes: seq<Note>)
    requires Inv(s) && Known(s, t, notes) && t in s.tasks && s.tasks[t].kind.Call?
    requires s.tasks[t].pc == Finished && Cancelled !in notes
    ensures Served(s.tasks[t].kind.retry, Works(notes), Stopped(notes))
    ensures StartsOf(s.log, t) == |Works(notes)|
  {
    hide LogSafe, ConnInv, ThreadInv, Works, Stopped, StartsOf;
  }

  /** In every run, a call that ends without being cancelled has started its command once; a
      second time, on another connection, exactly if it may be repeated and the link broke
      under the first; and one time less only if the connection it needed could not be had. */
  lemma CallServed(oauth: bool, steps: seq<Step>, t: TaskId)
    requires IsRun(Initial(oauth), steps)
    requires var s := Final(Initial(oauth), steps);
             t in s.tasks && s.tasks[t].kind.Call? && s.tasks[t].pc == Finished
    requires Cancelled !in Notes(Initial(oauth), steps, t)
    ensures var s := Final(Initial(oauth), steps);
            var notes := Notes(Initial(oauth), steps, t);
            && Served(s.tasks[t].kind.retry, Works(notes), Stopped(notes))
            && StartsOf(s.log, t) == |Works(notes)|
  {
    hide Inv, Known, IsRun, Final, Notes, Works, Stopped, Served, StartsOf;
    InitialInv(oauth);
    assert Known(Initial(oauth), t, []) by { NothingKnown(oauth, t); }
    RunNotes(Initial(oauth), steps, t, []);
    var notes := Notes(Initial(oauth), steps, t);
    assert [] + notes == notes;
    FinishedIs(Final(Initial(oauth), steps), t, notes);
  }

  lemma NothingKnown(oauth: bool, t: TaskId)
    ensures Known(Initial(oauth), t, [])
  {
  }

  // --- every call ends ---------------------------------------------------------------

  /** How many steps of its own a task has left at most. */
  function Rank(pc: Pc): nat {
    match pc
    case Queued => 12
    case Probing(_, _) => 11
    case Replacing(_) => 10
    case AwaitingToken(n) => if n <= 1 then 9 else 5
    case Opening(_, _, n) => if n <= 1 then 8 else 4
    case Running(_, _, n) => if n <= 1 then 7 else 3
    case Reconnecting(_) => 6
    case Draining(_, _, _) => 2
    case Discarding(_) => 1
    case Closing(_) => 1
    case Finished => 0
  }

  predicate Advances(step: Step, t: TaskId) {
    Actor(step) == Some(t) && !step.Arrive? && !step.Cancel?
  }

  lemma EnsureRank(s: State, t: TaskId, n: nat)
    requires t in s.tasks && 1 <= n
    ensures t in Ensure(s, t, n).tasks && Rank(Ensure(s, t, n).tasks[t].pc) <= if n == 1 then 9 else 5
  {
  }

  ghost predicate RankBelow(after: State, t: TaskId, n: nat) {
    t in after.tasks && Rank(after.tasks[t].pc) < n
  }

  lemma DrainRank(s: State, t: TaskId, c: ConnId, login: bool, o: Outcome)
    requires t in s.tasks
    ensures RankBelow(AfterDrain(s, t, c, login, o), t, 2)
  {
  }

  lemma CommandRank(s: State, t: TaskId, n: nat, o: Outcome)
    requires t in s.tasks
    ensures RankBelow(AfterCommand(s, t, n, o), t, if n <= 1 then 7 else 3)
    ensures RankBelow(AfterLinkLost(s, t), t, 6)
  {
    EnsureRank(s, t, 2);
    hide Ensure, Spawn;
  }

  lemma LoginRank(s: State, t: TaskId, c: ConnId, n: nat, o: Outcome)
    requires t in s.tasks
    ensures RankBelow(AfterLogin(s, t, c, n, o), t, if n <= 1 then 8 else 4)
  {
    hide Spawn;
  }

  lemma ProbeRank(s: State, t: TaskId, o: Outcome)
    requires t in s.tasks
    ensures RankBelow(AfterProbe(s, t, o), t, 11)
  {
    EnsureRank(s, t, 1);
    hide Ensure, Spawn;
  }

  lemma ResumeRank(s: State, t: TaskId)
    requires Enabled(s, Resume(t))
    ensures RankBelow(Apply(s, Resume(t)), t, Rank(s.tasks[t].pc))
  {
    hide Ensure, AfterProbe, AfterLogin, AfterCommand, AfterLinkLost, AfterDrain;
    match s.tasks[t].pc
    case Probing(th, _) => ProbeRank(s, t, s.results[th]);
    case Replacing(_) => EnsureRank(s, t, 1);
    case Opening(th, c, n) => LoginRank(s, t, c, n, s.results[th]);
    case Running(th, _, n) => CommandRank(s, t, n, s.results[th]);
    case Reconnecting(_) => CommandRank(s, t, 2, LinkLost);
    case Draining(th, c, login) => DrainRank(s, t, c, login, s.results[th]);
    case _ =>
  }

  lemma StepRank(s: State, step: Step, t: TaskId)
    requires Inv(s) && Enabled(s, step) && t in s.tasks
    ensures t in Apply(s, step).tasks
    ensures Rank(Apply(s, step).tasks[t].pc) + (if Advances(step, t) then 1 else 0) <= Rank(s.tasks[t].pc)
  {
    hide Inv, Apply, Ensure, Drop, Spawn, SpawnCommand;
    if step.ThreadEnds? {
      EndedIs(s, step.th, step.outcome);
    } else if Actor(step) != Some(t) {
      OtherElsewhere(s, step, t);
      hide BegunBy;
    } else {
      match step
      case Acquire(_, quiet) => AcquireRank(s, t, quiet);
      case TokenReply(_, ok) => TokenRank(s, t, ok);
      case Resume(_) => ResumeRank(s, t);
      case Cancel(_) => CancelRank(s, t);
    }
  }

  lemma AcquireRank(s: State, t: TaskId, quiet: bool)
    requires Enabled(s, Acquire(t, quiet))
    ensures RankBelow(Apply(s, Acquire(t, quiet)), t, 12)
  {
    EnsureRank(s.(lock := Some(t)), t, 1);
    hide Ensure;
  }

  lemma TokenRank(s: State, t: TaskId, ok: bool)
    requires Enabled(s, TokenReply(t, ok))
    ensures RankBelow(Apply(s, TokenReply(t, ok)), t, Rank(s.tasks[t].pc))
  {
  }

  lemma CancelRank(s: State, t: TaskId)
    requires Enabled(s, Cancel(t))
    ensures RankBelow(Apply(s, Cancel(t)), t, Rank(s.tasks[t].pc) + 1)
  {
    CancelIs(s, t);
    hide Apply;
  }

  function Advanced(steps: seq<Step>, t: TaskId): nat {
    if steps == [] then 0 else (if Advances(steps[0], t) then 1 else 0) + Advanced(steps[1..], t)
  }

  lemma {:induction false} RunRank(s: State, steps: seq<Step>, t: TaskId)
    requires Inv(s) && IsRun(s, steps) && t in s.tasks
    ensures t in Final(s, steps).tasks
    ensures Advanced(steps, t) + Rank(Final(s, steps).tasks[t].pc) <= Rank(s.tasks[t].pc)
    decreases |steps|
  {
    hide Inv, Apply, Rank, Advances, Enabled;
    if steps != [] {
      StepKeeps(s, steps[0]);
      StepRank(s, steps[0], t);
      RunRank(Apply(s, steps[0]), steps[1..], t);
    }
  }

  /** The end of a wait that the step brings about, other than by giving up. */
  predicate Progresses(step: Step) {
    step.Acquire? || step.TokenReply? || step.ThreadEnds? || step.Resume?
  }

  lemma InsideGoesOn(s: State, t: TaskId)
    requires t in s.tasks && Inside(s.tasks[t].pc) && Linked(s, t, s.tasks[t].pc)
    ensures exists step :: Enabled(s, step) && Progresses(step)
  {
    var pc := s.tasks[t].pc;
    if pc.AwaitingToken? {
      assert Enabled(s, TokenReply(t, true)) && Progresses(TokenReply(t, true));
    } else if pc.th in s.results {
      assert Enabled(s, Resume(t)) && Progresses(Resume(t));
    } else {
      assert Enabled(s, ThreadEnds(pc.th, Success)) && Progresses(ThreadEnds(pc.th, Success));
    }
  }

  /** No run deadlocks: while a task has not ended, some task or thread can go on; and after
      at most twelve steps of its own, whatever the others do, a task has ended. */
  lemma EveryCallEnds(oauth: bool, steps: seq<Step>, more: seq<Step>, t: TaskId)
    requires IsRun(Initial(oauth), steps) && IsRun(Final(Initial(oauth), steps), more)
    requires t in Final(Initial(oauth), steps).tasks
    ensures var s := Final(Initial(oauth), steps);
            s.tasks[t].pc == Finished || exists step :: Enabled(s, step) && Progresses(step)
    ensures Advanced(more, t) <= 12
  {
    hide IsRun, Final, Inv, Notes, Enabled, Linked, Advanced, Advances, Progresses;
    var s := Final(Initial(oauth), steps);
    InitialInv(oauth);
    NothingKnown(oauth, t);
    RunNotes(Initial(oauth), steps, t, []);
    RunRank(s, more, t);
    LockHeld(s);
    if s.tasks[t].pc != Finished {
      if s.lock.Some? {
        var u := s.lock.value;
        NothingKnown(oauth, u);
        RunNotes(Initial(oauth), steps, u, []);
        InsideGoesOn(s, u);
      } else {
        QueuedGoesOn(s, t);
      }
    }
  }

  lemma QueuedGoesOn(s: State, t: TaskId)
    requires LockInv(s) && t in s.tasks && s.lock == None && s.tasks[t].pc != Finished
    ensures exists step :: Enabled(s, step) && Progresses(step)
  {
    assert Enabled(s, Acquire(t, false)) && Progresses(Acquire(t, false));
  }
}
