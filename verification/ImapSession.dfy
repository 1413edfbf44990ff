/** One IMAP connection shared by many tasks: the lock, the worker threads that outlive the
    tasks waiting on them, the connections given up after a cancellation, and the single
    reconnect-and-retry.

    A step runs one task from one `await` to the next, ends a worker thread, cancels a task
    or lets the link die; every interleaving of steps is a run.
  */
module ImapSession {
  import opened Prelude

  type TaskId = nat
  type ThreadId = nat
  type ConnId = nat

  /** What a command thread is doing with its connection. */
  datatype Purpose = Probe | Login | Work

  datatype Thread =
    | Command(task: TaskId, conn: ConnId, purpose: Purpose)
    | Logout(conn: ConnId)

  /** How a thread ended: done, the link broke, the server refused, or another exception. */
  datatype Outcome = Success | LinkLost | Refused | Failed

  datatype Kind = Call(retry: bool) | Close

  /** The `await` a task is suspended at. */
  datatype Pc =
    | Queued                                                 // async with self._lock
    | Probing(th: ThreadId, conn: ConnId)                    // _alive: NOOP
    | Replacing(th: ThreadId)                                // _alive: logout of a dead connection
    | AwaitingToken(attempt: nat)                            // _ensure_conn: OAuth access token
    | Opening(th: ThreadId, conn: ConnId, attempt: nat)      // _ensure_conn: connect and log in
    | Running(th: ThreadId, conn: ConnId, attempt: nat)      // _run: the command itself
    | Reconnecting(th: ThreadId)                             // _call: logout after the link broke
    | Draining(th: ThreadId, conn: ConnId, login: bool)      // cancelled, the thread still runs
    | Discarding(th: ThreadId)                               // logout of the abandoned connection
    | Closing(th: ThreadId)                                  // close(): logout
    | Finished

  /** `starts` counts the times the task's own command was started. */
  datatype Task = Task(kind: Kind, pc: Pc, starts: nat)

  datatype Event =
    | Started(task: TaskId, conn: ConnId, purpose: Purpose)
    | Abandoned(conn: ConnId)

  /** `usable`: the connections in state AUTH or SELECTED. `log` is history. */
  datatype State = State(
    oauth: bool,
    lock: Option<TaskId>,
    conn: Option<ConnId>,
    usable: set<ConnId>,
    threads: map<ThreadId, Thread>,
    results: map<ThreadId, Outcome>,
    tasks: map<TaskId, Task>,
    nextThread: ThreadId,
    nextConn: ConnId,
    log: seq<Event>)

  function Initial(oauth: bool): State {
    State(oauth, None, None, {}, map[], map[], map[], 0, 0, [])
  }

  datatype Step =
    | Arrive(task: TaskId, kind: Kind)
    | Acquire(task: TaskId, quiet: bool)      // quiet: idle for 60 seconds or more
    | TokenReply(task: TaskId, ok: bool)
    | ThreadEnds(th: ThreadId, outcome: Outcome)
    | Resume(task: TaskId)
    | Cancel(task: TaskId)
    | LinkDies(conn: ConnId)

  // --- pieces of the code between two awaits ----------------------------------

  function At(s: State, t: TaskId, pc: Pc): State
    requires t in s.tasks
  {
    s.(tasks := s.tasks[t := s.tasks[t].(pc := pc)])
  }

  function Release(s: State, t: TaskId): State
    requires t in s.tasks
  {
    At(s, t, Finished).(lock := None)
  }

  /** Hand `thread` to a worker; it runs from now on. */
  function Spawn(s: State, thread: Thread): State {
    s.(threads := s.threads[s.nextThread := thread], nextThread := s.nextThread + 1)
  }

  function SpawnCommand(s: State, t: TaskId, c: ConnId, p: Purpose): State {
    Spawn(s, Command(t, c, p)).(log := s.log + [Started(t, c, p)])
  }

  function Run(s: State, t: TaskId, c: ConnId, attempt: nat): State
    requires t in s.tasks
  {
    var counted := s.(tasks := s.tasks[t := s.tasks[t].(starts := s.tasks[t].starts + 1)]);
    At(SpawnCommand(counted, t, c, Work), t, Running(s.nextThread, c, attempt))
  }

  function Open(s: State, t: TaskId, attempt: nat): State
    requires t in s.tasks
  {
    At(SpawnCommand(s, t, s.nextConn, Login).(nextConn := s.nextConn + 1), t,
       Opening(s.nextThread, s.nextConn, attempt))
  }

  /** `_ensure_conn`, then the command when a connection is at hand. */
  function Ensure(s: State, t: TaskId, attempt: nat): State
    requires t in s.tasks
  {
    if s.conn.Some? && s.conn.value in s.usable then Run(s, t, s.conn.value, attempt)
    else if s.oauth then At(s, t, AwaitingToken(attempt))
    else Open(s, t, attempt)
  }

  /** `_drop` up to its `await`: the connection is forgotten before it is logged out. */
  function Drop(s: State): State
    requires s.conn.Some?
  {
    Spawn(s, Logout(s.conn.value)).(conn := None)
  }

  function AfterLinkLost(s: State, t: TaskId): State
    requires t in s.tasks
  {
    if s.tasks[t].kind == Call(true) then Ensure(s, t, 2) else Release(s, t)
  }

  function AfterCommand(s: State, t: TaskId, attempt: nat, o: Outcome): State
    requires t in s.tasks
  {
    if o == LinkLost && attempt == 1 then
      if s.conn.Some? then At(Drop(s), t, Reconnecting(s.nextThread)) else AfterLinkLost(s, t)
    else
      Release(s, t)
  }

  function AfterProbe(s: State, t: TaskId, o: Outcome): State
    requires t in s.tasks
  {
    if o == Success then Ensure(s, t, 1)
    else if o == Failed then Release(s, t)
    else if s.conn.Some? then At(Drop(s), t, Replacing(s.nextThread))
    else Ensure(s, t, 1)
  }

  function AfterLogin(s: State, t: TaskId, c: ConnId, attempt: nat, o: Outcome): State
    requires t in s.tasks
  {
    if o == Success then Run(s.(conn := Some(c)), t, c, attempt) else Release(s, t)
  }

  /** `on_abandon`, once the thread nobody waits for has ended. */
  function AfterDrain(s: State, t: TaskId, c: ConnId, login: bool, o: Outcome): State
    requires t in s.tasks
  {
    if login then
      if o == Success then At(Spawn(s, Logout(c)), t, Discarding(s.nextThread)) else Release(s, t)
    else if s.conn == Some(c) then
      At(Drop(s), t, Discarding(s.nextThread))
    else
      Release(s, t)
  }

  // --- the transition relation ------------------------------------------------

  predicate Enabled(s: State, step: Step) {
    match step
    case Arrive(t, _) => t !in s.tasks
    case Acquire(t, _) => t in s.tasks && s.tasks[t].pc == Queued && s.lock == None
    case TokenReply(t, _) => t in s.tasks && s.tasks[t].pc.AwaitingToken?
    case ThreadEnds(th, _) => th in s.threads
    case Resume(t) =>
      && t in s.tasks
      && var pc := s.tasks[t].pc;
         && (pc.Probing? || pc.Replacing? || pc.Opening? || pc.Running? || pc.Reconnecting?
             || pc.Draining? || pc.Discarding? || pc.Closing?)
         && pc.th in s.results
    case Cancel(t) => t in s.tasks && s.tasks[t].pc != Finished
    case LinkDies(_) => true
  }

  function Apply(s: State, step: Step): State
    requires Enabled(s, step)
  {
    match step
    case Arrive(t, kind) => s.(tasks := s.tasks[t := Task(kind, Queued, 0)])
    case Acquire(t, quiet) =>
      var s1 := s.(lock := Some(t));
      if s.tasks[t].kind == Close then
        if s.conn.Some? then At(Drop(s1), t, Closing(s.nextThread)) else Release(s1, t)
      else if !s.tasks[t].kind.retry && quiet && s.conn.Some? then
        At(SpawnCommand(s1, t, s.conn.value, Probe), t, Probing(s.nextThread, s.conn.value))
      else
        Ensure(s1, t, 1)
    case TokenReply(t, ok) =>
      if ok then Open(s, t, s.tasks[t].pc.attempt) else Release(s, t)
    case ThreadEnds(th, o) =>
      var thread := s.threads[th];
      var usable :=
        if thread.Logout? then s.usable - {thread.conn}
        else if thread.purpose == Login && o == Success then s.usable + {thread.conn}
        else s.usable;
      s.(threads := s.threads - {th}, results := s.results[th := o], usable := usable)
    case Resume(t) =>
      (match s.tasks[t].pc
       case Probing(th, _) => AfterProbe(s, t, s.results[th])
       case Replacing(_) => Ensure(s, t, 1)
       case Opening(th, c, attempt) => AfterLogin(s, t, c, attempt, s.results[th])
       case Running(th, _, attempt) => AfterCommand(s, t, attempt, s.results[th])
       case Reconnecting(_) => AfterLinkLost(s, t)
       case Draining(th, c, login) => AfterDrain(s, t, c, login, s.results[th])
       case Discarding(_) => Release(s, t)
       case Closing(_) => Release(s, t)
       case _ => s)
    case Cancel(t) =>
      (match s.tasks[t].pc
       case Queued => At(s, t, Finished)
       case Probing(th, c) => At(s, t, Draining(th, c, false)).(log := s.log + [Abandoned(c)])
       case Running(th, c, _) => At(s, t, Draining(th, c, false)).(log := s.log + [Abandoned(c)])
       case Opening(th, c, _) => At(s, t, Draining(th, c, true)).(log := s.log + [Abandoned(c)])
       case Draining(_, _, _) => s
       case _ => Release(s, t))
    case LinkDies(c) => s.(usable := s.usable - {c})
  }

  // --- invariants -------------------------------------------------------------

  predicate Inside(pc: Pc) {
    pc != Queued && pc != Finished
  }

  /** The task is waiting for a command thread: `th`, working on `c`. */
  predicate Awaits(pc: Pc, th: ThreadId, c: ConnId) {
    match pc
    case Probing(x, d) => x == th && d == c
    case Opening(x, d, _) => x == th && d == c
    case Running(x, d, _) => x == th && d == c
    case Draining(x, d, _) => x == th && d == c
    case _ => false
  }

  /** The lock is held exactly by the task inside the critical section. */
  ghost predicate LockInv(s: State) {
    && (s.lock.Some? ==> s.lock.value in s.tasks)
    && forall t :: t in s.tasks ==> (Inside(s.tasks[t].pc) <==> s.lock == Some(t))
  }

  /** A command thread that runs is the one its task awaits. */
  ghost predicate ThreadInv(s: State) {
    && (forall th :: th in s.threads || th in s.results ==> th < s.nextThread)
    && (forall th :: th in s.threads ==> th !in s.results)
    && forall th :: th in s.threads && s.threads[th].Command? ==>
         && s.threads[th].task in s.tasks
         && Awaits(s.tasks[s.threads[th].task].pc, th, s.threads[th].conn)
  }

  /** What the state knows of the connection a task is using. */
  ghost predicate PcInv(s: State, pc: Pc) {
    match pc
    case Probing(_, c) => s.conn == Some(c) && Abandoned(c) !in s.log
    case Running(_, c, attempt) => s.conn == Some(c) && Abandoned(c) !in s.log
    case Opening(_, c, attempt) => s.conn != Some(c) && c < s.nextConn && Abandoned(c) !in s.log
    case Draining(_, c, login) => c < s.nextConn && (login <==> s.conn != Some(c))
    case _ => true
  }

  /** A connection whose caller was cancelled stays current only until that is cleaned up. */
  ghost predicate ConnInv(s: State) {
    && (forall t :: t in s.tasks ==> PcInv(s, s.tasks[t].pc))
    && (s.conn.Some? ==> s.conn.value < s.nextConn)
    && (forall e :: e in s.log ==> e.conn < s.nextConn)
    && (s.conn.Some? && Abandoned(s.conn.value) in s.log ==>
          s.lock.Some? && s.lock.value in s.tasks
          && s.tasks[s.lock.value].pc.Draining? && s.tasks[s.lock.value].pc.conn == s.conn.value)
  }

  /** No command is started on a connection after its caller was cancelled. */
  ghost predicate LogSafe(log: seq<Event>) {
    forall i, j :: 0 <= i < j < |log| && log[i].Abandoned? && log[j].Started? ==> log[i].conn != log[j].conn
  }

  function StartsOf(log: seq<Event>, t: TaskId): nat {
    if log == [] then 0
    else
      var e := log[|log| - 1];
      StartsOf(log[..|log| - 1], t) + if e.Started? && e.task == t && e.purpose == Work then 1 else 0
  }

  function Budget(k: Kind): nat {
    match k
    case Call(retry) => if retry then 2 else 1
    case Close => 0
  }

  /** The starts a task may have made by the time it is suspended at `pc`. */
  predicate StartsFit(task: Task) {
    match task.pc
    case Queued => task.starts == 0
    case Probing(_, _) => task.starts == 0 && task.kind == Call(false)
    case Replacing(_) => task.starts == 0 && task.kind == Call(false)
    case AwaitingToken(a) => task.starts + 1 == a <= Budget(task.kind)
    case Opening(_, _, a) => task.starts + 1 == a <= Budget(task.kind)
    case Running(_, _, a) => task.starts == a <= Budget(task.kind)
    case Reconnecting(_) => task.starts == 1 <= Budget(task.kind)
    case _ => task.starts <= Budget(task.kind)
  }

  ghost predicate StartInv(s: State) {
    && (forall t :: t in s.tasks ==> StartsFit(s.tasks[t]) && StartsOf(s.log, t) == s.tasks[t].starts)
    && (forall e :: e in s.log && e.Started? ==> e.task in s.tasks)
  }

  ghost predicate Inv(s: State) {
    LockInv(s) && ThreadInv(s) && ConnInv(s) && LogSafe(s.log) && StartInv(s)
  }

  // --- between two awaits -----------------------------------------------------

  /** Task `t` runs inside the critical section; its program counter is not read. */
  ghost predicate Mid(s: State, t: TaskId) {
    && t in s.tasks && s.lock == Some(t)
    && (forall u :: u in s.tasks && u != t ==> !Inside(s.tasks[u].pc) && StartsFit(s.tasks[u]))
    && (forall th :: th in s.threads || th in s.results ==> th < s.nextThread)
    && (forall th :: th in s.threads ==> th !in s.results && s.threads[th].Logout?)
    && (s.conn.Some? ==> s.conn.value < s.nextConn)
    && (forall e :: e in s.log ==> e.conn < s.nextConn)
    && LogSafe(s.log)
    && CountInv(s)
  }

  ghost predicate CountInv(s: State) {
    && (forall u :: u in s.tasks ==> StartsOf(s.log, u) == s.tasks[u].starts)
    && (forall e :: e in s.log && e.Started? ==> e.task in s.tasks)
  }

  /** The current connection, if any, was never abandoned. */
  ghost predicate Clean(s: State) {
    s.conn.Some? ==> Abandoned(s.conn.value) !in s.log
  }

  lemma StartsAppend(log: seq<Event>, e: Event, t: TaskId)
    ensures StartsOf(log + [e], t)
         == StartsOf(log, t) + if e.Started? && e.task == t && e.purpose == Work then 1 else 0
  {
    assert (log + [e])[..|log|] == log;
  }

  lemma StartsAppendAll(log: seq<Event>, e: Event)
    ensures forall t :: StartsOf(log + [e], t)
                     == StartsOf(log, t) + if e.Started? && e.task == t && e.purpose == Work then 1 else 0
  {
    hide StartsOf;
    forall t
      ensures StartsOf(log + [e], t)
           == StartsOf(log, t) + if e.Started? && e.task == t && e.purpose == Work then 1 else 0
    {
      StartsAppend(log, e, t);
    }
  }

  lemma LogGrows(log: seq<Event>, e: Event)
    requires LogSafe(log)
    requires e.Started? ==> Abandoned(e.conn) !in log
    ensures LogSafe(log + [e])
  {
    var all := log + [e];
    forall i, j | 0 <= i < j < |all| && all[i].Abandoned? && all[j].Started?
      ensures all[i].conn != all[j].conn
    {
      if j == |log| {
        assert all[i] in log;
        assert all[i] == Abandoned(all[i].conn);
      }
    }
  }

  lemma MidRelease(s: State, t: TaskId)
    requires Mid(s, t) && Clean(s) && s.tasks[t].starts <= Budget(s.tasks[t].kind)
    ensures Inv(Release(s, t))
  {
    hide LogSafe;
    hide StartsOf;
  }

  lemma MidToken(s: State, t: TaskId, attempt: nat)
    requires Mid(s, t) && Clean(s) && s.tasks[t].starts + 1 == attempt <= Budget(s.tasks[t].kind)
    ensures Inv(At(s, t, AwaitingToken(attempt)))
  {
    hide LogSafe;
    hide StartsOf;
  }

  /** Suspended on the logout of the connection just dropped. */
  lemma MidDrop(s: State, t: TaskId, pc: Pc)
    requires Mid(s, t) && s.conn.Some?
    requires pc == Replacing(s.nextThread) || pc == Reconnecting(s.nextThread)
          || pc == Discarding(s.nextThread) || pc == Closing(s.nextThread)
    requires StartsFit(s.tasks[t].(pc := pc))
    ensures Inv(At(Drop(s), t, pc))
  {
    hide LogSafe;
    hide StartsOf;
  }

  /** Suspended on the logout of a connection that never became current. */
  lemma MidOrphan(s: State, t: TaskId, c: ConnId)
    requires Mid(s, t) && Clean(s) && s.tasks[t].starts <= Budget(s.tasks[t].kind)
    ensures Inv(At(Spawn(s, Logout(c)), t, Discarding(s.nextThread)))
  {
    hide LogSafe;
    hide StartsOf;
  }

  /** `s` with a command for `t` started on `c` and `t` suspended at `pc`. */
  function Commanded(s: State, t: TaskId, c: ConnId, p: Purpose, pc: Pc, starts: nat): State
    requires t in s.tasks
  {
    At(SpawnCommand(s.(tasks := s.tasks[t := s.tasks[t].(starts := starts)]), t, c, p), t, pc)
  }

  lemma CommandCounts(s: State, t: TaskId, c: ConnId, p: Purpose, pc: Pc, starts: nat)
    requires Mid(s, t)
    requires starts == s.tasks[t].starts + if p == Work then 1 else 0
    requires StartsFit(s.tasks[t].(pc := pc, starts := starts))
    ensures StartInv(Commanded(s, t, c, p, pc, starts))
  {
    hide LogSafe;
    hide StartsOf;
    hide StartsFit;
    var e := Started(t, c, p);
    StartsAppendAll(s.log, e);
    assert forall d :: d in s.log + [e] ==> d in s.log || d == e;
  }

  lemma CommandConn(s: State, t: TaskId, c: ConnId, p: Purpose, pc: Pc, starts: nat)
    requires Mid(s, t) && Clean(s) && c < s.nextConn && Abandoned(c) !in s.log
    requires Awaits(pc, s.nextThread, c) && !pc.Draining?
    requires pc.Opening? <==> s.conn != Some(c)
    ensures ConnInv(Commanded(s, t, c, p, pc, starts))
    ensures LogSafe(Commanded(s, t, c, p, pc, starts).log)
  {
    LogGrows(s.log, Started(t, c, p));
    hide LogSafe;
    hide StartsOf;
    hide StartsFit;
  }

  lemma CommandThread(s: State, t: TaskId, c: ConnId, p: Purpose, pc: Pc, starts: nat)
    requires Mid(s, t) && Awaits(pc, s.nextThread, c)
    ensures LockInv(Commanded(s, t, c, p, pc, starts))
    ensures ThreadInv(Commanded(s, t, c, p, pc, starts))
  {
    hide LogSafe;
    hide StartsOf;
    hide StartsFit;
  }

  lemma MidCommand(s: State, t: TaskId, c: ConnId, p: Purpose, pc: Pc, starts: nat)
    requires Mid(s, t) && Clean(s) && c < s.nextConn && Abandoned(c) !in s.log
    requires Awaits(pc, s.nextThread, c) && !pc.Draining?
    requires pc.Opening? <==> s.conn != Some(c)
    requires starts == s.tasks[t].starts + if p == Work then 1 else 0
    requires StartsFit(s.tasks[t].(pc := pc, starts := starts))
    ensures Inv(Commanded(s, t, c, p, pc, starts))
  {
    CommandCounts(s, t, c, p, pc, starts);
    CommandConn(s, t, c, p, pc, starts);
    CommandThread(s, t, c, p, pc, starts);
    hide LockInv;
    hide ThreadInv;
    hide ConnInv;
    hide StartInv;
    hide LogSafe;
    hide Commanded;
    hide Mid;
  }

  lemma MidRun(s: State, t: TaskId, c: ConnId, attempt: nat)
    requires Mid(s, t) && Clean(s) && s.conn == Some(c)
    requires s.tasks[t].starts + 1 == attempt <= Budget(s.tasks[t].kind)
    ensures Inv(Run(s, t, c, attempt))
  {
    MidBounds(s, t);
    var pc := Running(s.nextThread, c, attempt);
    assert Commanded(s, t, c, Work, pc, s.tasks[t].starts + 1) == Run(s, t, c, attempt);
    hide Mid;
    hide Inv;
    hide Run;
    hide Commanded;
    MidCommand(s, t, c, Work, pc, s.tasks[t].starts + 1);
  }

  lemma MidBounds(s: State, t: TaskId)
    requires Mid(s, t)
    ensures t in s.tasks
    ensures s.conn.Some? ==> s.conn.value < s.nextConn
    ensures forall e :: e in s.log ==> e.conn < s.nextConn
  {
  }

  lemma MidMoreConns(s: State, t: TaskId)
    requires Mid(s, t) && Clean(s)
    ensures Mid(s.(nextConn := s.nextConn + 1), t) && Clean(s.(nextConn := s.nextConn + 1))
    ensures Abandoned(s.nextConn) !in s.log
  {
    hide LogSafe;
    hide StartsOf;
    assert Abandoned(s.nextConn) in s.log ==> Abandoned(s.nextConn).conn < s.nextConn;
  }

  lemma MidOpen(s: State, t: TaskId, attempt: nat)
    requires Mid(s, t) && Clean(s)
    requires s.tasks[t].starts + 1 == attempt <= Budget(s.tasks[t].kind)
    ensures Inv(Open(s, t, attempt))
  {
    MidBounds(s, t);
    MidMoreConns(s, t);
    var s1 := s.(nextConn := s.nextConn + 1);
    var pc := Opening(s.nextThread, s.nextConn, attempt);
    OpenIsCommand(s, t, attempt);
    hide Mid;
    hide Inv;
    hide Open;
    hide Commanded;
    MidCommand(s1, t, s.nextConn, Login, pc, s.tasks[t].starts);
  }

  lemma OpenIsCommand(s: State, t: TaskId, attempt: nat)
    requires t in s.tasks
    ensures Open(s, t, attempt)
         == Commanded(s.(nextConn := s.nextConn + 1), t, s.nextConn, Login,
                      Opening(s.nextThread, s.nextConn, attempt), s.tasks[t].starts)
  {
    assert s.tasks[t := s.tasks[t]] == s.tasks;
  }

  lemma MidEnsure(s: State, t: TaskId, attempt: nat)
    requires Mid(s, t) && Clean(s)
    requires s.tasks[t].starts + 1 == attempt <= Budget(s.tasks[t].kind)
    ensures Inv(Ensure(s, t, attempt))
  {
    hide Mid;
    hide Inv;
    hide Run;
    hide Open;
    if s.conn.Some? && s.conn.value in s.usable {
      MidRun(s, t, s.conn.value, attempt);
    } else if s.oauth {
      MidToken(s, t, attempt);
    } else {
      MidOpen(s, t, attempt);
    }
  }

  // --- every step keeps the invariant -----------------------------------------

  /** When the thread a task awaits has ended, nobody else's command runs. */
  lemma ResumedIsMid(s: State, t: TaskId)
    requires Inv(s) && Enabled(s, Resume(t))
    ensures Mid(s, t)
    ensures !s.tasks[t].pc.Draining? || s.tasks[t].pc.login ==> Clean(s)
  {
    hide LogSafe;
    hide StartsOf;
    forall th | th in s.threads
      ensures s.threads[th].Logout?
    {
      assert s.threads[th].Command? ==> Inside(s.tasks[s.threads[th].task].pc);
    }
  }

  lemma InvAt(s: State, t: TaskId)
    requires Inv(s) && t in s.tasks
    ensures StartsFit(s.tasks[t]) && PcInv(s, s.tasks[t].pc)
  {
    hide LogSafe;
    hide StartsOf;
  }

  lemma ResumeKeeps(s: State, t: TaskId)
    requires Inv(s) && Enabled(s, Resume(t))
    ensures Inv(Apply(s, Resume(t)))
  {
    hide Inv;
    hide Mid;
    hide Ensure;
    hide Release;
    hide Run;
    hide Clean;
    ResumedIsMid(s, t);
    InvAt(s, t);
    var pc := s.tasks[t].pc;
    match pc
    case Probing(th, _) => ProbeKeeps(s, t, s.results[th]);
    case Replacing(_) => MidEnsure(s, t, 1);
    case Opening(th, c, attempt) => LoginKeeps(s, t, c, attempt, s.results[th]);
    case Running(th, _, attempt) => CommandKeeps(s, t, attempt, s.results[th]);
    case Reconnecting(_) => LinkLostKeeps(s, t);
    case Draining(th, c, login) => DrainKeeps(s, t, c, login, s.results[th]);
    case Discarding(_) => MidRelease(s, t);
    case Closing(_) => MidRelease(s, t);
  }

  lemma ProbeKeeps(s: State, t: TaskId, o: Outcome)
    requires Mid(s, t) && Clean(s) && s.tasks[t].starts == 0 && s.tasks[t].kind == Call(false)
    ensures Inv(AfterProbe(s, t, o))
  {
    hide Inv;
    hide Mid;
    hide Ensure;
    hide Release;
    if o == Success || (o != Failed && s.conn == None) {
      MidEnsure(s, t, 1);
    } else if o == Failed {
      MidRelease(s, t);
    } else {
      MidDrop(s, t, Replacing(s.nextThread));
    }
  }

  lemma LoginIsMid(s: State, t: TaskId, c: ConnId)
    requires Mid(s, t) && Clean(s) && c < s.nextConn && Abandoned(c) !in s.log
    ensures Mid(s.(conn := Some(c)), t) && Clean(s.(conn := Some(c)))
  {
    hide LogSafe;
    hide StartsOf;
    hide StartsFit;
  }

  lemma LoginKeeps(s: State, t: TaskId, c: ConnId, attempt: nat, o: Outcome)
    requires Mid(s, t) && Clean(s) && c < s.nextConn && Abandoned(c) !in s.log
    requires s.tasks[t].starts + 1 == attempt <= Budget(s.tasks[t].kind)
    ensures Inv(AfterLogin(s, t, c, attempt, o))
  {
    hide Inv;
    hide Mid;
    hide Clean;
    hide Run;
    hide Release;
    MidBounds(s, t);
    if o == Success {
      LoginIsMid(s, t, c);
      MidRun(s.(conn := Some(c)), t, c, attempt);
    } else {
      MidRelease(s, t);
    }
  }

  lemma LinkLostKeeps(s: State, t: TaskId)
    requires Mid(s, t) && Clean(s) && s.tasks[t].starts == 1 <= Budget(s.tasks[t].kind)
    ensures Inv(AfterLinkLost(s, t))
  {
    MidBounds(s, t);
    hide Inv;
    hide Mid;
    hide Ensure;
    hide Release;
    if s.tasks[t].kind == Call(true) {
      MidEnsure(s, t, 2);
    } else {
      MidRelease(s, t);
    }
  }

  lemma CommandKeeps(s: State, t: TaskId, attempt: nat, o: Outcome)
    requires Mid(s, t) && Clean(s) && s.tasks[t].starts == attempt <= Budget(s.tasks[t].kind)
    ensures Inv(AfterCommand(s, t, attempt, o))
  {
    hide Inv;
    hide Mid;
    hide AfterLinkLost;
    hide Release;
    if o == LinkLost && attempt == 1 {
      if s.conn.Some? {
        MidDrop(s, t, Reconnecting(s.nextThread));
      } else {
        LinkLostKeeps(s, t);
      }
    } else {
      MidRelease(s, t);
    }
  }

  lemma DrainKeeps(s: State, t: TaskId, c: ConnId, login: bool, o: Outcome)
    requires Mid(s, t) && s.tasks[t].starts <= Budget(s.tasks[t].kind)
    requires login ==> Clean(s)
    requires !login ==> s.conn == Some(c)
    ensures Inv(AfterDrain(s, t, c, login, o))
  {
    hide Inv;
    hide Mid;
    hide Release;
    if !login {
      MidDrop(s, t, Discarding(s.nextThread));
    } else if o == Success {
      MidOrphan(s, t, c);
    } else {
      MidRelease(s, t);
    }
  }

  lemma AcquireKeeps(s: State, t: TaskId, quiet: bool)
    requires Inv(s) && Enabled(s, Acquire(t, quiet))
    ensures Inv(Apply(s, Acquire(t, quiet)))
  {
    hide Inv;
    hide Mid;
    hide Clean;
    hide Ensure;
    hide Release;
    hide Drop;
    var s1 := s.(lock := Some(t));
    AcquiredIsMid(s, t);
    InvAt(s, t);
    if s.tasks[t].kind == Close {
      if s.conn.Some? {
        MidDrop(s1, t, Closing(s.nextThread));
      } else {
        MidRelease(s1, t);
      }
    } else if !s.tasks[t].kind.retry && quiet && s.conn.Some? {
      MidBounds(s1, t);
      CleanConn(s1);
      MidCommand(s1, t, s.conn.value, Probe, Probing(s.nextThread, s.conn.value), 0);
      ProbeIsCommand(s1, t, s.conn.value);
      hide Commanded;
    } else {
      MidEnsure(s1, t, 1);
    }
  }

  lemma CleanConn(s: State)
    requires Clean(s) && s.conn.Some?
    ensures Abandoned(s.conn.value) !in s.log
  {
  }

  lemma ProbeIsCommand(s: State, t: TaskId, c: ConnId)
    requires t in s.tasks && s.tasks[t].starts == 0
    ensures At(SpawnCommand(s, t, c, Probe), t, Probing(s.nextThread, c))
         == Commanded(s, t, c, Probe, Probing(s.nextThread, c), 0)
  {
    assert s.tasks[t].(starts := 0) == s.tasks[t];
    assert s.tasks[t := s.tasks[t]] == s.tasks;
  }

  lemma AcquiredIsMid(s: State, t: TaskId)
    requires Inv(s) && t in s.tasks && s.tasks[t].pc == Queued && s.lock == None
    ensures Mid(s.(lock := Some(t)), t) && Clean(s.(lock := Some(t)))
  {
    hide LogSafe;
    hide StartsOf;
    forall th | th in s.threads
      ensures s.threads[th].Logout?
    {
      assert s.threads[th].Command? ==> Inside(s.tasks[s.threads[th].task].pc);
    }
  }

  lemma TokenKeeps(s: State, t: TaskId, ok: bool)
    requires Inv(s) && Enabled(s, TokenReply(t, ok))
    ensures Inv(Apply(s, TokenReply(t, ok)))
  {
    WaitingIsMid(s, t);
    assert StartsFit(s.tasks[t]);
    hide Inv;
    hide Mid;
    if ok {
      MidOpen(s, t, s.tasks[t].pc.attempt);
    } else {
      MidRelease(s, t);
    }
  }

  /** A task suspended on something other than its command thread has none running. */
  lemma WaitingIsMid(s: State, t: TaskId)
    requires Inv(s) && t in s.tasks
    requires var pc := s.tasks[t].pc;
             pc.AwaitingToken? || pc.Replacing? || pc.Reconnecting? || pc.Discarding? || pc.Closing?
    ensures Mid(s, t) && Clean(s)
  {
    hide LogSafe;
    hide StartsOf;
    forall th | th in s.threads
      ensures s.threads[th].Logout?
    {
      assert s.threads[th].Command? ==> Inside(s.tasks[s.threads[th].task].pc);
    }
  }

  lemma CancelKeeps(s: State, t: TaskId)
    requires Inv(s) && Enabled(s, Cancel(t))
    ensures Inv(Apply(s, Cancel(t)))
  {
    var pc := s.tasks[t].pc;
    if pc.Probing? || pc.Running? || pc.Opening? {
      AbandonKeeps(s, t);
    } else if pc.Queued? {
      LeaveQueueKeeps(s, t);
    } else if !pc.Draining? {
      assert StartsFit(s.tasks[t]);
      WaitingIsMid(s, t);
      MidRelease(s, t);
    }
  }

  lemma LeaveQueueKeeps(s: State, t: TaskId)
    requires Inv(s) && t in s.tasks && s.tasks[t].pc == Queued
    ensures Inv(At(s, t, Finished))
  {
    hide LogSafe;
    hide StartsOf;
  }

  /** The state after the caller of the command thread of `t` was cancelled. */
  function Abandon(s: State, t: TaskId): State
    requires t in s.tasks
    requires s.tasks[t].pc.Probing? || s.tasks[t].pc.Running? || s.tasks[t].pc.Opening?
  {
    var pc := s.tasks[t].pc;
    At(s, t, Draining(pc.th, pc.conn, pc.Opening?)).(log := s.log + [Abandoned(pc.conn)])
  }

  lemma AbandonKeeps(s: State, t: TaskId)
    requires Inv(s) && t in s.tasks
    requires s.tasks[t].pc.Probing? || s.tasks[t].pc.Running? || s.tasks[t].pc.Opening?
    ensures Inv(Abandon(s, t))
  {
    AbandonCounts(s, t);
    AbandonThread(s, t);
    AbandonConn(s, t);
    hide *;
    AssembleInv(Abandon(s, t));
  }

  lemma AssembleInv(s: State)
    requires LockInv(s) && ThreadInv(s) && ConnInv(s) && LogSafe(s.log) && StartInv(s)
    ensures Inv(s)
  {
  }

  lemma AbandonCounts(s: State, t: TaskId)
    requires Inv(s) && t in s.tasks
    requires s.tasks[t].pc.Probing? || s.tasks[t].pc.Running? || s.tasks[t].pc.Opening?
    ensures StartInv(Abandon(s, t))
  {
    hide LogSafe;
    hide ConnInv;
    hide ThreadInv;
    hide LockInv;
    hide StartsOf;
    var e := Abandoned(s.tasks[t].pc.conn);
    StartsAppendAll(s.log, e);
    assert forall d :: d in s.log + [e] ==> d in s.log || d == e;
  }

  lemma AbandonThread(s: State, t: TaskId)
    requires Inv(s) && t in s.tasks
    requires s.tasks[t].pc.Probing? || s.tasks[t].pc.Running? || s.tasks[t].pc.Opening?
    ensures LockInv(Abandon(s, t)) && ThreadInv(Abandon(s, t))
  {
    hide LogSafe;
    hide ConnInv;
    hide StartInv;
  }

  lemma AbandonConn(s: State, t: TaskId)
    requires Inv(s) && t in s.tasks
    requires s.tasks[t].pc.Probing? || s.tasks[t].pc.Running? || s.tasks[t].pc.Opening?
    ensures ConnInv(Abandon(s, t)) && LogSafe(Abandon(s, t).log)
  {
    hide ThreadInv;
    hide StartInv;
    LogGrows(s.log, Abandoned(s.tasks[t].pc.conn));
    hide LogSafe;
  }

  lemma ArriveKeeps(s: State, t: TaskId, kind: Kind)
    requires Inv(s) && t !in s.tasks
    ensures Inv(Apply(s, Arrive(t, kind)))
  {
    hide LogSafe;
    hide StartsOf;
    ArriveCounts(s, t, kind);
    hide StartInv;
    ArriveConn(s, t, kind);
    hide ConnInv;
  }

  lemma ArriveConn(s: State, t: TaskId, kind: Kind)
    requires LockInv(s) && ConnInv(s) && t !in s.tasks
    ensures ConnInv(s.(tasks := s.tasks[t := Task(kind, Queued, 0)]))
  {
  }

  lemma ArriveCounts(s: State, t: TaskId, kind: Kind)
    requires StartInv(s) && t !in s.tasks
    ensures StartInv(s.(tasks := s.tasks[t := Task(kind, Queued, 0)]))
  {
    NeverStarted(s.log, t);
    hide StartsOf;
  }

  lemma {:induction false} NeverStarted(log: seq<Event>, t: TaskId)
    requires forall e :: e in log && e.Started? ==> e.task != t
    ensures StartsOf(log, t) == 0
  {
    if log != [] {
      NeverStarted(log[..|log| - 1], t);
    }
  }

  lemma ThreadEndKeeps(s: State, th: ThreadId, o: Outcome)
    requires Inv(s) && th in s.threads
    ensures Inv(Apply(s, ThreadEnds(th, o)))
  {
    hide LogSafe;
    hide StartsOf;
  }

  lemma StepKeeps(s: State, step: Step)
    requires Inv(s) && Enabled(s, step)
    ensures Inv(Apply(s, step))
  {
    match step
    case Arrive(t, kind) => ArriveKeeps(s, t, kind);
    case Acquire(t, quiet) => AcquireKeeps(s, t, quiet);
    case TokenReply(t, ok) => TokenKeeps(s, t, ok);
    case ThreadEnds(th, o) => ThreadEndKeeps(s, th, o);
    case Resume(t) => ResumeKeeps(s, t);
    case Cancel(t) => CancelKeeps(s, t);
    case LinkDies(c) => LinkDeathKeeps(s, c);
  }

  lemma LinkDeathKeeps(s: State, c: ConnId)
    requires Inv(s)
    ensures Inv(s.(usable := s.usable - {c}))
  {
    hide LogSafe;
    hide StartsOf;
  }

  // --- whole runs -------------------------------------------------------------

  /** Every step of the sequence is enabled when its turn comes. */
  predicate IsRun(s: State, steps: seq<Step>)
    decreases |steps|
  {
    steps == [] || (Enabled(s, steps[0]) && IsRun(Apply(s, steps[0]), steps[1..]))
  }

  function Final(s: State, steps: seq<Step>): State
    requires IsRun(s, steps)
    decreases |steps|
  {
    if steps == [] then s else Final(Apply(s, steps[0]), steps[1..])
  }

  lemma InitialInv(oauth: bool)
    ensures Inv(Initial(oauth))
  {
  }

  lemma {:induction false} RunKeeps(s: State, steps: seq<Step>)
    requires Inv(s) && IsRun(s, steps)
    ensures Inv(Final(s, steps))
    decreases |steps|
  {
    hide Inv;
    hide Apply;
    if steps != [] {
      StepKeeps(s, steps[0]);
      RunKeeps(Apply(s, steps[0]), steps[1..]);
    }
  }

  /** At most one command thread, and the task it belongs to holds the lock. */
  ghost predicate Serialised(s: State) {
    && (forall x, y :: x in s.threads && y in s.threads && s.threads[x].Command? && s.threads[y].Command? ==> x == y)
    && (forall th :: th in s.threads && s.threads[th].Command? ==> s.lock == Some(s.threads[th].task))
  }

  /** In every run: commands are serialised under the lock until their thread ends, even when
      the caller is gone; a connection whose caller was cancelled serves no later command; and
      a command that must not be repeated is started at most once, any other at most twice. */
  lemma Serialisation(oauth: bool, steps: seq<Step>)
    requires IsRun(Initial(oauth), steps)
    ensures var s := Final(Initial(oauth), steps);
            && Serialised(s)
            && LogSafe(s.log)
            && (forall t :: t in s.tasks ==> StartsOf(s.log, t) <= Budget(s.tasks[t].kind))
            && (forall t :: t in s.tasks && s.tasks[t].pc == Finished ==> s.lock != Some(t))
  {
    InitialInv(oauth);
    RunKeeps(Initial(oauth), steps);
    InvSerialises(Final(Initial(oauth), steps));
  }

  lemma InvSerialises(s: State)
    requires Inv(s)
    ensures Serialised(s)
    ensures forall t :: t in s.tasks ==> StartsOf(s.log, t) <= Budget(s.tasks[t].kind)
    ensures forall t :: t in s.tasks && s.tasks[t].pc == Finished ==> s.lock != Some(t)
  {
    hide LogSafe;
    hide StartsOf;
    forall th | th in s.threads && s.threads[th].Command?
      ensures s.lock == Some(s.threads[th].task)
    {
      assert Inside(s.tasks[s.threads[th].task].pc);
    }
  }

  /** While the thread of a cancelled caller still runs, no other task can enter: neither
      waiting tasks, nor the connection they would use, are touched until it has ended. */
  lemma LockOutlivesCaller(s: State, step: Step, th: ThreadId)
    requires Inv(s) && Enabled(s, step)
    requires th in s.threads && s.threads[th].Command?
    requires step.ThreadEnds? ==> step.th != th
    ensures th in Apply(s, step).threads && Apply(s, step).lock == s.lock
  {
    InvSerialises(s);
    var t := s.threads[th].task;
    assert Awaits(s.tasks[t].pc, th, s.threads[th].conn);
    assert th !in s.results && th < s.nextThread;
    assert forall u :: u in s.tasks && u != t ==> !Inside(s.tasks[u].pc);
    hide Inv;
    hide Ensure;
    hide AfterProbe;
  }
}
