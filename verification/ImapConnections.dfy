/** Where the connections of a client come from and where they go: a command runs only on a
    connection that was logged in, a login happens only when none is usable, and no usable
    connection is left behind.
  */
module ImapConnections {
  import opened Prelude
  import opened ImapSession

  /** The connection a step finds logged in: the thread that live it ends without an error. */
  function OpenedBy(s: State, step: Step): set<ConnId> {
    match step
    case ThreadEnds(th, o) =>
      if th in s.threads && s.threads[th].Command? && s.threads[th].purpose == Login && o == Success then
        {s.threads[th].conn}
      else
        {}
    case _ => {}
  }

  /** The connections a run logs in. */
  function Opened(s: State, steps: seq<Step>): set<ConnId>
    requires IsRun(s, steps)
    decreases |steps|
  {
    if steps == [] then {} else OpenedBy(s, steps[0]) + Opened(Apply(s, steps[0]), steps[1..])
  }

  /** A connection logged in that its task has not heard of. */
  predicate Arriving(s: State, pc: Pc, c: ConnId) {
    match pc
    case Opening(th, d, _) => d == c && th in s.results && s.results[th] == Success
    case Draining(th, d, login) => login && d == c && th in s.results && s.results[th] == Success
    case _ => false
  }

  predicate ArrivingSomewhere(s: State, c: ConnId) {
    s.lock.Some? && s.lock.value in s.tasks && Arriving(s, s.tasks[s.lock.value].pc, c)
  }

  predicate LoggingOut(s: State, c: ConnId) {
    exists th :: th in s.threads && s.threads[th] == Logout(c)
  }

  /** No usable connection but the current one, those about to be taken over or discarded, and
      those being logged out. */
  ghost predicate Kept(s: State) {
    forall c :: c in s.usable ==> s.conn == Some(c) || LoggingOut(s, c) || ArrivingSomewhere(s, c)
  }

  predicate Usable(s: State) {
    s.conn.Some? && s.conn.value in s.usable
  }

  /** Where a new connection is on its way, there is none to use. */
  ghost predicate Lacking(s: State) {
    s.lock.Some? && s.lock.value in s.tasks
    && (s.tasks[s.lock.value].pc.AwaitingToken? || s.tasks[s.lock.value].pc.Opening?)
    ==> !Usable(s)
  }

  /** A thread that logs in is awaited as one. */
  ghost predicate Matched(s: State) {
    forall th :: th in s.threads && s.threads[th].Command? && s.threads[th].task in s.tasks ==>
      (s.threads[th].purpose == Login <==> LoginPc(s.tasks[s.threads[th].task].pc))
  }

  /** A thread waited for as a login is not a logout. */
  ghost predicate LoginAwaited(s: State) {
    s.lock.Some? && s.lock.value in s.tasks && LoginPc(s.tasks[s.lock.value].pc) ==>
      var th := s.tasks[s.lock.value].pc.th;
      th in s.threads ==> s.threads[th].Command?
  }

  predicate LoginPc(pc: Pc) {
    pc.Opening? || (pc.Draining? && pc.login)
  }

  ghost predicate Sound(s: State, live: set<ConnId>) {
    && (s.conn.Some? ==> s.conn.value in live)
    && (forall c :: ArrivingSomewhere(s, c) ==> c in live)
    && (forall e :: e in s.log && e.Started? && e.purpose != Login ==> e.conn in live)
    && Kept(s) && Lacking(s) && Matched(s) && LoginAwaited(s)
  }

  /** The same between two awaits of `t`, where nothing is on its way. */
  ghost predicate Ready(s: State, t: TaskId, live: set<ConnId>) {
    && t in s.tasks && s.lock == Some(t)
    && (forall th :: th in s.threads || th in s.results ==> th < s.nextThread)
    && (s.conn.Some? ==> s.conn.value in live)
    && (forall e :: e in s.log && e.Started? && e.purpose != Login ==> e.conn in live)
    && (forall c :: c in s.usable ==> s.conn == Some(c) || LoggingOut(s, c))
    && (forall th :: th in s.threads ==> s.threads[th].Logout?)
  }

  lemma StillLoggingOut(s: State, after: State, c: ConnId)
    requires LoggingOut(s, c)
    requires forall th :: th in s.threads ==> th in after.threads && after.threads[th] == s.threads[th]
    ensures LoggingOut(after, c)
  {
  }

  /** A piece that starts at most one thread and does not touch the connection. */
  lemma GoesOn(s: State, t: TaskId, live: set<ConnId>, after: State)
    requires Ready(s, t, live)
    requires after.conn == s.conn && after.usable == s.usable && after.results == s.results
    requires after.lock == None || after.lock == s.lock
    requires forall th :: th in s.threads ==> th in after.threads && after.threads[th] == s.threads[th]
    requires t in after.tasks && after.tasks[t].pc.Opening? ==> after.tasks[t].pc.th !in s.results
    requires t in after.tasks ==> !after.tasks[t].pc.Draining?
    requires t in after.tasks && after.tasks[t].pc.Opening? && after.tasks[t].pc.th in after.threads ==>
               after.threads[after.tasks[t].pc.th].Command?
    requires forall th :: th in after.threads && th !in s.threads && after.threads[th].Command? ==>
               after.threads[th].task == t && t in after.tasks
               && (after.threads[th].purpose == Login <==> after.tasks[t].pc.Opening?)
    requires t in after.tasks && (after.tasks[t].pc.AwaitingToken? || after.tasks[t].pc.Opening?) ==> !Usable(s)
    requires after.log == s.log
          || (|after.log| == |s.log| + 1 && after.log[..|s.log|] == s.log && after.log[|s.log|].Started?
              && (after.log[|s.log|].purpose != Login ==> after.log[|s.log|].conn in live))
    ensures Sound(after, live)
  {
    hide LoggingOut;
    forall c | c in after.usable ensures after.conn == Some(c) || LoggingOut(after, c) {
      if s.conn != Some(c) {
        StillLoggingOut(s, after, c);
      }
    }
  }

  lemma RunSound(s: State, t: TaskId, c: ConnId, n: nat, live: set<ConnId>)
    requires Ready(s, t, live) && s.conn == Some(c)
    ensures Sound(Run(s, t, c, n), live)
  {
    GoesOn(s, t, live, Run(s, t, c, n));
  }

  lemma OpenSound(s: State, t: TaskId, n: nat, live: set<ConnId>)
    requires Ready(s, t, live) && !Usable(s)
    ensures Sound(Open(s, t, n), live)
  {
    GoesOn(s, t, live, Open(s, t, n));
  }

  lemma EnsureSound(s: State, t: TaskId, n: nat, live: set<ConnId>)
    requires Ready(s, t, live)
    ensures Sound(Ensure(s, t, n), live)
  {
    hide Run, Open, Sound;
    if Usable(s) {
      RunSound(s, t, s.conn.value, n, live);
    } else if s.oauth {
      GoesOn(s, t, live, At(s, t, AwaitingToken(n)));
    } else {
      OpenSound(s, t, n, live);
    }
  }

  lemma ReleaseSound(s: State, t: TaskId, live: set<ConnId>)
    requires Ready(s, t, live)
    ensures Sound(Release(s, t), live)
  {
    GoesOn(s, t, live, Release(s, t));
  }

  /** Dropping the connection starts its logout. */
  lemma DropSound(s: State, t: TaskId, pc: Pc, live: set<ConnId>)
    requires Ready(s, t, live) && s.conn.Some?
    requires pc.Replacing? || pc.Reconnecting? || pc.Discarding? || pc.Closing?
    ensures Sound(At(Drop(s), t, pc), live)
  {
    var after := At(Drop(s), t, pc);
    assert after.threads[s.nextThread] == Logout(s.conn.value);
    assert LoggingOut(after, s.conn.value);
    hide LoggingOut;
    forall c | c in after.usable ensures LoggingOut(after, c) {
      if s.conn != Some(c) {
        StillLoggingOut(s, after, c);
      }
    }
  }

  lemma ProbingSound(s: State, t: TaskId, live: set<ConnId>)
    requires Ready(s, t, live) && s.conn.Some?
    ensures Sound(At(SpawnCommand(s, t, s.conn.value, Probe), t, Probing(s.nextThread, s.conn.value)), live)
  {
    GoesOn(s, t, live, At(SpawnCommand(s, t, s.conn.value, Probe), t, Probing(s.nextThread, s.conn.value)));
  }

  /** Nothing is on its way at `t`: its thread, if it was opening a connection, did not succeed. */
  lemma BecomesReady(s: State, t: TaskId, live: set<ConnId>)
    requires Mid(s, t) && Sound(s, live)
    requires forall c :: !Arriving(s, s.tasks[t].pc, c)
    ensures Ready(s, t, live)
  {
    hide LogSafe, CountInv, StartsFit, LoggingOut;
  }

  /** A new connection becomes current; the one before it, if any, was of no use. */
  lemma TakenOver(s: State, t: TaskId, th: ThreadId, c: ConnId, n: nat, live: set<ConnId>)
    requires Mid(s, t) && Sound(s, live)
    requires s.tasks[t].pc == Opening(th, c, n) && th in s.results && s.results[th] == Success
    ensures Ready(s.(conn := Some(c)), t, live)
  {
    hide LogSafe, CountInv, StartsFit;
    var after := s.(conn := Some(c));
    assert ArrivingSomewhere(s, c);
    forall d | d in s.usable ensures after.conn == Some(d) || LoggingOut(after, d) {
      if LoggingOut(s, d) {
        StillLoggingOut(s, after, d);
      }
    }
  }

  /** A connection nobody waits for any more is logged out. */
  lemma OrphanSound(s: State, t: TaskId, th: ThreadId, c: ConnId, live: set<ConnId>)
    requires Mid(s, t) && Sound(s, live)
    requires s.tasks[t].pc == Draining(th, c, true) && th in s.results && s.results[th] == Success
    ensures Sound(At(Spawn(s, Logout(c)), t, Discarding(s.nextThread)), live)
  {
    hide LogSafe, CountInv, StartsFit;
    var after := At(Spawn(s, Logout(c)), t, Discarding(s.nextThread));
    assert after.threads[s.nextThread] == Logout(c);
    assert LoggingOut(after, c);
    hide LoggingOut;
    forall d | d in s.usable ensures after.conn == Some(d) || LoggingOut(after, d) {
      if LoggingOut(s, d) {
        StillLoggingOut(s, after, d);
      }
    }
  }

  // --- every step -----------------------------------------------------------------------

  lemma ResumeSound(s: State, t: TaskId, live: set<ConnId>)
    requires Inv(s) && Enabled(s, Resume(t)) && Sound(s, live)
    ensures Sound(Apply(s, Resume(t)), live)
  {
    ResumedIsMid(s, t);
    hide Inv, Mid, Sound, Ready, Ensure, Release, AfterLogin, AfterProbe, AfterCommand, AfterLinkLost, AfterDrain;
    match s.tasks[t].pc
    case Opening(th, c, n) => LoginSound(s, t, th, c, n, live);
    case Draining(th, c, login) => DrainSound(s, t, th, c, login, live);
    case _ =>
      BecomesReady(s, t, live);
      RestSound(s, t, live);
  }

  lemma RestSound(s: State, t: TaskId, live: set<ConnId>)
    requires Enabled(s, Resume(t)) && Ready(s, t, live)
    requires !s.tasks[t].pc.Opening? && !s.tasks[t].pc.Draining?
    ensures Sound(Apply(s, Resume(t)), live)
  {
    hide Sound, Ready, Ensure, Release, AfterLogin, AfterProbe, AfterCommand, AfterLinkLost, AfterDrain;
    OthersSound(s, t, live);
  }

  lemma LoginSound(s: State, t: TaskId, th: ThreadId, c: ConnId, n: nat, live: set<ConnId>)
    requires Mid(s, t) && Sound(s, live) && s.tasks[t].pc == Opening(th, c, n) && th in s.results
    ensures Sound(AfterLogin(s, t, c, n, s.results[th]), live)
  {
    hide Sound, Ready, Release, Run;
    if s.results[th] == Success {
      TakenOver(s, t, th, c, n, live);
      RunSound(s.(conn := Some(c)), t, c, n, live);
    } else {
      BecomesReady(s, t, live);
      ReleaseSound(s, t, live);
    }
  }

  lemma DrainSound(s: State, t: TaskId, th: ThreadId, c: ConnId, login: bool, live: set<ConnId>)
    requires Mid(s, t) && Sound(s, live) && s.tasks[t].pc == Draining(th, c, login) && th in s.results
    ensures Sound(AfterDrain(s, t, c, login, s.results[th]), live)
  {
    hide Sound, Ready, Release, Drop, Spawn;
    if login && s.results[th] == Success {
      OrphanSound(s, t, th, c, live);
    } else {
      BecomesReady(s, t, live);
      DropOrRelease(s, t, Discarding(s.nextThread), live);
    }
  }

  lemma OthersSound(s: State, t: TaskId, live: set<ConnId>)
    requires Ready(s, t, live)
    ensures Sound(Ensure(s, t, 1), live) && Sound(Release(s, t), live)
    ensures Sound(AfterLinkLost(s, t), live)
    ensures forall o :: Sound(AfterProbe(s, t, o), live)
    ensures forall n, o :: Sound(AfterCommand(s, t, n, o), live)
  {
    hide Sound, Ready, Ensure, Release, Drop;
    EnsureSound(s, t, 1, live);
    EnsureSound(s, t, 2, live);
    DropOrRelease(s, t, Replacing(s.nextThread), live);
    DropOrRelease(s, t, Reconnecting(s.nextThread), live);
  }

  lemma DropOrRelease(s: State, t: TaskId, pc: Pc, live: set<ConnId>)
    requires Ready(s, t, live)
    requires pc.Replacing? || pc.Reconnecting? || pc.Discarding? || pc.Closing?
    ensures Sound(Release(s, t), live)
    ensures s.conn.Some? ==> Sound(At(Drop(s), t, pc), live)
  {
    hide Sound, Ready, Release, Drop;
    ReleaseSound(s, t, live);
    if s.conn.Some? {
      DropSound(s, t, pc, live);
    }
  }

  lemma AcquireSound(s: State, t: TaskId, quiet: bool, live: set<ConnId>)
    requires Inv(s) && Enabled(s, Acquire(t, quiet)) && Sound(s, live)
    ensures Sound(Apply(s, Acquire(t, quiet)), live)
  {
    var s1 := s.(lock := Some(t));
    AcquiredIsMid(s, t);
    LockedSound(s, t, live);
    hide Inv, Mid, Sound, Ready, Ensure, Release, Drop;
    BecomesReady(s1, t, live);
    EnsureSound(s1, t, 1, live);
    DropOrRelease(s1, t, Closing(s.nextThread), live);
    if s.conn.Some? {
      ProbingSound(s1, t, live);
    }
  }

  lemma LockedSound(s: State, t: TaskId, live: set<ConnId>)
    requires Sound(s, live) && t in s.tasks && s.tasks[t].pc == Queued && s.lock == None
    ensures Sound(s.(lock := Some(t)), live)
  {
    var after := s.(lock := Some(t));
    forall c | c in s.usable ensures after.conn == Some(c) || LoggingOut(after, c) {
      if LoggingOut(s, c) {
        StillLoggingOut(s, after, c);
      }
    }
  }

  lemma TokenSound(s: State, t: TaskId, ok: bool, live: set<ConnId>)
    requires Inv(s) && Enabled(s, TokenReply(t, ok)) && Sound(s, live)
    ensures Sound(Apply(s, TokenReply(t, ok)), live)
  {
    WaitingIsMid(s, t);
    hide Inv, Sound, Ready, Open, Release;
    BecomesReady(s, t, live);
    ReleaseSound(s, t, live);
    if ok {
      NothingUsable(s, t, live);
      OpenSound(s, t, s.tasks[t].pc.attempt, live);
    }
  }

  lemma NothingUsable(s: State, t: TaskId, live: set<ConnId>)
    requires Mid(s, t) && s.tasks[t].pc.AwaitingToken? && Sound(s, live)
    ensures !Usable(s)
  {
    hide LogSafe, CountInv, StartsFit;
  }

  lemma CancelSound(s: State, t: TaskId, live: set<ConnId>)
    requires Inv(s) && Enabled(s, Cancel(t)) && Sound(s, live)
    ensures Sound(Apply(s, Cancel(t)), live)
  {
    var pc := s.tasks[t].pc;
    if pc.Probing? || pc.Running? || pc.Opening? {
      hide LogSafe, StartInv, ThreadInv, ConnInv;
      AbandonSound(s, t, live);
    } else if pc.Queued? {
      hide LogSafe, StartInv, ThreadInv, ConnInv;
      LeaveSound(s, t, live);
    } else if !pc.Draining? {
      WaitingIsMid(s, t);
      hide Inv, Sound, Ready, Mid, Release;
      BecomesReady(s, t, live);
      ReleaseSound(s, t, live);
    }
  }

  lemma AbandonSound(s: State, t: TaskId, live: set<ConnId>)
    requires LockInv(s) && t in s.tasks && Sound(s, live)
    requires s.tasks[t].pc.Probing? || s.tasks[t].pc.Running? || s.tasks[t].pc.Opening?
    ensures Sound(Abandon(s, t), live)
  {
    var after := Abandon(s, t);
    assert s.lock == Some(t);
    forall c | c in s.usable && LoggingOut(s, c) ensures LoggingOut(after, c) {
      StillLoggingOut(s, after, c);
    }
    hide LoggingOut;
    assert forall c :: ArrivingSomewhere(after, c) <==> ArrivingSomewhere(s, c);
  }

  lemma LeaveSound(s: State, t: TaskId, live: set<ConnId>)
    requires LockInv(s) && t in s.tasks && s.tasks[t].pc == Queued && Sound(s, live)
    ensures Sound(At(s, t, Finished), live)
  {
    var after := At(s, t, Finished);
    assert s.lock != Some(t);
    forall c | c in s.usable && LoggingOut(s, c) ensures LoggingOut(after, c) {
      StillLoggingOut(s, after, c);
    }
    hide LoggingOut;
    assert forall c :: ArrivingSomewhere(after, c) <==> ArrivingSomewhere(s, c);
  }

  lemma ArriveSound(s: State, t: TaskId, kind: Kind, live: set<ConnId>)
    requires Inv(s) && t !in s.tasks && Sound(s, live)
    ensures Sound(Apply(s, Arrive(t, kind)), live)
  {
    var after := Apply(s, Arrive(t, kind));
    forall c | c in s.usable && LoggingOut(s, c) ensures LoggingOut(after, c) {
      StillLoggingOut(s, after, c);
    }
    hide LogSafe, StartInv, ConnInv, LoggingOut;
    assert forall c :: ArrivingSomewhere(after, c) <==> ArrivingSomewhere(s, c);
  }

  lemma DeathSound(s: State, d: ConnId, live: set<ConnId>)
    requires Sound(s, live)
    ensures Sound(s.(usable := s.usable - {d}), live)
  {
    var after := s.(usable := s.usable - {d});
    forall c | c in s.usable && LoggingOut(s, c) ensures LoggingOut(after, c) {
      StillLoggingOut(s, after, c);
    }
    hide LoggingOut;
    assert forall c :: ArrivingSomewhere(after, c) <==> ArrivingSomewhere(s, c);
  }

  lemma LogoutEndSound(s: State, th: ThreadId, o: Outcome, live: set<ConnId>)
    requires ThreadInv(s) && th in s.threads && s.threads[th].Logout? && Sound(s, live)
    ensures Sound(Apply(s, ThreadEnds(th, o)), live)
  {
    var after := Apply(s, ThreadEnds(th, o));
    forall c | c in after.usable && LoggingOut(s, c) ensures LoggingOut(after, c) {
      var x :| x in s.threads && s.threads[x] == Logout(c);
      assert x in after.threads;
    }
    hide LoggingOut;
    assert forall c :: ArrivingSomewhere(after, c) <==> ArrivingSomewhere(s, c);
  }

  lemma CommandEndSound(s: State, th: ThreadId, o: Outcome, live: set<ConnId>)
    requires LockInv(s) && ThreadInv(s) && th in s.threads && s.threads[th].Command? && Sound(s, live)
    requires PcInv(s, s.tasks[s.threads[th].task].pc)
    ensures Sound(Apply(s, ThreadEnds(th, o)), live + OpenedBy(s, ThreadEnds(th, o)))
  {
    var after := Apply(s, ThreadEnds(th, o));
    var c := s.threads[th].conn;
    forall d | LoggingOut(s, d) ensures LoggingOut(after, d) {
      var x :| x in s.threads && s.threads[x] == Logout(d);
      assert x in after.threads;
    }
    hide LoggingOut;
    assert s.lock == Some(s.threads[th].task);
    assert forall d :: ArrivingSomewhere(s, d) ==> ArrivingSomewhere(after, d);
    if s.threads[th].purpose == Login && o == Success {
      assert ArrivingSomewhere(after, c);
      assert forall d :: ArrivingSomewhere(after, d) ==> d == c;
    }
  }

  lemma EndSound(s: State, th: ThreadId, o: Outcome, live: set<ConnId>)
    requires Inv(s) && th in s.threads && Sound(s, live)
    ensures Sound(Apply(s, ThreadEnds(th, o)), live + OpenedBy(s, ThreadEnds(th, o)))
  {
    if s.threads[th].Command? {
      InvAt(s, s.threads[th].task);
      hide Sound, StartInv, LogSafe, ConnInv;
      CommandEndSound(s, th, o, live);
    } else {
      hide Sound, StartInv, LogSafe, ConnInv;
      LogoutEndSound(s, th, o, live);
      assert live + OpenedBy(s, ThreadEnds(th, o)) == live;
    }
  }

  lemma StepSound(s: State, step: Step, live: set<ConnId>)
    requires Inv(s) && Enabled(s, step) && Sound(s, live)
    ensures Sound(Apply(s, step), live + OpenedBy(s, step))
  {
    if step.ThreadEnds? {
      hide Inv, Sound, Apply, OpenedBy;
      EndSound(s, step.th, step.outcome, live);
    } else {
      assert live + OpenedBy(s, step) == live;
      hide Inv, Sound, Apply, OpenedBy;
      match step
      case Arrive(t, kind) => ArriveSound(s, t, kind, live);
      case Acquire(t, quiet) => AcquireSound(s, t, quiet, live);
      case TokenReply(t, ok) => TokenSound(s, t, ok, live);
      case Resume(t) => ResumeSound(s, t, live);
      case Cancel(t) => CancelSound(s, t, live);
      case LinkDies(c) => LinkDiesSound(s, c, live);
    }
  }

  lemma LinkDiesSound(s: State, c: ConnId, live: set<ConnId>)
    requires Sound(s, live)
    ensures Sound(Apply(s, LinkDies(c)), live)
  {
    hide Sound;
    DeathSound(s, c, live);
  }

  // --- whole runs ------------------------------------------------------------------------

  lemma {:induction false} RunIsSound(s: State, steps: seq<Step>, live: set<ConnId>)
    requires Inv(s) && IsRun(s, steps) && Sound(s, live)
    ensures Inv(Final(s, steps)) && Sound(Final(s, steps), live + Opened(s, steps))
    decreases |steps|
  {
    hide Inv, Sound, Apply, OpenedBy, Enabled;
    if steps == [] {
      assert live + {} == live;
    } else {
      StepKeeps(s, steps[0]);
      StepSound(s, steps[0], live);
      RunIsSound(Apply(s, steps[0]), steps[1..], live + OpenedBy(s, steps[0]));
      assert live + OpenedBy(s, steps[0]) + Opened(Apply(s, steps[0]), steps[1..]) == live + Opened(s, steps);
    }
  }

  /** In every run: commands and probes are started only on connections that were logged in;
      and once nobody is inside the critical section, every connection still usable is the
      current one or is being logged out. */
  lemma ConnectionsAccountedFor(oauth: bool, steps: seq<Step>)
    requires IsRun(Initial(oauth), steps)
    ensures var s := Final(Initial(oauth), steps);
            && (forall e :: e in s.log && e.Started? && e.purpose != Login ==> e.conn in Opened(Initial(oauth), steps))
            && (s.lock == None ==> forall c :: c in s.usable ==> s.conn == Some(c) || LoggingOut(s, c))
  {
    InitialInv(oauth);
    RunIsSound(Initial(oauth), steps, {});
    assert {} + Opened(Initial(oauth), steps) == Opened(Initial(oauth), steps);
  }

  /** `close` leaves no connection: the one there was is on its way out. */
  lemma CloseLogsOut(s: State, t: TaskId, quiet: bool)
    requires Enabled(s, Acquire(t, quiet)) && s.tasks[t].kind == Close
    ensures var after := Apply(s, Acquire(t, quiet));
            after.conn == None && (s.conn.Some? ==> LoggingOut(after, s.conn.value))
  {
    var after := Apply(s, Acquire(t, quiet));
    if s.conn.Some? {
      assert after.threads[s.nextThread] == Logout(s.conn.value);
    }
  }

  /** The step adds the start of a login to the log. */
  predicate LogsIn(before: seq<Event>, after: seq<Event>) {
    |after| == |before| + 1 && after[|before|].Started? && after[|before|].purpose == Login
  }

  /** A login is started only where there is no connection to use. */
  lemma LoginOnlyWhenNeeded(oauth: bool, steps: seq<Step>, step: Step)
    requires IsRun(Initial(oauth), steps) && Enabled(Final(Initial(oauth), steps), step)
    requires LogsIn(Final(Initial(oauth), steps).log, Apply(Final(Initial(oauth), steps), step).log)
    ensures !Usable(Final(Initial(oauth), steps))
  {
    hide Inv, Sound, LogsIn, Usable, Apply, Enabled;
    InitialInv(oauth);
    NothingYet(oauth);
    RunIsSound(Initial(oauth), steps, {});
    hide IsRun, Final;
    LoginMeans(Final(Initial(oauth), steps), step, {} + Opened(Initial(oauth), steps));
  }

  lemma NothingYet(oauth: bool)
    ensures Sound(Initial(oauth), {})
  {
  }

  lemma EnsureLogsIn(s: State, t: TaskId, n: nat)
    requires t in s.tasks
    ensures LogsIn(s.log, Ensure(s, t, n).log) ==> !Usable(s)
  {
  }

  lemma ResumeLogsIn(s: State, t: TaskId)
    requires Enabled(s, Resume(t)) && LogsIn(s.log, Apply(s, Resume(t)).log)
    ensures !Usable(s)
  {
    hide Ensure;
    EnsureLogsIn(s, t, 1);
    EnsureLogsIn(s, t, 2);
  }

  lemma AcquireLogsIn(s: State, t: TaskId, quiet: bool)
    requires Enabled(s, Acquire(t, quiet)) && LogsIn(s.log, Apply(s, Acquire(t, quiet)).log)
    ensures !Usable(s)
  {
    hide Ensure;
    EnsureLogsIn(s.(lock := Some(t)), t, 1);
  }

  lemma LoginMeans(s: State, step: Step, live: set<ConnId>)
    requires Inv(s) && Sound(s, live) && Enabled(s, step) && LogsIn(s.log, Apply(s, step).log)
    ensures !Usable(s)
  {
    match step
    case Acquire(t, quiet) =>
      hide Inv, Sound, Apply, LogsIn, Usable;
      AcquireLogsIn(s, t, quiet);
    case Resume(t) =>
      hide Inv, Sound, Apply, LogsIn, Usable;
      ResumeLogsIn(s, t);
    case TokenReply(t, _) =>
      WaitingIsMid(s, t);
      hide Inv, Sound, Apply, LogsIn, Usable;
      NothingUsable(s, t, live);
    case _ => hide Inv, Sound, Usable;
  }
}
