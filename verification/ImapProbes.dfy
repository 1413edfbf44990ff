/** The probe of a connection that has gone quiet: a command that must not be repeated runs on
    such a connection only after the probe was answered, and nothing else is probed.
  */
module ImapProbes {
  import opened Prelude
  import opened ImapSession
  import opened ImapCalls

  /** No command on a quiet connection before its probe was answered. */
  ghost predicate ProbedFirst(notes: seq<Note>) {
    forall c :: Begun(c, Work) in notes && Entered(true, Some(c)) in notes ==> Ended(c, Probe, Success) in notes
  }

  /** Only a connection that was quiet is probed. */
  ghost predicate ProbedOnly(notes: seq<Note>) {
    forall c :: Begun(c, Probe) in notes ==> Entered(true, Some(c)) in notes
  }

  ghost predicate Seen(s: State, notes: seq<Note>) {
    && ProbedFirst(notes) && ProbedOnly(notes)
    && (forall quiet, c: ConnId :: Entered(quiet, Some(c)) in notes ==> c < s.nextConn)
  }

  /** The current connection, where it was quiet, has answered its probe. */
  ghost predicate Answering(s: State, notes: seq<Note>) {
    s.conn.Some? && Entered(true, s.conn) in notes ==> Ended(s.conn.value, Probe, Success) in notes
  }

  ghost predicate Mindful(s: State, t: TaskId, notes: seq<Note>) {
    if t !in s.tasks then notes == []
    else if s.tasks[t].kind != Call(false) then true
    else
      && Seen(s, notes)
      && match s.tasks[t].pc
         case Queued => forall n :: n in notes ==> !n.Entered? && !n.Begun?
         case Probing(th, c) => s.conn == Some(c) && (th in s.results ==> Ended(c, Probe, s.results[th]) in notes)
         case Opening(_, c, _) => Answering(s, notes) && forall quiet :: Entered(quiet, Some(c)) !in notes
         case Draining(_, _, _) => true
         case Discarding(_) => true
         case Finished => true
         case _ => Answering(s, notes)
  }

  /** Between two awaits. */
  ghost predicate Heedful(s: State, t: TaskId, notes: seq<Note>) {
    && t in s.tasks && s.tasks[t].kind == Call(false)
    && Seen(s, notes) && Answering(s, notes)
    && (forall th :: th in s.results ==> th < s.nextThread)
  }

  lemma SeenMore(s: State, after: State, notes: seq<Note>, more: seq<Note>)
    requires Seen(s, notes) && s.nextConn <= after.nextConn
    requires forall n :: n in more ==> !n.Entered? && (n.Begun? ==> n.purpose != Probe)
    requires forall n :: n in more && n.Begun? && n.purpose == Work ==>
               Entered(true, Some(n.conn)) in notes ==> Ended(n.conn, Probe, Success) in notes
    ensures Seen(after, notes + more)
  {
    forall c | Begun(c, Work) in notes + more && Entered(true, Some(c)) in notes + more
      ensures Ended(c, Probe, Success) in notes + more
    {
      if Begun(c, Work) in more {
      }
    }
  }

  lemma RunMindful(s: State, t: TaskId, c: ConnId, n: nat, notes: seq<Note>)
    requires Heedful(s, t, notes) && s.conn == Some(c)
    ensures Mindful(Run(s, t, c, n), t, notes + BegunBy(s.log, Run(s, t, c, n).log, t))
  {
    SeenMore(s, Run(s, t, c, n), notes, BegunBy(s.log, Run(s, t, c, n).log, t));
    hide Seen;
  }

  lemma OpenMindful(s: State, t: TaskId, n: nat, notes: seq<Note>)
    requires Heedful(s, t, notes)
    ensures Mindful(Open(s, t, n), t, notes + BegunBy(s.log, Open(s, t, n).log, t))
  {
    SeenMore(s, Open(s, t, n), notes, BegunBy(s.log, Open(s, t, n).log, t));
    assert forall quiet :: Entered(quiet, Some(s.nextConn)) !in notes;
    hide Seen;
  }

  lemma EnsureMindful(s: State, t: TaskId, n: nat, notes: seq<Note>)
    requires Heedful(s, t, notes)
    ensures Mindful(Ensure(s, t, n), t, notes + BegunBy(s.log, Ensure(s, t, n).log, t))
  {
    if s.conn.Some? && s.conn.value in s.usable {
      RunMindful(s, t, s.conn.value, n, notes);
    } else if s.oauth {
      assert notes + [] == notes;
    } else {
      OpenMindful(s, t, n, notes);
    }
    hide Run, Open, Seen;
  }

  /** A step after which the task has nothing more to start. */
  lemma SettlesMindful(s: State, t: TaskId, after: State, notes: seq<Note>)
    requires t in s.tasks && s.tasks[t].kind == Call(false) && Seen(s, notes)
    requires t in after.tasks && after.nextConn == s.nextConn
    requires BegunBy(s.log, after.log, t) == []
    requires var pc := after.tasks[t].pc;
             pc.Finished? || pc.Draining? || pc.Discarding? || (after.conn == None && !pc.Queued? && !pc.Probing? && !pc.Opening?)
    ensures Mindful(after, t, notes + BegunBy(s.log, after.log, t))
  {
    assert notes + [] == notes;
    SeenMore(s, after, notes, []);
    hide Seen;
  }

  // --- every step -----------------------------------------------------------------------

  lemma CallMindful(s: State, t: TaskId, quiet: bool, notes: seq<Note>)
    requires Inv(s) && Enabled(s, Acquire(t, quiet)) && s.tasks[t].kind == Call(false) && Mindful(s, t, notes)
    ensures Mindful(Apply(s, Acquire(t, quiet)), t, notes + NotesOf(s, Acquire(t, quiet), t))
  {
    AcquiredIsMid(s, t);
    var s1 := s.(lock := Some(t));
    EntersMindful(s1, t, quiet, notes);
    EnteredNotes(s, t, quiet, notes);
    hide Inv, Mid, Ensure, BegunBy, NotesOf, Seen;
    if quiet && s.conn.Some? {
      ProbingMindful(s, t, notes);
    } else {
      EnsureMindful(s1, t, 1, notes + [Entered(quiet, s.conn)]);
    }
  }

  lemma EnteredNotes(s: State, t: TaskId, quiet: bool, notes: seq<Note>)
    requires Enabled(s, Acquire(t, quiet))
    ensures notes + NotesOf(s, Acquire(t, quiet), t)
         == notes + [Entered(quiet, s.conn)] + BegunBy(s.log, Apply(s, Acquire(t, quiet)).log, t)
  {
    hide Apply, BegunBy;
  }

  lemma ProbingMindful(s: State, t: TaskId, notes: seq<Note>)
    requires Enabled(s, Acquire(t, true)) && s.tasks[t].kind == Call(false) && s.conn.Some?
    requires Seen(s, notes + [Entered(true, s.conn)] + [Begun(s.conn.value, Probe)])
    requires s.nextThread !in s.results
    ensures var after := Apply(s, Acquire(t, true));
            Mindful(after, t, notes + [Entered(true, s.conn)] + BegunBy(s.log, after.log, t))
  {
    assert BegunBy(s.log, Apply(s, Acquire(t, true)).log, t) == [Begun(s.conn.value, Probe)];
    hide BegunBy, Ensure;
  }

  lemma EntersMindful(s: State, t: TaskId, quiet: bool, notes: seq<Note>)
    requires Mid(s, t) && s.tasks[t].kind == Call(false) && Seen(s, notes)
    requires forall n :: n in notes ==> !n.Entered? && !n.Begun?
    ensures Seen(s, notes + [Entered(quiet, s.conn)])
    ensures quiet && s.conn.Some? ==> Seen(s, notes + [Entered(quiet, s.conn)] + [Begun(s.conn.value, Probe)])
    ensures !quiet || s.conn == None ==> Heedful(s, t, notes + [Entered(quiet, s.conn)])
    ensures s.nextThread !in s.results
  {
    hide LogSafe, CountInv, StartsFit;
    assert Begun(0, Work) !in notes;
  }

  lemma TokenMindful(s: State, t: TaskId, ok: bool, notes: seq<Note>)
    requires Inv(s) && Enabled(s, TokenReply(t, ok)) && s.tasks[t].kind == Call(false) && Mindful(s, t, notes)
    ensures Mindful(Apply(s, TokenReply(t, ok)), t, notes + NotesOf(s, TokenReply(t, ok), t))
  {
    WaitingIsMid(s, t);
    var after := Apply(s, TokenReply(t, ok));
    var told := notes + [Token(ok)];
    assert notes + NotesOf(s, TokenReply(t, ok), t) == told + BegunBy(s.log, after.log, t);
    SeenMore(s, s, notes, [Token(ok)]);
    MidOld(s, t);
    hide Inv, Mid, Seen;
    if ok {
      hide BegunBy;
      OpenMindful(s, t, s.tasks[t].pc.attempt, told);
    } else {
      SettlesMindful(s, t, after, told);
    }
  }

  lemma MidOld(s: State, t: TaskId)
    requires Mid(s, t)
    ensures forall th :: th in s.results ==> th < s.nextThread
  {
    hide LogSafe, CountInv, StartsFit;
  }

  lemma ResumeMindful(s: State, t: TaskId, notes: seq<Note>)
    requires Inv(s) && Enabled(s, Resume(t)) && s.tasks[t].kind == Call(false) && Mindful(s, t, notes)
    ensures Mindful(Apply(s, Resume(t)), t, notes + NotesOf(s, Resume(t), t))
  {
    ResumedIsMid(s, t);
    InvAt(s, t);
    MidOld(s, t);
    NoCause(s, t, notes);
    hide Inv, Mid, Seen, StartsFit, BegunBy, NotesOf, Ensure, Run, Drop, Release;
    hide AfterLogin, AfterProbe, AfterDrain, AfterCommand, AfterLinkLost;
    match s.tasks[t].pc
    case Probing(th, c) => ProbeMindful(s, t, th, c, notes);
    case Replacing(_) => EnsureMindful(s, t, 1, notes);
    case Opening(th, c, n) => LoginMindful(s, t, c, n, s.results[th], notes);
    case Running(th, _, n) => CommandMindful(s, t, n, s.results[th], notes);
    case Reconnecting(_) => CommandMindful(s, t, 2, LinkLost, notes);
    case Draining(th, c, login) => DrainMindful(s, t, c, login, s.results[th], notes);
    case Discarding(_) => CommandMindful(s, t, 2, LinkLost, notes);
    case Closing(_) => CommandMindful(s, t, 2, LinkLost, notes);
    case _ =>
  }

  lemma NoCause(s: State, t: TaskId, notes: seq<Note>)
    requires Enabled(s, Resume(t))
    ensures notes + NotesOf(s, Resume(t), t) == notes + BegunBy(s.log, Apply(s, Resume(t)).log, t)
  {
    hide Apply, BegunBy;
  }

  lemma ProbeMindful(s: State, t: TaskId, th: ThreadId, c: ConnId, notes: seq<Note>)
    requires t in s.tasks && s.tasks[t].kind == Call(false) && Mindful(s, t, notes)
    requires s.tasks[t].pc == Probing(th, c) && th in s.results
    requires forall x :: x in s.results ==> x < s.nextThread
    ensures var after := AfterProbe(s, t, s.results[th]);
            Mindful(after, t, notes + BegunBy(s.log, after.log, t))
  {
    if s.results[th] == Success {
      hide BegunBy, Ensure, Seen;
      EnsureMindful(s, t, 1, notes);
    } else {
      hide Seen, Ensure;
      SettlesMindful(s, t, AfterProbe(s, t, s.results[th]), notes);
    }
  }

  lemma LoginMindful(s: State, t: TaskId, c: ConnId, n: nat, o: Outcome, notes: seq<Note>)
    requires t in s.tasks && s.tasks[t].kind == Call(false) && Seen(s, notes)
    requires forall quiet :: Entered(quiet, Some(c)) !in notes
    requires forall x :: x in s.results ==> x < s.nextThread
    ensures var after := AfterLogin(s, t, c, n, o);
            Mindful(after, t, notes + BegunBy(s.log, after.log, t))
  {
    if o == Success {
      hide BegunBy, Run;
      RunMindful(s.(conn := Some(c)), t, c, n, notes);
    } else {
      hide Seen;
      SettlesMindful(s, t, Release(s, t), notes);
    }
  }

  lemma CommandMindful(s: State, t: TaskId, n: nat, o: Outcome, notes: seq<Note>)
    requires t in s.tasks && s.tasks[t].kind == Call(false) && Seen(s, notes)
    requires o == LinkLost && n == 1 ==> s.conn.Some?
    ensures var after := AfterCommand(s, t, n, o);
            Mindful(after, t, notes + BegunBy(s.log, after.log, t))
    ensures Mindful(AfterLinkLost(s, t), t, notes + BegunBy(s.log, AfterLinkLost(s, t).log, t))
    ensures Mindful(Release(s, t), t, notes + BegunBy(s.log, Release(s, t).log, t))
  {
    hide Seen, Ensure;
    SettlesMindful(s, t, Release(s, t), notes);
    SettlesMindful(s, t, AfterCommand(s, t, n, o), notes);
  }

  lemma DrainMindful(s: State, t: TaskId, c: ConnId, login: bool, o: Outcome, notes: seq<Note>)
    requires t in s.tasks && s.tasks[t].kind == Call(false) && Seen(s, notes)
    ensures var after := AfterDrain(s, t, c, login, o);
            Mindful(after, t, notes + BegunBy(s.log, after.log, t))
  {
    hide Seen, Mindful;
    SettlesMindful(s, t, AfterDrain(s, t, c, login, o), notes);
  }

  lemma CancelMindful(s: State, t: TaskId, notes: seq<Note>)
    requires Enabled(s, Cancel(t)) && s.tasks[t].kind == Call(false) && Seen(s, notes)
    ensures Mindful(Apply(s, Cancel(t)), t, notes + NotesOf(s, Cancel(t), t))
  {
    CancelIs(s, t);
    SeenMore(s, s, notes, [Cancelled]);
    CancelStartsNothing(s, t);
    hide Apply, Seen, Mindful, BegunBy;
    assert notes + NotesOf(s, Cancel(t), t) == notes + [Cancelled] + BegunBy(s.log, Apply(s, Cancel(t)).log, t);
    SettlesMindful(s, t, Apply(s, Cancel(t)), notes + [Cancelled]);
  }

  lemma EndMindful(s: State, th: ThreadId, o: Outcome, t: TaskId, notes: seq<Note>)
    requires Inv(s) && th in s.threads && Known(s, t, notes) && Mindful(s, t, notes)
    ensures Mindful(Apply(s, ThreadEnds(th, o)), t, notes + NotesOf(s, ThreadEnds(th, o), t))
  {
    hide Inv, Apply, NotesOf, Seen, Works, Stopped, Follows;
    EndIs(s, th, o, t);
    EndedIs(s, th, o);
    if s.threads[th].Command? {
      OwnedThread(s, th);
    }
    if t in s.tasks && s.tasks[t].kind == Call(false) {
      EndedMindful(s, Apply(s, ThreadEnds(th, o)), th, o, t, notes);
    } else {
      assert notes == [] ==> notes + [] == [];
    }
  }

  lemma EndedMindful(s: State, after: State, th: ThreadId, o: Outcome, t: TaskId, notes: seq<Note>)
    requires th in s.threads && t in s.tasks && s.tasks[t].kind == Call(false)
    requires Linked(s, t, s.tasks[t].pc) && Mindful(s, t, notes)
    requires after.results == s.results[th := o]
    requires after.tasks == s.tasks && after.conn == s.conn && after.nextConn == s.nextConn
    ensures var thread := s.threads[th];
            var more := if thread.Command? && thread.task == t then [Ended(thread.conn, thread.purpose, o)] else [];
            Mindful(after, t, notes + more)
  {
    var thread := s.threads[th];
    var more := if thread.Command? && thread.task == t then [Ended(thread.conn, thread.purpose, o)] else [];
    SeenMore(s, after, notes, more);
    assert forall n :: n in notes + more <==> n in notes || n in more;
    hide Seen;
  }

  lemma StepMindful(s: State, step: Step, t: TaskId, notes: seq<Note>)
    requires Inv(s) && Enabled(s, step) && Known(s, t, notes) && Mindful(s, t, notes)
    ensures Mindful(Apply(s, step), t, notes + NotesOf(s, step, t))
  {
    if step.ThreadEnds? {
      hide Inv, Apply, NotesOf, Known, Mindful;
      EndMindful(s, step.th, step.outcome, t, notes);
    } else if Actor(step) != Some(t) {
      OtherMindful(s, step, t, notes);
    } else if step.Arrive? {
      assert NotesOf(s, step, t) == [];
    } else if s.tasks[t].kind == Call(false) {
      hide Inv, Apply, NotesOf;
      match step
      case Acquire(_, quiet) => CallMindful(s, t, quiet, notes);
      case TokenReply(_, ok) => TokenMindful(s, t, ok, notes);
      case Resume(_) => ResumeMindful(s, t, notes);
      case Cancel(_) => CancelMindful(s, t, notes);
    } else {
      OwnFollows(s, step, t, notes);
      KindStays(s, step, t);
    }
  }

  ghost predicate SameKind(s: State, after: State, t: TaskId)
    requires t in s.tasks
  {
    t in after.tasks && after.tasks[t].kind == s.tasks[t].kind
  }

  lemma EnsureKind(s: State, t: TaskId, n: nat)
    requires t in s.tasks
    ensures SameKind(s, Ensure(s, t, n), t)
  {
  }

  lemma ResumeKind(s: State, t: TaskId)
    requires Enabled(s, Resume(t))
    ensures SameKind(s, Apply(s, Resume(t)), t)
  {
    hide Ensure;
    EnsureKind(s, t, 1);
    EnsureKind(s, t, 2);
    hide Spawn, SpawnCommand;
  }

  /** A task stays the call it is. */
  lemma KindStays(s: State, step: Step, t: TaskId)
    requires Enabled(s, step) && Actor(step) == Some(t) && !step.Arrive?
    ensures SameKind(s, Apply(s, step), t)
  {
    match step
    case Acquire(_, _) =>
      hide Ensure;
      EnsureKind(s.(lock := Some(t)), t, 1);
    case TokenReply(_, ok) => hide Ensure;
    case Resume(_) =>
      hide Apply;
      ResumeKind(s, t);
    case Cancel(_) =>
      hide Apply;
      CancelIs(s, t);
  }

  lemma OtherMindful(s: State, step: Step, t: TaskId, notes: seq<Note>)
    requires Inv(s) && Enabled(s, step) && Actor(step) != Some(t) && !step.ThreadEnds? && Mindful(s, t, notes)
    ensures Mindful(Apply(s, step), t, notes + NotesOf(s, step, t))
  {
    hide Apply, Seen, Inv;
    OtherElsewhere(s, step, t);
    assert notes + NotesOf(s, step, t) == notes;
    if t in s.tasks && s.tasks[t].kind == Call(false) {
      SeenMore(s, Apply(s, step), notes, []);
      if Inside(s.tasks[t].pc) {
        LockHeld(s);
        OtherKeepsConn(s, step, t);
      }
    }
  }

  // --- whole runs ------------------------------------------------------------------------

  lemma {:induction false} RunMinds(s: State, steps: seq<Step>, t: TaskId, notes: seq<Note>)
    requires Inv(s) && IsRun(s, steps) && Known(s, t, notes) && Mindful(s, t, notes)
    ensures Mindful(Final(s, steps), t, notes + Notes(s, steps, t))
    decreases |steps|
  {
    hide Inv, Known, Mindful, Apply, NotesOf, Enabled;
    if steps == [] {
      assert notes + [] == notes;
    } else {
      StepKeeps(s, steps[0]);
      StepFollows(s, steps[0], t, notes);
      StepMindful(s, steps[0], t, notes);
      RunMinds(Apply(s, steps[0]), steps[1..], t, notes + NotesOf(s, steps[0], t));
      assert notes + Notes(s, steps, t)
          == notes + NotesOf(s, steps[0], t) + Notes(Apply(s, steps[0]), steps[1..], t);
    }
  }

  lemma NothingSeen(s: State, t: TaskId)
    requires t !in s.tasks
    ensures Known(s, t, []) && Mindful(s, t, [])
  {
  }

  lemma SeenMeans(s: State, t: TaskId, notes: seq<Note>)
    requires Mindful(s, t, notes) && t in s.tasks && s.tasks[t].kind == Call(false)
    ensures ProbedFirst(notes) && ProbedOnly(notes)
  {
  }

  /** In every run, a command that must not be repeated is started on a connection that had
      gone quiet only when its probe has been answered; and no other connection is probed. */
  lemma QuietIsProbed(oauth: bool, steps: seq<Step>, t: TaskId)
    requires IsRun(Initial(oauth), steps)
    requires var s := Final(Initial(oauth), steps);
             t in s.tasks && s.tasks[t].kind == Call(false)
    ensures ProbedFirst(Notes(Initial(oauth), steps, t))
    ensures ProbedOnly(Notes(Initial(oauth), steps, t))
  {
    hide ProbedFirst, ProbedOnly, Inv, IsRun, Final, Notes, Seen, Works, Stopped;
    InitialInv(oauth);
    NothingSeen(Initial(oauth), t);
    RunMinds(Initial(oauth), steps, t, []);
    assert [] + Notes(Initial(oauth), steps, t) == Notes(Initial(oauth), steps, t);
    SeenMeans(Final(Initial(oauth), steps), t, Notes(Initial(oauth), steps, t));
  }
}
