/** A connection whose link broke under a command, or that failed its probe, is given up: no
    command runs on it again, whoever asks, cancelled or not. One that breaks under the second
    of two attempts is kept, and serves the next command.
  */
module ImapLostLinks {
  import opened Prelude
  import opened ImapSession
  import opened ImapCalls

  /** The connection a step finds broken: under a probe, or under a task's first command. */
  function LostBy(s: State, step: Step): set<ConnId> {
    match step
    case ThreadEnds(th, o) =>
      if th in s.threads && s.threads[th].Command? && s.threads[th].task in s.tasks then
        var thread := s.threads[th];
        if thread.purpose == Probe && (o == LinkLost || o == Refused) then {thread.conn}
        else if thread.purpose == Work && o == LinkLost && s.tasks[thread.task].starts == 1 then {thread.conn}
        else {}
      else
        {}
    case _ => {}
  }

  function Lost(s: State, steps: seq<Step>): set<ConnId>
    requires IsRun(s, steps)
    decreases |steps|
  {
    if steps == [] then {} else LostBy(s, steps[0]) + Lost(Apply(s, steps[0]), steps[1..])
  }

  /** The task has yet to hear that its connection `c` broke. */
  predicate Unheard(s: State, pc: Pc, c: ConnId) {
    match pc
    case Probing(th, d) => d == c && th in s.results && (s.results[th] == LinkLost || s.results[th] == Refused)
    case Running(th, d, n) => d == c && th in s.results && s.results[th] == LinkLost && n == 1
    case Draining(th, d, login) => d == c && !login && th in s.results
    case _ => false
  }

  ghost predicate GivenUp(s: State, lost: set<ConnId>) {
    && (s.conn.Some? && s.conn.value in lost ==>
          s.lock.Some? && s.lock.value in s.tasks && Unheard(s, s.tasks[s.lock.value].pc, s.conn.value))
    && (forall c :: c in lost ==> c < s.nextConn)
    && (s.lock.Some? && s.lock.value in s.tasks && LogsIn(s.tasks[s.lock.value].pc) ==>
          s.tasks[s.lock.value].pc.conn !in lost)
  }

  predicate LogsIn(pc: Pc) {
    pc.Opening? || (pc.Draining? && pc.login)
  }

  /** Between two awaits of `t`. */
  ghost predicate Sane(s: State, t: TaskId, lost: set<ConnId>) {
    && t in s.tasks && s.lock == Some(t)
    && (s.conn.Some? ==> s.conn.value !in lost)
    && (forall c :: c in lost ==> c < s.nextConn)
  }

  lemma EnsureGivesUp(s: State, t: TaskId, n: nat, lost: set<ConnId>)
    requires Sane(s, t, lost)
    ensures GivenUp(Ensure(s, t, n), lost)
  {
  }

  lemma RunGivesUp(s: State, t: TaskId, c: ConnId, n: nat, lost: set<ConnId>)
    requires Sane(s, t, lost)
    ensures GivenUp(Run(s, t, c, n), lost)
  {
  }

  /** A step after which `t` has no connection, or has left. */
  lemma Settles(s: State, t: TaskId, after: State, lost: set<ConnId>)
    requires forall c :: c in lost ==> c < s.nextConn
    requires after.nextConn == s.nextConn
    requires after.conn == None || (s.conn == after.conn && after.conn.value !in lost)
    requires after.lock == None || (after.lock == Some(t) && t in after.tasks && !LogsIn(after.tasks[t].pc))
    ensures GivenUp(after, lost)
  {
  }

  lemma CommandGivesUp(s: State, t: TaskId, n: nat, o: Outcome, lost: set<ConnId>)
    requires t in s.tasks && s.lock == Some(t) && forall c :: c in lost ==> c < s.nextConn
    requires (o == LinkLost && n == 1) || Sane(s, t, lost)
    ensures GivenUp(AfterCommand(s, t, n, o), lost)
  {
    if o == LinkLost && n == 1 {
      if s.conn == None {
        LinkLostGivesUp(s, t, lost);
        hide AfterLinkLost;
      } else {
        Settles(s, t, At(Drop(s), t, Reconnecting(s.nextThread)), lost);
      }
    } else {
      Settles(s, t, Release(s, t), lost);
    }
  }

  lemma LinkLostGivesUp(s: State, t: TaskId, lost: set<ConnId>)
    requires Sane(s, t, lost)
    ensures GivenUp(AfterLinkLost(s, t), lost)
  {
    hide Ensure;
    EnsureGivesUp(s, t, 2, lost);
    Settles(s, t, Release(s, t), lost);
  }

  lemma ProbeGivesUp(s: State, t: TaskId, o: Outcome, lost: set<ConnId>)
    requires t in s.tasks && s.lock == Some(t) && forall c :: c in lost ==> c < s.nextConn
    requires o == LinkLost || o == Refused || Sane(s, t, lost)
    ensures GivenUp(AfterProbe(s, t, o), lost)
  {
    hide Ensure;
    if s.conn == None || o == Success {
      EnsureGivesUp(s, t, 1, lost);
    }
    if o == Failed {
      Settles(s, t, Release(s, t), lost);
    } else if s.conn.Some? {
      Settles(s, t, At(Drop(s), t, Replacing(s.nextThread)), lost);
    }
  }

  lemma DrainGivesUp(s: State, t: TaskId, c: ConnId, login: bool, o: Outcome, lost: set<ConnId>)
    requires t in s.tasks && s.lock == Some(t) && forall d :: d in lost ==> d < s.nextConn
    requires if login then Sane(s, t, lost) else s.conn == Some(c)
    ensures GivenUp(AfterDrain(s, t, c, login, o), lost)
  {
    Settles(s, t, AfterDrain(s, t, c, login, o), lost);
  }

  /** What `t` hears on going on is what became of its connection. */
  lemma Hears(s: State, t: TaskId, lost: set<ConnId>)
    requires Inv(s) && Enabled(s, Resume(t)) && GivenUp(s, lost)
    ensures s.lock == Some(t)
    ensures (s.conn.Some? ==> !Unheard(s, s.tasks[t].pc, s.conn.value)) ==> Sane(s, t, lost)
    ensures StartsFit(s.tasks[t]) && PcInv(s, s.tasks[t].pc)
    ensures s.tasks[t].pc.Opening? ==> s.tasks[t].pc.conn !in lost
  {
    hide LogSafe, ThreadInv, StartsOf;
  }

  lemma ResumeGivesUp(s: State, t: TaskId, lost: set<ConnId>)
    requires Inv(s) && Enabled(s, Resume(t)) && GivenUp(s, lost)
    ensures GivenUp(Apply(s, Resume(t)), lost)
  {
    Hears(s, t, lost);
    assert forall c :: c in lost ==> c < s.nextConn;
    hide Inv, GivenUp, Ensure, Release, AfterLogin, AfterProbe, AfterCommand, AfterLinkLost, AfterDrain;
    match s.tasks[t].pc
    case Probing(th, _) => ProbeGivesUp(s, t, s.results[th], lost);
    case Replacing(_) => EnsureGivesUp(s, t, 1, lost);
    case Opening(th, c, n) => LoginGivesUp(s, t, c, n, s.results[th], lost);
    case Running(th, _, n) => CommandGivesUp(s, t, n, s.results[th], lost);
    case Reconnecting(_) => LinkLostGivesUp(s, t, lost);
    case Draining(th, c, login) => DrainGivesUp(s, t, c, login, s.results[th], lost);
    case Discarding(_) => ReleaseGivesUp(s, t, lost);
    case Closing(_) => ReleaseGivesUp(s, t, lost);
    case _ =>
  }

  lemma ReleaseGivesUp(s: State, t: TaskId, lost: set<ConnId>)
    requires Sane(s, t, lost)
    ensures GivenUp(Release(s, t), lost)
  {
  }

  lemma LoginGivesUp(s: State, t: TaskId, c: ConnId, n: nat, o: Outcome, lost: set<ConnId>)
    requires Sane(s, t, lost) && c !in lost
    ensures GivenUp(AfterLogin(s, t, c, n, o), lost)
  {
    hide Run;
    if o == Success {
      RunGivesUp(s.(conn := Some(c)), t, c, n, lost);
    }
  }

  lemma AcquireGivesUp(s: State, t: TaskId, quiet: bool, lost: set<ConnId>)
    requires Enabled(s, Acquire(t, quiet)) && GivenUp(s, lost)
    ensures GivenUp(Apply(s, Acquire(t, quiet)), lost)
  {
    var s1 := s.(lock := Some(t));
    EnsureGivesUp(s1, t, 1, lost);
    hide Ensure;
  }

  lemma TokenGivesUp(s: State, t: TaskId, ok: bool, lost: set<ConnId>)
    requires LockInv(s) && Enabled(s, TokenReply(t, ok)) && GivenUp(s, lost)
    ensures GivenUp(Apply(s, TokenReply(t, ok)), lost)
  {
    assert s.lock == Some(t);
    assert Sane(s, t, lost);
  }

  lemma CancelGivesUp(s: State, t: TaskId, lost: set<ConnId>)
    requires LockInv(s) && Enabled(s, Cancel(t)) && GivenUp(s, lost)
    ensures GivenUp(Apply(s, Cancel(t)), lost)
  {
    hide Ensure, Drop, Spawn;
    var pc := s.tasks[t].pc;
    if pc.Probing? || pc.Running? || pc.Opening? {
      assert s.lock == Some(t);
    } else if pc.Queued? {
      assert s.lock != Some(t);
    }
  }

  lemma EndGivesUp(s: State, th: ThreadId, o: Outcome, lost: set<ConnId>)
    requires Inv(s) && th in s.threads && GivenUp(s, lost)
    requires s.threads[th].Command? && s.threads[th].task in s.tasks ==>
               Linked(s, s.threads[th].task, s.tasks[s.threads[th].task].pc)
    ensures GivenUp(Apply(s, ThreadEnds(th, o)), lost + LostBy(s, ThreadEnds(th, o)))
  {
    var thread := s.threads[th];
    EndedIs(s, th, o);
    LockHeld(s);
    if thread.Command? {
      OwnedThread(s, th);
      InvAt(s, thread.task);
      assert s.lock == Some(thread.task);
    } else {
      Unended(s, th);
    }
    hide Inv, StartsOf, LogSafe;
  }

  /** Every task's account can be given. */
  ghost predicate Understood(s: State) {
    forall t: TaskId :: Accounted(s, t)
  }

  ghost predicate Accounted(s: State, t: TaskId) {
    exists notes :: Known(s, t, notes)
  }

  lemma StepUnderstood(s: State, step: Step)
    requires Inv(s) && Enabled(s, step) && Understood(s)
    ensures Understood(Apply(s, step))
  {
    hide Known, Inv, Apply, NotesOf, Enabled;
    forall t: TaskId ensures Accounted(Apply(s, step), t) {
      assert Accounted(s, t);
      var notes :| Known(s, t, notes);
      StepFollows(s, step, t, notes);
    }
  }

  lemma OwnerLinked(s: State, t: TaskId)
    requires Understood(s) && t in s.tasks
    ensures Linked(s, t, s.tasks[t].pc)
  {
    assert Accounted(s, t);
    var notes :| Known(s, t, notes);
    hide Works, Stopped, Follows;
  }

  lemma StepGivesUp(s: State, step: Step, lost: set<ConnId>)
    requires Inv(s) && Enabled(s, step) && GivenUp(s, lost) && Understood(s)
    ensures GivenUp(Apply(s, step), lost + LostBy(s, step))
  {
    hide Inv, Understood, Apply, GivenUp, Linked;
    LockHeld(s);
    if step.ThreadEnds? {
      if s.threads[step.th].Command? {
        OwnedThread(s, step.th);
        OwnerLinked(s, s.threads[step.th].task);
      }
      EndGivesUp(s, step.th, step.outcome, lost);
    } else {
      assert lost + LostBy(s, step) == lost;
      match step
      case Arrive(t, kind) => ArriveGivesUp(s, t, kind, lost);
      case Acquire(t, quiet) => AcquireGivesUp(s, t, quiet, lost);
      case TokenReply(t, ok) => TokenGivesUp(s, t, ok, lost);
      case Resume(t) => ResumeGivesUp(s, t, lost);
      case Cancel(t) => CancelGivesUp(s, t, lost);
      case LinkDies(c) => DeathGivesUp(s, c, lost);
    }
  }

  lemma ArriveGivesUp(s: State, t: TaskId, kind: Kind, lost: set<ConnId>)
    requires Enabled(s, Arrive(t, kind)) && LockInv(s) && GivenUp(s, lost)
    ensures GivenUp(Apply(s, Arrive(t, kind)), lost)
  {
  }

  lemma DeathGivesUp(s: State, c: ConnId, lost: set<ConnId>)
    requires GivenUp(s, lost)
    ensures GivenUp(Apply(s, LinkDies(c)), lost)
  {
  }

  // --- whole runs ------------------------------------------------------------------------

  lemma {:induction false} RunGivesUpAll(s: State, steps: seq<Step>, lost: set<ConnId>)
    requires Inv(s) && IsRun(s, steps) && GivenUp(s, lost) && Understood(s)
    ensures Inv(Final(s, steps)) && Understood(Final(s, steps))
    ensures GivenUp(Final(s, steps), lost + Lost(s, steps))
    decreases |steps|
  {
    hide Inv, GivenUp, Understood, Apply, LostBy, Enabled;
    if steps == [] {
      assert lost + {} == lost;
    } else {
      StepKeeps(s, steps[0]);
      StepUnderstood(s, steps[0]);
      StepGivesUp(s, steps[0], lost);
      RunGivesUpAll(Apply(s, steps[0]), steps[1..], lost + LostBy(s, steps[0]));
      assert lost + LostBy(s, steps[0]) + Lost(Apply(s, steps[0]), steps[1..]) == lost + Lost(s, steps);
    }
  }

  /** In every run, no command thread that runs is on a connection given up before. */
  lemma NeverAgain(oauth: bool, steps: seq<Step>)
    requires IsRun(Initial(oauth), steps)
    ensures var s := Final(Initial(oauth), steps);
            forall th :: th in s.threads && s.threads[th].Command? ==>
              s.threads[th].conn !in Lost(Initial(oauth), steps)
  {
    hide Inv, GivenUp, Understood, IsRun, Final, Lost;
    InitialInv(oauth);
    NothingLost(oauth);
    RunGivesUpAll(Initial(oauth), steps, {});
    assert {} + Lost(Initial(oauth), steps) == Lost(Initial(oauth), steps);
    var s := Final(Initial(oauth), steps);
    forall th | th in s.threads && s.threads[th].Command?
      ensures s.threads[th].conn !in Lost(Initial(oauth), steps)
    {
      RunningIsSane(s, th, Lost(Initial(oauth), steps));
    }
  }

  lemma NothingLost(oauth: bool)
    ensures GivenUp(Initial(oauth), {}) && Understood(Initial(oauth))
  {
    forall t: TaskId ensures Accounted(Initial(oauth), t) {
      NothingKnown(oauth, t);
    }
  }

  lemma RunningIsSane(s: State, th: ThreadId, lost: set<ConnId>)
    requires Inv(s) && GivenUp(s, lost) && th in s.threads && s.threads[th].Command?
    ensures s.threads[th].conn !in lost
  {
    OwnedThread(s, th);
    InvAt(s, s.threads[th].task);
  }

  // --- the second attempt ------------------------------------------------------------------

  /** The second attempt of a call has failed: its link broke, and another call waits. */
  ghost predicate BrokenTwice(s: State, t: TaskId, u: TaskId, th: ThreadId, c: ConnId) {
    && t in s.tasks && u in s.tasks && u != t
    && s.tasks[t].pc == Running(th, c, 2) && th in s.results && s.results[th] == LinkLost
    && s.conn == Some(c) && c in s.usable && s.lock == Some(t)
    && s.tasks[u].pc == Queued && s.tasks[u].kind.Call?
  }

  /** The connection is kept, and the next call starts its command on it. */
  lemma BrokenServes(s: State, t: TaskId, u: TaskId, th: ThreadId, c: ConnId)
    requires BrokenTwice(s, t, u, th, c)
    ensures Enabled(s, Resume(t)) && Enabled(Apply(s, Resume(t)), Acquire(u, false))
    ensures Apply(Apply(s, Resume(t)), Acquire(u, false)).log == s.log + [Started(u, c, Work)]
  {
    var s1 := Apply(s, Resume(t));
    assert s1 == Release(s, t);
    assert Apply(s1, Acquire(u, false)) == Run(s1.(lock := Some(u)), u, c, 1);
  }

  /** A call whose link breaks under both attempts, while another waits. */
  function TwoBreaks(k: nat): Step {
    match k
    case 0 => Arrive(0, Call(true))
    case 1 => Arrive(1, Call(false))
    case 2 => Acquire(0, false)
    case 3 => ThreadEnds(0, Success)
    case 4 => Resume(0)
    case 5 => ThreadEnds(1, LinkLost)
    case 6 => Resume(0)
    case 7 => ThreadEnds(2, Success)
    case 8 => Resume(0)
    case 9 => ThreadEnds(3, Success)
    case 10 => Resume(0)
    case _ => ThreadEnds(4, LinkLost)
  }

  function Two(pc: Pc, starts: nat): map<TaskId, Task> {
    map[0 := Task(Call(true), pc, starts), 1 := Task(Call(false), Queued, 0)]
  }

  const EVENTS: seq<Event> := [Started(0, 0, Login), Started(0, 0, Work), Started(0, 1, Login), Started(0, 1, Work)]

  /** The state before step `k`. */
  function Stage(k: nat): State {
    match k
    case 0 => Initial(false)
    case 1 => Initial(false).(tasks := map[0 := Task(Call(true), Queued, 0)])
    case 2 => Initial(false).(tasks := Two(Queued, 0))
    case 3 => State(false, Some(0), None, {}, map[0 := Command(0, 0, Login)], map[], Two(Opening(0, 0, 1), 0), 1, 1, EVENTS[..1])
    case 4 => State(false, Some(0), None, {0}, map[], map[0 := Success], Two(Opening(0, 0, 1), 0), 1, 1, EVENTS[..1])
    case 5 => State(false, Some(0), Some(0), {0}, map[1 := Command(0, 0, Work)], map[0 := Success], Two(Running(1, 0, 1), 1), 2, 1, EVENTS[..2])
    case 6 => State(false, Some(0), Some(0), {0}, map[], map[0 := Success, 1 := LinkLost], Two(Running(1, 0, 1), 1), 2, 1, EVENTS[..2])
    case 7 => State(false, Some(0), None, {0}, map[2 := Logout(0)], map[0 := Success, 1 := LinkLost], Two(Reconnecting(2), 1), 3, 1, EVENTS[..2])
    case 8 => Stage8()
    case 9 => Stage8().(threads := map[3 := Command(0, 1, Login)], tasks := Two(Opening(3, 1, 2), 1), nextThread := 4, nextConn := 2, log := EVENTS[..3])
    case 10 => Stage10()
    case 11 => Stage10().(conn := Some(1), threads := map[4 := Command(0, 1, Work)], tasks := Two(Running(4, 1, 2), 2), nextThread := 5, log := EVENTS)
    case _ => Stage10().(conn := Some(1), results := Stage10().results[4 := LinkLost], tasks := Two(Running(4, 1, 2), 2), nextThread := 5, log := EVENTS)
  }

  function Stage8(): State {
    State(false, Some(0), None, {}, map[], map[0 := Success, 1 := LinkLost, 2 := Success], Two(Reconnecting(2), 1), 3, 1, EVENTS[..2])
  }

  function Stage10(): State {
    State(false, Some(0), None, {1}, map[], map[0 := Success, 1 := LinkLost, 2 := Success, 3 := Success], Two(Opening(3, 1, 2), 1), 4, 2, EVENTS[..3])
  }

  ghost predicate Goes(k: nat) {
    Enabled(Stage(k), TwoBreaks(k)) && Apply(Stage(k), TwoBreaks(k)) == Stage(k + 1)
  }

  lemma FirstGo()
    ensures Goes(0) && Goes(1) && Goes(2)
  {
    assert [] + [Started(0, 0, Login)] == EVENTS[..1];
  }

  lemma SecondGo()
    ensures Goes(3) && Goes(5)
  {
    hide Ensure;
  }

  lemma FirstRunGoes()
    ensures Goes(4)
  {
    assert EVENTS[..1] + [Started(0, 0, Work)] == EVENTS[..2];
    hide AfterProbe, AfterLinkLost, AfterCommand, AfterDrain;
  }

  lemma DropGoes()
    ensures Goes(6)
  {
    hide Ensure;
  }

  lemma LogoutGoes()
    ensures Goes(7)
  {
    hide Ensure, AfterProbe, AfterLogin, AfterCommand, AfterLinkLost, AfterDrain;
    assert Stage(7).threads - {2} == map[];
    assert Stage(7).usable - {0} == {};
  }

  lemma AgainGoes()
    ensures Goes(8)
  {
    assert EVENTS[..2] + [Started(0, 1, Login)] == EVENTS[..3];
    hide AfterProbe, AfterLogin, AfterCommand, AfterDrain;
  }

  lemma LoginGoes()
    ensures Goes(9)
  {
    hide Ensure, AfterProbe, AfterLogin, AfterCommand, AfterLinkLost, AfterDrain;
    assert Stage(9).threads - {3} == map[];
    assert Stage(9).usable + {1} == {1};
  }

  lemma RunGoes()
    ensures Goes(10)
  {
    assert EVENTS[..3] + [Started(0, 1, Work)] == EVENTS;
    hide AfterProbe, AfterLinkLost, AfterCommand, AfterDrain;
  }

  lemma BreakGoes()
    ensures Goes(11)
  {
    hide Ensure, AfterProbe, AfterLogin, AfterCommand, AfterLinkLost, AfterDrain;
    assert Stage(11).threads - {4} == map[];
  }

  lemma Going(k: nat)
    requires k < 12
    ensures Goes(k)
  {
    hide Goes;
    FirstGo();
    SecondGo();
    FirstRunGoes();
    DropGoes();
    LogoutGoes();
    AgainGoes();
    LoginGoes();
    RunGoes();
    BreakGoes();
  }

  lemma {:induction false} GoesOn(k: nat) returns (steps: seq<Step>)
    requires k <= 12
    ensures IsRun(Stage(k), steps) && Final(Stage(k), steps) == Stage(12)
    decreases 12 - k
  {
    hide Enabled, Apply, Stage, TwoBreaks;
    if k == 12 {
      steps := [];
    } else {
      Going(k);
      var more := GoesOn(k + 1);
      steps := [TwoBreaks(k)] + more;
      assert steps[1..] == more;
    }
  }

  /** Such a state is reached: both links of one call break under its command. */
  lemma BrokenTwiceHappens() returns (steps: seq<Step>)
    ensures IsRun(Initial(false), steps)
    ensures BrokenTwice(Final(Initial(false), steps), 0, 1, 4, 1)
  {
    steps := GoesOn(0);
    hide IsRun, Final;
  }
}
