/**
 How a concurrent reader or a cancellation can settle a create against the
 facts: the runs in which it happens, and exactly what a settled route proves.
 */
module CreateRaces {
  import opened Common
  import opened CreateProtocol
  import opened CreateAssertions
  import opened CreateTheorems
  import opened CreateRecovery
  import R = RouteLedger
  import C = CommandLedger

  // ----- a create and a second process on one key

  function Pair(sh: Shared, a: Pc, b: Pc): Slot {
    Slot(Up, sh, map[0 := a, 1 := b], {})
  }

  lemma First(events: seq<Event>, sh: Shared, a: Pc, b: Pc, act: Act, sh': Shared, a': Pc) returns (more: seq<Event>)
    requires Reaches(events, Pair(sh, a, b)) && Step(sh, a, act).Some?
    requires var m := Step(sh, a, act).value; !m.change.LeaveBehind? && Do(sh, m.change) == sh' && m.pc == a'
    ensures Reaches(more, Pair(sh', a', b))
  {
    assert Pair(sh, a, b).procs[0 := a'] == Pair(sh', a', b).procs;
    more := Extend(events, Pair(sh, a, b), Run(0, act), Pair(sh', a', b));
  }

  lemma Second(events: seq<Event>, sh: Shared, a: Pc, b: Pc, act: Act, sh': Shared, b': Pc) returns (more: seq<Event>)
    requires Reaches(events, Pair(sh, a, b)) && Step(sh, b, act).Some?
    requires var m := Step(sh, b, act).value; !m.change.LeaveBehind? && Do(sh, m.change) == sh' && m.pc == b'
    ensures Reaches(more, Pair(sh', a, b'))
  {
    assert Pair(sh, a, b).procs[1 := b'] == Pair(sh', a, b').procs;
    more := Extend(events, Pair(sh, a, b), Run(1, act), Pair(sh', a, b'));
  }

  lemma Durable(events: seq<Event>, sh: Shared, a: Pc, b: Pc) returns (more: seq<Event>)
    requires Reaches(events, Pair(sh, a, b)) && sh.sends > 0 && LocalRoute(sh)
    ensures Reaches(more, Pair(sh.(run := true), a, b))
  {
    more := Extend(events, Pair(sh, a, b), RunBecomesDurable, Pair(sh.(run := true), a, b));
  }

  const REQUEST := Request("worker", "hash", R.Local, false, false, "{}", None)
  const COPY := R.Route("task", "worker", "{}", R.Local, Some("task"), None, R.Pending, None)
  const ROW := R.Row(COPY, R.Evidence(R.External, R.LocalTaskIdentity, R.Reserved))
  const COMMAND := C.Command(C.CREATE_TASK, "worker", "hash", C.Processing, "task", None, Some(0), None, None, false, true)
  const WORK := Work(REQUEST, "task", 0, true)
  const READER := Idle(ReaderGet(false))

  /** The ledgers of this create: nothing marked, both marked, or dispatched. */
  const RESERVED := Shared(Some(ROW), Some(COMMAND), false, 1, 0, 0, {}, false)
  const MARKED := RESERVED.(route := Some(ROW.(evidence := ROW.evidence.(boundary := R.Started))),
                            command := Some(COMMAND.(effectStarted := true, replaySafe := true)))
  const DISPATCHED := MARKED.(sends := 1, accepted := 1)

  function Settled(sh: Shared, state: R.RouteState, error: Option<string>): Shared
    requires sh.route.Some?
  {
    sh.(route := Some(sh.route.value.(route := sh.route.value.route.(state := state, error := error))))
  }

  lemma ReachReserved() returns (events: seq<Event>)
    ensures Reaches(events, Pair(RESERVED, Working(WORK, CommandMarking(COPY)), READER))
  {
    var claiming := Idle(Claiming(REQUEST, "task", false));
    var unmarked := WORK.(marked := false);
    var one := FreshSlot.(procs := map[0 := claiming]);
    assert FreshSlot.procs[0 := claiming] == one.procs;
    events := Extend([], FreshSlot, Begin(0, claiming), one);
    assert one.procs[1 := READER] == Pair(FreshSlot.sh, claiming, READER).procs;
    events := Extend(events, one, Begin(1, READER), Pair(FreshSlot.sh, claiming, READER));
    var claimed := FreshSlot.sh.(command := Some(COMMAND), nextToken := 1);
    events := First(events, FreshSlot.sh, claiming, READER, Go, claimed, Working(unmarked, Preparing));
    events := First(events, claimed, Working(unmarked, Preparing), READER, Go, claimed, Working(unmarked, Reserving));
    events := First(events, claimed, Working(unmarked, Reserving), READER, Go, RESERVED, Working(unmarked, ReadEvidence(COPY)));
    events := First(events, RESERVED, Working(unmarked, ReadEvidence(COPY)), READER, Go, RESERVED, Working(WORK, CommandMarking(COPY)));
  }

  lemma ReachMarked(before: seq<Event>, b: Pc) returns (events: seq<Event>)
    requires Reaches(before, Pair(RESERVED, Working(WORK, CommandMarking(COPY)), b))
    ensures Reaches(events, Pair(MARKED, Working(WORK, Spawning(COPY)), b))
  {
    var half := RESERVED.(command := MARKED.command);
    events := First(before, RESERVED, Working(WORK, CommandMarking(COPY)), b, Go, half, Working(WORK, RouteMarking(COPY)));
    events := First(events, half, Working(WORK, RouteMarking(COPY)), b, Go, MARKED, Working(WORK, Spawning(COPY)));
  }

  lemma ReachDispatched(before: seq<Event>, b: Pc) returns (events: seq<Event>)
    requires Reaches(before, Pair(MARKED, Working(WORK, Spawning(COPY)), b))
    ensures Reaches(events, Pair(DISPATCHED, Working(WORK, Sent(COPY, true)), b))
  {
    events := First(before, MARKED, Working(WORK, Spawning(COPY)), b, Dispatch(true), DISPATCHED, Working(WORK, Sent(COPY, true)));
  }

  /** The second process reads the pending route, its evidence and the Task row, and decides how to settle it. */
  lemma ReachDecided(before: seq<Event>, sh: Shared, a: Pc, target: R.RouteState) returns (events: seq<Event>)
    requires Reaches(before, Pair(sh, a, READER))
    requires (sh == RESERVED && target == R.Failed) || (sh == MARKED && target == R.Uncertain)
    ensures Reaches(events, Pair(sh, a, Checking(COPY, Reader(false), SettleRoute(target, Some("task")))))
  {
    var reserved := sh == RESERVED;
    var c0, c1 := Checking(COPY, Reader(false), Reconcile(false)), Checking(COPY, Reader(false), ReadRecord(false, reserved));
    events := Second(before, sh, a, READER, Go, sh, c0);
    events := Second(events, sh, a, c0, Go, sh, c1);
    events := Second(events, sh, a, c1, Go, sh, Checking(COPY, Reader(false), SettleRoute(target, Some("task"))));
  }

  /** The route says that a Task which runs has never started. */
  predicate FailedWhileRunning(sh: Shared) {
    LocalRoute(sh) && InState(sh, R.Failed) && StartedBoundary(sh) && sh.run && sh.sends == 1 && sh.accepted == 1
  }

  /** A reader that decided before the create crossed its boundary commits after the Task runs. */
  lemma ReaderFailsARunningTask() returns (events: seq<Event>)
    ensures Replay(FreshSlot, events).Some? && FailedWhileRunning(Replay(FreshSlot, events).value.sh)
  {
    var b := Checking(COPY, Reader(false), SettleRoute(R.Failed, Some("task")));
    events := ReachReserved();
    events := ReachDecided(events, RESERVED, Working(WORK, CommandMarking(COPY)), R.Failed);
    events := ReachMarked(events, b);
    events := ReachDispatched(events, b);
    var sent := Working(WORK, Sent(COPY, true));
    events := Durable(events, DISPATCHED, sent, b);
    var running := DISPATCHED.(run := true);
    events := Second(events, running, sent, b, Go,
                     Settled(running, R.Failed, Some("Gateway Task creation did not start")), Idle(Done));
  }

  /** No reader is needed: a cancelled create that was sent is settled before its run is durable. */
  lemma CancellationFailsARunningTask() returns (events: seq<Event>)
    ensures Replay(FreshSlot, events).Some? && FailedWhileRunning(Replay(FreshSlot, events).value.sh)
  {
    events := ReachReserved();
    events := ReachMarked(events, READER);
    events := ReachDispatched(events, READER);
    var c0, c1 := Checking(COPY, Cleanup(WORK), Reconcile(true)), Checking(COPY, Cleanup(WORK), ReadRecord(true, false));
    var c2 := Checking(COPY, Cleanup(WORK), SettleRoute(R.Failed, Some("task")));
    var failed := Settled(DISPATCHED, R.Failed, Some("Gateway Task creation did not start"));
    events := First(events, DISPATCHED, Working(WORK, Sent(COPY, true)), READER, Cancel, DISPATCHED, c0);
    events := First(events, DISPATCHED, c0, READER, Go, DISPATCHED, c1);
    events := First(events, DISPATCHED, c1, READER, Go, DISPATCHED, c2);
    events := First(events, DISPATCHED, c2, READER, Go, failed, Closing(WORK, Releasing));
    events := Durable(events, failed, Closing(WORK, Releasing), READER);
  }

  // ----- what a failed local route proves

  /** Over all runs, a failed local route with this boundary has started nothing. */
  ghost predicate FailedProvesNoEffect(boundary: R.Boundary) {
    forall events | Replay(FreshSlot, events).Some? ::
      var sh := Replay(FreshSlot, events).value.sh;
      LocalRoute(sh) && InState(sh, R.Failed) && sh.route.value.evidence.boundary == boundary ==> sh.sends == 0 && !sh.run
  }

  /** `failed` is to be believed exactly when the evidence does not read `started`. */
  lemma FailedProvesExactly(boundary: R.Boundary)
    ensures FailedProvesNoEffect(boundary) <==> boundary != R.Started
  {
    if boundary == R.Started {
      var events := ReaderFailsARunningTask();
      assert Replay(FreshSlot, events).Some?;
    } else {
      forall events | Replay(FreshSlot, events).Some?
        ensures var sh := Replay(FreshSlot, events).value.sh;
                LocalRoute(sh) && InState(sh, R.Failed) && sh.route.value.evidence.boundary == boundary ==> sh.sends == 0 && !sh.run
      {
        RunsKeep(FreshSlot, events);
      }
    }
  }

  /** And it stays so: once a local route is settled with a reserved boundary, nothing is ever started. */
  lemma SettledReservedNeverStarts(before: seq<Event>, after: seq<Event>)
    requires Replay(FreshSlot, before).Some? && Replay(FreshSlot, before + after).Some?
    requires var sh := Replay(FreshSlot, before).value.sh; LocalRoute(sh) && !InState(sh, R.Pending) && ReadsReserved(sh)
    ensures var sh := Replay(FreshSlot, before + after).value.sh; ReadsReserved(sh) && sh.sends == 0 && !sh.run
  {
    JointLedgerHistory(before, after);
    RunsKeep(FreshSlot, before + after);
  }

  /**
   A cancelled create settles its route by the Task row of that moment alone:
   active with a durable run, and otherwise failed, whatever was sent.
   */
  lemma CancellationSettles(s: Slot, p: nat, copy: R.Route, w: Work)
    requires SlotOk(s) && s.phase == Up && p in s.procs && s.procs[p] == Checking(copy, Cleanup(w), Reconcile(true))
    requires LocalRoute(s.sh) && InState(s.sh, R.Pending)
    ensures var end := Replay(s, Repeat(Run(p, Go), 3));
            && end.Some? && end.value.sh.sends == s.sh.sends && end.value.sh.run == s.sh.run
            && InState(end.value.sh, if s.sh.run then R.Active else R.Failed)
  {
    assert Ready(s.sh, s.procs[p]);
    CleanupRuns(s, p, copy, w);
  }

  lemma CleanupRuns(s: Slot, p: nat, copy: R.Route, w: Work)
    requires LedgersOk(s.sh) && CopyOk(s.sh, copy) && s.phase == Up
    requires p in s.procs && s.procs[p] == Checking(copy, Cleanup(w), Reconcile(true))
    requires LocalRoute(s.sh) && InState(s.sh, R.Pending)
    ensures var end := Replay(s, Repeat(Run(p, Go), 3));
            && end.Some? && end.value.sh.sends == s.sh.sends && end.value.sh.run == s.sh.run
            && InState(end.value.sh, if s.sh.run then R.Active else R.Failed)
  {
    var reserved := ReadsReserved(s.sh);
    GoQuiet(s, p, Checking(copy, Cleanup(w), ReadRecord(true, reserved)), 3);
    var s1 := At(s, p, Checking(copy, Cleanup(w), ReadRecord(true, reserved)));
    var t := SettleTxn(if s.sh.run then R.Active else R.Failed, Some(copy.taskId));
    GoQuiet(s1, p, Checking(copy, Cleanup(w), SettleRoute(t.state, t.upstream)), 2);
    var s2 := At(s1, p, Checking(copy, Cleanup(w), SettleRoute(t.state, t.upstream)));
    SettlePending(s2, p, copy, w, t);
  }

  lemma SettlePending(s: Slot, p: nat, copy: R.Route, w: Work, t: Txn)
    requires LedgersOk(s.sh) && CopyOk(s.sh, copy) && s.phase == Up && p in s.procs
    requires LocalRoute(s.sh) && InState(s.sh, R.Pending)
    requires t == SettleTxn(if s.sh.run then R.Active else R.Failed, Some(copy.taskId))
    requires s.procs[p] == Checking(copy, Cleanup(w), SettleRoute(t.state, t.upstream))
    ensures var end := Replay(s, Repeat(Run(p, Go), 1));
            && end.Some? && end.value.sh.sends == s.sh.sends && end.value.sh.run == s.sh.run
            && InState(end.value.sh, t.state)
  {
    ReplayGo(s, p, 1);
    assert Repeat(Run(p, Go), 0) == [];
  }

  // ----- an active route that becomes uncertain

  /** The create succeeded and its Task runs, but its route no longer says so. */
  lemma ReaderUnsettlesASuccess() returns (events: seq<Event>)
    ensures Replay(FreshSlot, events).Some?
    ensures var sh := Replay(FreshSlot, events).value.sh;
            LocalRoute(sh) && InState(sh, R.Uncertain) && sh.run && sh.command.Some? && sh.command.value.state == C.Succeeded
  {
    var b := Checking(COPY, Reader(false), SettleRoute(R.Uncertain, Some("task")));
    events := ReachReserved();
    events := ReachMarked(events, READER);
    events := ReachDecided(events, MARKED, Working(WORK, Spawning(COPY)), R.Uncertain);
    events := ReachDispatched(events, b);
    events := Durable(events, DISPATCHED, Working(WORK, Sent(COPY, true)), b);
    events := ReachActive(events, b);
    events := ReachSucceeded(events, b);
    var active := Settled(DISPATCHED.(run := true), R.Active, None);
    var done := active.(command := Some(Succeeded()));
    events := Second(events, done, Idle(Done), b, Go,
                     Settled(done, R.Uncertain, Some("Gateway Task creation was interrupted")), Idle(Done));
  }

  function Succeeded(): C.Command {
    C.CompleteCommand(DISPATCHED.command, 0, ResponseFor(WORK)).value
  }

  lemma ReachActive(before: seq<Event>, b: Pc) returns (events: seq<Event>)
    requires Reaches(before, Pair(DISPATCHED.(run := true), Working(WORK, Sent(COPY, true)), b))
    ensures Reaches(events, Pair(Settled(DISPATCHED.(run := true), R.Active, None), Working(WORK, Completing), b))
  {
    var running := DISPATCHED.(run := true);
    var activating := Working(WORK, Activating(COPY, "task"));
    events := First(before, running, Working(WORK, Sent(COPY, true)), b, Respond(None, true), running, activating);
    events := First(events, running, activating, b, Go, Settled(running, R.Active, None), Working(WORK, Completing));
  }

  lemma ReachSucceeded(before: seq<Event>, b: Pc) returns (events: seq<Event>)
    requires Reaches(before, Pair(Settled(DISPATCHED.(run := true), R.Active, None), Working(WORK, Completing), b))
    ensures Reaches(events, Pair(Settled(DISPATCHED.(run := true), R.Active, None).(command := Some(Succeeded())), Idle(Done), b))
  {
    var active := Settled(DISPATCHED.(run := true), R.Active, None);
    events := First(before, active, Working(WORK, Completing), b, Go, active.(command := Some(Succeeded())), Idle(Done));
  }

  /** The process acts on a copy of the route that is no longer current. */
  predicate ActsOnStaleCopy(sh: Shared, pc: Pc) {
    match pc
    case Checking(copy, _, _) => sh.route.Some? && copy.state != sh.route.value.route.state
    case Working(_, work) => work.FailRoute? && sh.route.Some? && work.copy.state != sh.route.value.route.state
    case _ => false
  }

  /** The settlements that write `uncertain`. */
  predicate SettlesUncertain(pc: Pc) {
    pc.Checking? && (pc.check.MarkUncertain? || (pc.check.SettleRoute? && pc.check.target == R.Uncertain))
  }

  /**
   In every reachable state, an active route stops being active only to become
   uncertain, and only through a process that decided on an outdated copy, a
   call such a process left behind, or the sweep of an id that is all blanks.
   */
  lemma ActiveEndsOnAStaleCopy(s: Slot, e: Event)
    requires SlotOk(s) && Apply(s, e).Some? && InState(s.sh, R.Active) && !InState(Apply(s, e).value.sh, R.Active)
    ensures InState(Apply(s, e).value.sh, R.Uncertain)
    ensures match e
            case Run(p, act) => act == Go && ActsOnStaleCopy(s.sh, s.procs[p])
            case Background(t) => t.TransitionTxn? && t.state == R.Uncertain
            case SweepRoutes => R.Blank(s.sh.route.value.route.upstream)
            case _ => false
  {
    ApplyKeeps(s, e);
    if e.Run? {
      ActiveStep(s.sh, s.procs[e.p], e.act);
    } else if e.Background? {
      ActiveTxn(s.sh, e.t);
    }
  }

  lemma ActiveTxn(sh: Shared, t: Txn)
    requires LedgersOk(sh) && InState(sh, R.Active) && !InState(Exec(sh, t).0, R.Active)
    ensures (t.TransitionTxn? && t.state == R.Uncertain) || (t.SaveTxn? && t.copy.state == R.Uncertain)
  {
  }

  lemma ActiveStep(sh: Shared, pc: Pc, act: Act)
    requires LedgersOk(sh) && Ready(sh, pc) && Step(sh, pc, act).Some?
    requires InState(sh, R.Active) && !InState(Do(sh, Step(sh, pc, act).value.change), R.Active)
    ensures act == Go && ActsOnStaleCopy(sh, pc)
  {
    var change := Step(sh, pc, act).value.change;
    if change.Commit? {
      ActiveTxn(sh, change.t);
    }
  }

  /** For a process inside the reconciliation this is exact: it ends an active route if and only if it settles it as uncertain. */
  lemma CheckEndsActiveExactly(s: Slot, p: nat, act: Act)
    requires SlotOk(s) && p in s.procs && s.procs[p].Checking? && Apply(s, Run(p, act)).Some? && InState(s.sh, R.Active)
    ensures !InState(Apply(s, Run(p, act)).value.sh, R.Active) <==> act == Go && SettlesUncertain(s.procs[p])
  {
    assert Ready(s.sh, s.procs[p]);
    CheckStepExactly(s.sh, s.procs[p], act);
  }

  lemma CheckStepExactly(sh: Shared, pc: Pc, act: Act)
    requires LedgersOk(sh) && PcOk(sh, pc) && pc.Checking? && Step(sh, pc, act).Some? && InState(sh, R.Active)
    ensures !InState(Do(sh, Step(sh, pc, act).value.change), R.Active) <==> act == Go && SettlesUncertain(pc)
  {
    if SettlesUncertain(pc) && act == Go {
      SettlesActive(sh, if pc.check.MarkUncertain? then SettleTxn(R.Uncertain, pc.copy.upstream) else SettleTxn(R.Uncertain, pc.check.upstream));
    }
  }

  lemma SettlesActive(sh: Shared, t: Txn)
    requires LedgersOk(sh) && InState(sh, R.Active) && t.TransitionTxn? && t.state == R.Uncertain
    requires LocalRoute(sh) ==> t.upstream == Some(sh.route.value.route.taskId)
    requires !LocalRoute(sh) ==> t.upstream == None
    ensures InState(Exec(sh, t).0, R.Uncertain)
  {
  }
}
