/** What a retry finds after a crash, and why the once-only guarantee needs its replay policy. */
module CreateRecovery {
  import opened Common
  import opened CreateProtocol
  import opened CreateAssertions
  import opened CreateTheorems
  import R = RouteLedger
  import C = CommandLedger

  // ----- a retry after a crash

  /** The process dies; both stores are opened again, the route store first. */
  function Restart(s: Slot): Slot {
    Slot(Up, SweepCommand(SweepRoute(s.sh.(doomed := false))), map[], {})
  }

  lemma RestartIsARun(s: Slot)
    ensures Replay(s, [Crash, SweepRoutes, SweepCommands]) == Some(Restart(s))
  {
    var s1 := Apply(s, Crash).value;
    var s2 := Apply(s1, SweepRoutes).value;
    assert [Crash, SweepRoutes, SweepCommands][1..] == [SweepRoutes, SweepCommands];
    assert [SweepRoutes, SweepCommands][1..] == [SweepCommands];
    assert [SweepCommands][1..] == [];
    assert Replay(s2, [SweepCommands]) == Some(Restart(s));
  }

  predicate ClaimsNow(pc: Pc) {
    pc.Idle? && (pc.at.Claiming? || pc.at.ReopenRoute? || pc.at.ReopenEvidence? || pc.at.Reopening?)
  }

  /** Runs one request alone until `_claim` has settled, for at most `fuel` steps. */
  function DriveClaim(s: Slot, p: nat, fuel: nat): Slot
    decreases fuel
  {
    if fuel == 0 || p !in s.procs || !ClaimsNow(s.procs[p]) || Apply(s, Run(p, Go)).None? then s
    else DriveClaim(Apply(s, Run(p, Go)).value, p, fuel - 1)
  }

  predicate Matches(sh: Shared, req: Request) {
    sh.command.Some? ==>
      && sh.command.value.target == req.agent
      && sh.command.value.requestHash == req.requestHash
  }

  /** The key answers from the ledger instead of starting a create. */
  predicate Closed(sh: Shared) {
    sh.command.Some? &&
    match sh.command.value.state
    case Succeeded => true
    case FailedTerminal => !R.NotDispatchedIsDurable(sh.route, sh.command.value.target)
    case Processing => C.UnsafeInterrupted(sh.command.value) && !R.NotDispatchedIsDurable(sh.route, sh.command.value.target)
    case Queued => false
  }

  predicate Acquired(s: Slot, p: nat) {
    p in s.procs && s.procs[p].Working? && s.procs[p].work.Preparing?
  }

  lemma DriveOnce(s: Slot, p: nat, fuel: nat)
    requires fuel > 0 && p in s.procs && ClaimsNow(s.procs[p]) && Apply(s, Run(p, Go)).Some?
    ensures DriveClaim(s, p, fuel) == DriveClaim(Apply(s, Run(p, Go)).value, p, fuel - 1)
  {
  }

  function At(s: Slot, p: nat, pc: Pc): Slot {
    s.(procs := s.procs[p := pc])
  }

  lemma QuietGo(s: Slot, p: nat, pc: Pc)
    requires s.phase == Up && p in s.procs && Step(s.sh, s.procs[p], Go) == Quiet(pc)
    ensures Apply(s, Run(p, Go)) == Some(At(s, p, pc))
  {
  }

  lemma DriveQuiet(s: Slot, p: nat, pc: Pc, fuel: nat)
    requires fuel > 0 && s.phase == Up && p in s.procs && ClaimsNow(s.procs[p])
    requires Step(s.sh, s.procs[p], Go) == Quiet(pc)
    ensures DriveClaim(s, p, fuel) == DriveClaim(At(s, p, pc), p, fuel - 1)
  {
    QuietGo(s, p, pc);
    DriveOnce(s, p, fuel);
  }

  /** The second claim, after the command was reopened. */
  lemma ClaimQueued(s: Slot, p: nat, req: Request, taskId: string)
    requires s.phase == Up && Matches(s.sh, req) && p in s.procs && s.procs[p] == Idle(Claiming(req, taskId, true))
    requires s.sh.command.Some? && s.sh.command.value.operation == C.CREATE_TASK
    requires s.sh.command.value.state in {C.Queued, C.FailedTerminal} && s.sh.command.value.error.Some? == s.sh.command.value.state.FailedTerminal?
    ensures Acquired(DriveClaim(s, p, 1), p) <==> s.sh.command.value.state == C.Queued
  {
    DriveOnce(s, p, 1);
  }

  predicate TerminalCreate(sh: Shared, req: Request, failure: C.GatewayError) {
    && Matches(sh, req)
    && sh.command.Some?
    && sh.command.value.operation == C.CREATE_TASK
    && sh.command.value.state == C.FailedTerminal
    && sh.command.value.error == Some(failure)
  }

  lemma ReopenFirstRead(s: Slot, p: nat, req: Request, taskId: string, failure: C.GatewayError)
    requires s.phase == Up && p in s.procs && s.procs[p] == Idle(ReopenRoute(req, taskId, failure))
    ensures DriveClaim(s, p, 4) == DriveClaim(At(s, p, Idle(ReopenEvidence(req, taskId, failure, ReadsPending(s.sh, req)))), p, 3)
  {
    DriveQuiet(s, p, Idle(ReopenEvidence(req, taskId, failure, ReadsPending(s.sh, req))), 4);
  }

  lemma ReopenGranted(s: Slot, p: nat, req: Request, taskId: string, failure: C.GatewayError)
    requires s.phase == Up && TerminalCreate(s.sh, req, failure)
    requires p in s.procs && s.procs[p] == Idle(ReopenEvidence(req, taskId, failure, true)) && ReadsReserved(s.sh)
    ensures Acquired(DriveClaim(s, p, 3), p)
  {
    var s2 := At(s, p, Idle(Reopening(req, taskId, failure)));
    DriveQuiet(s, p, s2.procs[p], 3);
    DriveOnce(s2, p, 2);
    ClaimQueued(Apply(s2, Run(p, Go)).value, p, req, taskId);
  }

  lemma ReopenDenied(s: Slot, p: nat, req: Request, taskId: string, failure: C.GatewayError, pendingRead: bool)
    requires s.phase == Up && TerminalCreate(s.sh, req, failure)
    requires p in s.procs && s.procs[p] == Idle(ReopenEvidence(req, taskId, failure, pendingRead))
    requires !(pendingRead && ReadsReserved(s.sh))
    ensures !Acquired(DriveClaim(s, p, 3), p)
  {
    var s2 := At(s, p, Idle(Claiming(req, taskId, true)));
    DriveQuiet(s, p, s2.procs[p], 3);
    ClaimRefused(s2, p, req, taskId, failure);
  }

  /** Once reopening was tried, a terminal create is answered with its failure. */
  lemma ClaimRefused(s: Slot, p: nat, req: Request, taskId: string, failure: C.GatewayError)
    requires s.phase == Up && TerminalCreate(s.sh, req, failure)
    requires p in s.procs && s.procs[p] == Idle(Claiming(req, taskId, true))
    ensures !Acquired(DriveClaim(s, p, 2), p)
  {
    DriveOnce(s, p, 2);
  }

  lemma ReopenedClaim(s: Slot, p: nat, req: Request, taskId: string, failure: C.GatewayError)
    requires s.phase == Up && TerminalCreate(s.sh, req, failure)
    requires p in s.procs && s.procs[p] == Idle(ReopenRoute(req, taskId, failure))
    ensures Acquired(DriveClaim(s, p, 4), p) <==> R.NotDispatchedIsDurable(s.sh.route, req.agent)
  {
    ReopenFirstRead(s, p, req, taskId, failure);
    var s1 := At(s, p, Idle(ReopenEvidence(req, taskId, failure, ReadsPending(s.sh, req))));
    if R.NotDispatchedIsDurable(s.sh.route, req.agent) {
      ReopenGranted(s1, p, req, taskId, failure);
    } else {
      ReopenDenied(s1, p, req, taskId, failure, ReadsPending(s.sh, req));
    }
  }

  lemma ClaimOpen(s: Slot, p: nat, req: Request, proposed: string)
    requires CommandShape(s.sh) && s.phase == Up && Matches(s.sh, req)
    requires p in s.procs && s.procs[p] == Idle(Claiming(req, proposed, false))
    requires s.sh.command.Some? ==> s.sh.command.value.state in {C.Queued, C.Succeeded}
    ensures Acquired(DriveClaim(s, p, 5), p) <==> !Closed(s.sh)
  {
    DriveOnce(s, p, 5);
  }

  lemma ClaimTerminal(s: Slot, p: nat, req: Request, proposed: string)
    requires CommandShape(s.sh) && s.phase == Up && Matches(s.sh, req)
    requires p in s.procs && s.procs[p] == Idle(Claiming(req, proposed, false))
    requires s.sh.command.Some? && s.sh.command.value.state == C.FailedTerminal
    ensures Acquired(DriveClaim(s, p, 5), p) <==> !Closed(s.sh)
  {
    var s1 := Apply(s, Run(p, Go)).value;
    DriveOnce(s, p, 5);
    ReopenedClaim(s1, p, req, s.sh.command.value.taskId, s.sh.command.value.error.value);
  }

  /**
   Recovery is exact.  After a crash at any moment of any run, the next create
   with the same key acquires the command if and only if the ledgers, as they
   were at the crash, are not closed: a success is replayed, and a possibly
   dispatched create stays terminal unless its route is still pending and
   reserved.
   */
  lemma RetryAfterCrash(events: seq<Event>, p: nat, req: Request, proposed: string)
    requires Replay(FreshSlot, events).Some? && proposed != ""
    requires Matches(Replay(FreshSlot, events).value.sh, req)
    ensures var s := Replay(FreshSlot, events).value;
            var retry := Restart(s).(procs := map[p := Idle(Claiming(req, proposed, false))]);
            Acquired(DriveClaim(retry, p, 5), p) <==> !Closed(s.sh)
  {
    var s := Replay(FreshSlot, events).value;
    RunsKeep(FreshSlot, events);
    var sh0 := s.sh.(doomed := false);
    RouteSweepKeeps(sh0);
    CommandSweepKeeps(SweepRoute(sh0));
    var retry := Restart(s).(procs := map[p := Idle(Claiming(req, proposed, false))]);
    if retry.sh.command.Some? && retry.sh.command.value.state == C.FailedTerminal {
      ClaimTerminal(retry, p, req, proposed);
    } else {
      ClaimOpen(retry, p, req, proposed);
    }
    SweepKeepsClosed(s.sh);
  }

  lemma SweepKeepsClosed(sh: Shared)
    requires LedgersOk(sh)
    ensures Closed(SweepCommand(SweepRoute(sh.(doomed := false)))) == Closed(sh)
  {
    if sh.route.Some? {
      R.RecoverySettles(sh.route.value);
    }
  }

  /**
   The crash windows: between the command mark and the route mark, and between
   the route reset and the command release, the route is pending and reserved,
   and then the key is open again.
   */
  lemma ReservedRouteKeepsKeyOpen(events: seq<Event>)
    requires Replay(FreshSlot, events).Some?
    requires var sh := Replay(FreshSlot, events).value.sh; InState(sh, R.Pending) && ReadsReserved(sh)
    ensures !Closed(Replay(FreshSlot, events).value.sh)
  {
    RunsKeep(FreshSlot, events);
  }

  // ----- a local create that was interrupted

  /** The create is about to be answered with a terminal failure. */
  predicate Refused(pc: Pc) {
    pc.Closing? && pc.close.FailingCommand?
  }

  /** How many steps a same-key retry of a local create takes until it has its verdict. */
  function RetrySteps(sh: Shared): nat {
    if InState(sh, R.Pending) then 5 else if InState(sh, R.Active) then 4 else 3
  }

  /**
   A same-key retry of a started local create does not spawn, whatever its route
   reads. The route ends active exactly when the Task row shows a run and nobody
   had settled the route as failed or uncertain before; then the Task is
   returned, and otherwise the create is refused for good.
   */
  lemma LocalRetrySettles(s: Slot, p: nat)
    requires LedgersOk(s.sh) && s.phase == Up && p in s.procs && Ready(s.sh, s.procs[p])
    requires s.procs[p].Working? && s.procs[p].work.Reserving? && s.procs[p].w.req.kind == R.Local
    requires LocalRoute(s.sh) && StartedBoundary(s.sh)
    ensures var end := Replay(s, Repeat(Run(p, Go), RetrySteps(s.sh)));
            && end.Some?
            && end.value.sh.sends == s.sh.sends
            && p in end.value.procs
            && (InState(end.value.sh, R.Active) <==> s.sh.run && (InState(s.sh, R.Pending) || InState(s.sh, R.Active)))
            && (InState(end.value.sh, R.Failed) <==> InState(s.sh, R.Failed))
            && !InState(end.value.sh, R.Pending)
            && (InState(end.value.sh, R.Active) ==> end.value.procs[p] == Working(s.procs[p].w, Reading))
            && (!InState(end.value.sh, R.Active) ==> Refused(end.value.procs[p]))
  {
    var w := s.procs[p].w;
    var copy := s.sh.route.value.route;
    ReserveAgain(s, p, RetrySteps(s.sh));
    var s1 := At(s, p, Working(w, ReadEvidence(copy)));
    if InState(s.sh, R.Pending) {
      RereadStarted(s1, p, w, copy);
    } else {
      RereadSettled(s1, p, w, copy);
    }
  }

  /** A settled route decides by itself; an active one is confirmed by the Task row. */
  lemma RereadSettled(s1: Slot, p: nat, w: Work, copy: R.Route)
    requires LedgersOk(s1.sh) && s1.phase == Up && p in s1.procs && s1.procs[p] == Working(w, ReadEvidence(copy))
    requires LocalRoute(s1.sh) && !InState(s1.sh, R.Pending) && StartedBoundary(s1.sh) && copy == s1.sh.route.value.route
    ensures var end := Replay(s1, Repeat(Run(p, Go), RetrySteps(s1.sh) - 1));
            && end.Some? && end.value.sh == s1.sh && p in end.value.procs
            && end.value.procs[p] == Decide(w, copy)
  {
    var n := RetrySteps(s1.sh) - 1;
    GoQuiet(s1, p, Checking(copy, Resume(w), Reconcile(false)), n);
    var s2 := At(s1, p, Checking(copy, Resume(w), Reconcile(false)));
    if InState(s1.sh, R.Active) {
      GoQuiet(s2, p, Checking(copy, Resume(w), ReadRecord(false, false)), n - 1);
      var s3 := At(s2, p, Checking(copy, Resume(w), ReadRecord(false, false)));
      GoQuiet(s3, p, Decide(w, copy), n - 2);
    } else {
      GoQuiet(s2, p, Decide(w, copy), n - 1);
    }
    assert Repeat(Run(p, Go), 0) == [];
  }

  /** The rest of the retry: the evidence says started, so only the Task row decides. */
  lemma RereadStarted(s1: Slot, p: nat, w: Work, copy: R.Route)
    requires s1.phase == Up && p in s1.procs && s1.procs[p] == Working(w, ReadEvidence(copy))
    requires s1.sh.route.Some? && RowShape(s1.sh.route.value) && copy == s1.sh.route.value.route
    requires LocalRoute(s1.sh) && InState(s1.sh, R.Pending) && StartedBoundary(s1.sh)
    ensures var end := Replay(s1, Repeat(Run(p, Go), 4));
            && end.Some?
            && end.value.sh.sends == s1.sh.sends
            && p in end.value.procs
            && (s1.sh.run ==> InState(end.value.sh, R.Active) && end.value.procs[p] == Working(w, Reading))
            && (!s1.sh.run ==> InState(end.value.sh, R.Uncertain) && Refused(end.value.procs[p]))
  {
    GoQuiet(s1, p, Checking(copy, Resume(w), Reconcile(false)), 4);
    var s2 := At(s1, p, Checking(copy, Resume(w), Reconcile(false)));
    GoQuiet(s2, p, Checking(copy, Resume(w), ReadRecord(false, false)), 3);
    var s3 := At(s2, p, Checking(copy, Resume(w), ReadRecord(false, false)));
    RereadRun(s3, p, w, copy);
  }

  lemma RereadRun(s3: Slot, p: nat, w: Work, copy: R.Route)
    requires s3.phase == Up && p in s3.procs && s3.procs[p] == Checking(copy, Resume(w), ReadRecord(false, false))
    requires s3.sh.route.Some? && RowShape(s3.sh.route.value) && copy == s3.sh.route.value.route
    requires LocalRoute(s3.sh) && InState(s3.sh, R.Pending)
    ensures var end := Replay(s3, Repeat(Run(p, Go), 2));
            && end.Some?
            && end.value.sh.sends == s3.sh.sends
            && p in end.value.procs
            && (s3.sh.run ==> InState(end.value.sh, R.Active) && end.value.procs[p] == Working(w, Reading))
            && (!s3.sh.run ==> InState(end.value.sh, R.Uncertain) && Refused(end.value.procs[p]))
  {
    var t := SettleTxn(if s3.sh.run then R.Active else R.Uncertain, Some(copy.taskId));
    GoQuiet(s3, p, Checking(copy, Resume(w), SettleRoute(t.state, t.upstream)), 2);
    var s4 := At(s3, p, Checking(copy, Resume(w), SettleRoute(t.state, t.upstream)));
    SettleStarted(s4, p, w, copy, t);
  }

  lemma SettleStarted(s4: Slot, p: nat, w: Work, copy: R.Route, t: Txn)
    requires s4.phase == Up && p in s4.procs
    requires s4.sh.route.Some? && RowShape(s4.sh.route.value) && copy == s4.sh.route.value.route
    requires LocalRoute(s4.sh) && InState(s4.sh, R.Pending)
    requires t == SettleTxn(if s4.sh.run then R.Active else R.Uncertain, Some(copy.taskId))
    requires s4.procs[p] == Checking(copy, Resume(w), SettleRoute(t.state, t.upstream))
    ensures var end := Replay(s4, Repeat(Run(p, Go), 1));
            && end.Some?
            && end.value.sh.sends == s4.sh.sends
            && p in end.value.procs
            && (s4.sh.run ==> InState(end.value.sh, R.Active) && end.value.procs[p] == Working(w, Reading))
            && (!s4.sh.run ==> InState(end.value.sh, R.Uncertain) && Refused(end.value.procs[p]))
  {
    ReplayGo(s4, p, 1);
    assert Repeat(Run(p, Go), 0) == [];
  }

  lemma ReserveAgain(s: Slot, p: nat, n: nat)
    requires n > 0 && LedgersOk(s.sh) && s.phase == Up && p in s.procs && PcOk(s.sh, s.procs[p])
    requires s.procs[p].Working? && s.procs[p].work.Reserving? && s.procs[p].w.req.kind == R.Local && LocalRoute(s.sh)
    ensures Replay(s, Repeat(Run(p, Go), n)) ==
              Replay(At(s, p, Working(s.procs[p].w, ReadEvidence(s.sh.route.value.route))), Repeat(Run(p, Go), n - 1))
  {
    var w := s.procs[p].w;
    assert Reserve(s.sh, w.req, w.taskId) == Ok(s.sh.route.value);
    assert Exec(s.sh, ReserveTxn(w.req, w.taskId)).0 == s.sh;
    assert Apply(s, Run(p, Go)) == Some(At(s, p, Working(w, ReadEvidence(s.sh.route.value.route))));
    ReplayGo(s, p, n);
  }

  lemma GoQuiet(s: Slot, p: nat, pc: Pc, n: nat)
    requires n > 0 && s.phase == Up && p in s.procs && Step(s.sh, s.procs[p], Go) == Quiet(pc)
    ensures Replay(s, Repeat(Run(p, Go), n)) == Replay(At(s, p, pc), Repeat(Run(p, Go), n - 1))
  {
    QuietGo(s, p, pc);
    ReplayGo(s, p, n);
  }

  function Repeat(e: Event, n: nat): seq<Event> {
    seq(n, _ => e)
  }

  lemma ReplayGo(s: Slot, p: nat, n: nat)
    requires n > 0 && Apply(s, Run(p, Go)).Some?
    ensures Replay(s, Repeat(Run(p, Go), n)) == Replay(Apply(s, Run(p, Go)).value, Repeat(Run(p, Go), n - 1))
  {
    assert Repeat(Run(p, Go), n)[1..] == Repeat(Run(p, Go), n - 1);
  }

  // ----- why the once-only guarantee needs its policy

  const V1_REQUEST := Request("peer", "hash", R.RemoteRef, true, true, "{}", None)

  const V1_COPY := R.Route("task", "peer", "{}", R.RemoteRef, None, None, R.Pending, None)
  const V1_ROW := R.Row(V1_COPY, R.Evidence(R.External, R.RuyiGatewayV1, R.Reserved))
  const V1_COMMAND := C.Command(C.CREATE_TASK, "peer", "hash", C.Processing, "task", None, Some(0), None, None, false, true)
  const V1_WORK := Work(V1_REQUEST, "task", 0, true)

  predicate Reaches(events: seq<Event>, s: Slot) {
    Replay(FreshSlot, events) == Some(s)
  }

  lemma Extend(events: seq<Event>, s: Slot, e: Event, s': Slot) returns (more: seq<Event>)
    requires Reaches(events, s) && Apply(s, e) == Some(s')
    ensures Reaches(more, s')
  {
    more := events + [e];
    ReplayAppend(FreshSlot, events, [e]);
    assert [e][1..] == [];
  }

  /** One process, alone in the slot. */
  function Solo(sh: Shared, p: nat, pc: Pc): Slot {
    Slot(Up, sh, map[0 := Idle(Done)][p := pc], {})
  }

  lemma ExtendRun(events: seq<Event>, p: nat, sh: Shared, pc: Pc, act: Act, sh': Shared, pc': Pc) returns (more: seq<Event>)
    requires Reaches(events, Solo(sh, p, pc)) && Step(sh, pc, act).Some?
    requires var m := Step(sh, pc, act).value; !m.change.LeaveBehind? && Do(sh, m.change) == sh' && m.pc == pc'
    ensures Reaches(more, Solo(sh', p, pc'))
  {
    assert Solo(sh, p, pc).procs[p := pc'] == Solo(sh', p, pc').procs;
    more := Extend(events, Solo(sh, p, pc), Run(p, act), Solo(sh', p, pc'));
  }

  function V1Shared(token: nat, effectStarted: bool, boundary: R.Boundary, sends: nat): Shared {
    Shared(Some(V1_ROW.(evidence := V1_ROW.evidence.(boundary := boundary))),
           Some(V1_COMMAND.(claimToken := Some(token), effectStarted := effectStarted)),
           false, token + 1, sends, sends, {}, false)
  }

  /** One request of the replay contract, from its claim to the moment before the effect. */
  lemma ReachSpawn(events: seq<Event>, p: nat, work: Work, start: Shared, sh: Shared)
    returns (more: seq<Event>)
    requires work == V1_WORK.(token := work.token) && start.nextToken == work.token + 1
    requires Reaches(events, Solo(start, p, Working(work.(marked := false), Reserving)))
    requires start.command == Some(V1_COMMAND.(claimToken := Some(work.token)))
    requires start.retired == {} && !start.doomed && !start.run && start.accepted == start.sends
    requires start.route.None? || start.route == V1Shared(0, false, R.Started, 0).route
    requires sh == V1Shared(work.token, true, R.Started, start.sends)
    ensures Reaches(more, Solo(sh, p, Working(work, Spawning(V1_COPY))))
  {
    var unmarked := work.(marked := false);
    var row := if start.route.None? then Some(V1_ROW) else start.route;
    var sh1 := start.(route := row);
    more := ExtendRun(events, p, start, Working(unmarked, Reserving), Go, sh1, Working(unmarked, ReadEvidence(V1_COPY)));
    if start.route.Some? {
      more := ExtendRun(more, p, sh1, Working(unmarked, ReadEvidence(V1_COPY)), Go, sh1, Checking(V1_COPY, Resume(unmarked), Reconcile(false)));
      more := ExtendRun(more, p, sh1, Checking(V1_COPY, Resume(unmarked), Reconcile(false)), Go, sh1, Working(work, CommandMarking(V1_COPY)));
    } else {
      more := ExtendRun(more, p, sh1, Working(unmarked, ReadEvidence(V1_COPY)), Go, sh1, Working(work, CommandMarking(V1_COPY)));
    }
    more := MarkBoth(more, p, work, sh1, sh);
  }

  /** The command mark and the route mark. */
  lemma MarkBoth(events: seq<Event>, p: nat, work: Work, sh1: Shared, sh: Shared) returns (more: seq<Event>)
    requires work == V1_WORK.(token := work.token)
    requires Reaches(events, Solo(sh1, p, Working(work, CommandMarking(V1_COPY))))
    requires sh1.command == Some(V1_COMMAND.(claimToken := Some(work.token)))
    requires sh1.route == Some(V1_ROW) || sh1.route == V1Shared(0, false, R.Started, 0).route
    requires sh1.nextToken == work.token + 1 && sh1.retired == {} && !sh1.doomed && !sh1.run && sh1.accepted == sh1.sends
    requires sh == V1Shared(work.token, true, R.Started, sh1.sends)
    ensures Reaches(more, Solo(sh, p, Working(work, Spawning(V1_COPY))))
  {
    var sh2 := sh1.(command := sh.command);
    more := ExtendRun(events, p, sh1, Working(work, CommandMarking(V1_COPY)), Go, sh2, Working(work, RouteMarking(V1_COPY)));
    more := ExtendRun(more, p, sh2, Working(work, RouteMarking(V1_COPY)), Go, sh, Working(work, Spawning(V1_COPY)));
  }

  /** The first request: its send is taken, its answer is lost, and the command is released. */
  lemma LoseAnAnswer() returns (events: seq<Event>)
    ensures Reaches(events, Solo(V1Shared(0, false, R.Started, 1).(
                                 command := Some(V1_COMMAND.(state := C.Queued, claimToken := None))), 0, Idle(Done)))
  {
    var claiming := Idle(Claiming(V1_REQUEST, "task", false));
    var unmarked := V1_WORK.(marked := false);
    var sh0 := FreshSlot.sh.(command := Some(V1_COMMAND), nextToken := 1);
    assert FreshSlot.procs[0 := claiming] == Solo(FreshSlot.sh, 0, claiming).procs;
    events := Extend([], FreshSlot, Begin(0, claiming), Solo(FreshSlot.sh, 0, claiming));
    events := ExtendRun(events, 0, FreshSlot.sh, claiming, Go, sh0, Working(unmarked, Preparing));
    events := ExtendRun(events, 0, sh0, Working(unmarked, Preparing), Go, sh0, Working(unmarked, Reserving));
    var sh1 := V1Shared(0, true, R.Started, 0);
    events := ReachSpawn(events, 0, V1_WORK, sh0, sh1);
    events := LoseTheAnswer(events);
  }

  lemma LoseTheAnswer(before: seq<Event>) returns (events: seq<Event>)
    requires Reaches(before, Solo(V1Shared(0, true, R.Started, 0), 0, Working(V1_WORK, Spawning(V1_COPY))))
    ensures Reaches(events, Solo(V1Shared(0, false, R.Started, 1).(
                                 command := Some(V1_COMMAND.(state := C.Queued, claimToken := None))), 0, Idle(Done)))
  {
    var sh1 := V1Shared(0, true, R.Started, 0);
    var sh2 := V1Shared(0, true, R.Started, 1);
    events := ExtendRun(before, 0, sh1, Working(V1_WORK, Spawning(V1_COPY)), Dispatch(true), sh2, Working(V1_WORK, Sent(V1_COPY, true)));
    events := ExtendRun(events, 0, sh2, Working(V1_WORK, Sent(V1_COPY, true)), LoseResponse, sh2, Closing(V1_WORK, Releasing));
    events := ExtendRun(events, 0, sh2, Closing(V1_WORK, Releasing), Go, sh2.(command := Some(V1_COMMAND.(state := C.Queued, claimToken := None))), Idle(Done));
  }

  /**
   Under the `ruyi_gateway_v1` contract a pending, reserved route does not prove
   that nothing was sent: a replay that is not dispatched rewinds the boundary
   over an earlier send that was taken.  `AtMostOneEffect` shows that it does
   prove it for every other policy.
   */
  lemma ReplayRewindsBoundary() returns (events: seq<Event>)
    ensures Replay(FreshSlot, events).Some?
    ensures var sh := Replay(FreshSlot, events).value.sh;
            R.NotDispatchedIsDurable(sh.route, "peer") && sh.sends == 1 && sh.accepted == 1
            && sh.route.value.evidence.policy == R.RuyiGatewayV1
  {
    events := LoseAnAnswer();
    var released := V1Shared(0, false, R.Started, 1).(command := Some(V1_COMMAND.(state := C.Queued, claimToken := None)));
    var claiming := Idle(Claiming(V1_REQUEST, "other", false));
    var work := V1_WORK.(token := 1);
    var unmarked := work.(marked := false);
    var sh0 := V1Shared(1, false, R.Started, 1);
    assert Solo(released, 0, Idle(Done)).procs[1 := claiming] == Solo(released, 1, claiming).procs;
    events := Extend(events, Solo(released, 0, Idle(Done)), Begin(1, claiming), Solo(released, 1, claiming));
    events := ExtendRun(events, 1, released, claiming, Go, sh0, Working(unmarked, Preparing));
    events := ExtendRun(events, 1, sh0, Working(unmarked, Preparing), Go, sh0, Working(unmarked, Reserving));
    events := ReachSpawn(events, 1, work, sh0, V1Shared(1, true, R.Started, 1));
    events := Rewind(events, work);
  }

  lemma Rewind(before: seq<Event>, work: Work) returns (events: seq<Event>)
    requires work == V1_WORK.(token := 1)
    requires Reaches(before, Solo(V1Shared(1, true, R.Started, 1), 1, Working(work, Spawning(V1_COPY))))
    ensures Reaches(events, Solo(V1Shared(1, true, R.Reserved, 1), 1, Closing(work, ReleasingUndispatched)))
  {
    var sh1 := V1Shared(1, true, R.Started, 1);
    events := ExtendRun(before, 1, sh1, Working(work, Spawning(V1_COPY)), NotDispatched, sh1, Working(work, Restoring));
    var sh2 := V1Shared(1, true, R.Reserved, 1);
    events := ExtendRun(events, 1, sh1, Working(work, Restoring), Go, sh2, Closing(work, ReleasingUndispatched));
  }

  /** Over all runs, a route of this policy whose boundary reads `reserved` has sent nothing. */
  ghost predicate ReservedProvesNoSend(policy: R.ReplayPolicy) {
    forall events | Replay(FreshSlot, events).Some? ::
      var sh := Replay(FreshSlot, events).value.sh;
      ReadsReserved(sh) && sh.route.value.evidence.policy == policy ==> sh.sends == 0
  }

  /** The boundary is proof exactly for the policies without a replay contract. */
  lemma ReservedProvesExactly(policy: R.ReplayPolicy)
    ensures ReservedProvesNoSend(policy) <==> policy != R.RuyiGatewayV1
  {
    if policy == R.RuyiGatewayV1 {
      var events := ReplayRewindsBoundary();
      assert Replay(FreshSlot, events).Some?;
    } else {
      forall events | Replay(FreshSlot, events).Some?
        ensures var sh := Replay(FreshSlot, events).value.sh;
                ReadsReserved(sh) && sh.route.value.evidence.policy == policy ==> sh.sends == 0
      {
        RunsKeep(FreshSlot, events);
      }
    }
  }
}
