/**
 What every run of the create protocol guarantees: at most one effect, truthful
 outcomes, a monotone pair of ledgers, and a recovery that blocks a retry
 exactly when the effect may have happened.
 */
module CreateTheorems {
  import opened Common
  import opened CreateProtocol
  import opened CreateAssertions
  import opened CreateInvariant
  import opened CreateChecks
  import opened CreateSteps
  import R = RouteLedger
  import C = CommandLedger

  // ----- the invariant of a slot

  predicate DistinctTokens(procs: map<nat, Pc>) {
    forall p, q :: p in procs && q in procs && p != q && TokenOf(procs[p]).Some? ==> TokenOf(procs[p]) != TokenOf(procs[q])
  }

  predicate SlotOk(s: Slot) {
    && LedgersOk(s.sh)
    && (forall p :: p in s.procs ==> Ready(s.sh, s.procs[p]))
    && (forall t :: t in s.left ==> LeftOk(s.sh, t))
    && DistinctTokens(s.procs)
    && (s.phase != Up ==> s.procs == map[] && s.left == {})
  }

  lemma WorkStepGood(sh: Shared, w: Work, at: WorkPc, act: Act, m: Move)
    requires Ready(sh, Working(w, at)) && StepWork(sh, w, at, act) == Some(m)
    ensures Good(sh, Working(w, at), m) == true
  {
    if at.Preparing? || at.Reserving? {
      ReserveStepGood(sh, w, at, act, m);
    } else if at.ReadEvidence? {
      ReadEvidenceStepGood(sh, w, at, act, m);
    } else if at.CommandMarking? {
      CommandMarkStepGood(sh, w, at, act, m);
    } else if at.RouteMarking? {
      RouteMarkStepGood(sh, w, at, act, m);
    } else if at.FailRoute? {
      FailRouteStepGood(sh, w, at, act, m);
    } else if at.Spawning? {
      SpawnStepGood(sh, w, at.copy, act, m);
    } else if at.Sent? {
      AnswerStepGood(sh, w, at.copy, at.taken, act, m);
    } else if at.Activating? {
      ActivateStepGood(sh, w, at, act, m);
    } else {
      OutcomeStepGood(sh, w, at, act, m);
    }
  }

  lemma StepGood(sh: Shared, pc: Pc, act: Act, m: Move)
    requires Ready(sh, pc) && Step(sh, pc, act) == Some(m)
    ensures Good(sh, pc, m) == true
  {
    match pc
    case Idle(at) => IdleStepGood(sh, at, act, m);
    case Closing(w, at) => CloseStepGood(sh, w, at, act, m);
    case Working(w, at) => WorkStepGood(sh, w, at, act, m);
    case Checking(copy, after, check) =>
      if act == Go {
        CheckGoGood(sh, copy, after, check, m);
      } else {
        CheckCancelGood(sh, copy, after, check, m);
      }
  }

  lemma OthersKeep(s: Slot, sh': Shared, actor: Option<nat>, q: nat)
    requires SlotOk(s) && Rely(s.sh, sh', actor) && LedgersOk(sh')
    requires q in s.procs && (TokenOf(s.procs[q]).Some? ==> TokenOf(s.procs[q]) != actor)
    ensures Ready(sh', s.procs[q])
  {
    RelyKeepsPc(s.sh, sh', actor, s.procs[q]);
  }

  lemma LeftKeep(s: Slot, sh': Shared, actor: Option<nat>)
    requires SlotOk(s) && Rely(s.sh, sh', actor)
    ensures forall t :: t in s.left ==> LeftOk(sh', t)
  {
    forall t | t in s.left ensures LeftOk(sh', t) {
      RelyKeepsLeft(s.sh, sh', actor, t);
    }
  }

  lemma RunKeeps(s: Slot, p: nat, act: Act)
    requires SlotOk(s) && Apply(s, Run(p, act)).Some?
    ensures SlotOk(Apply(s, Run(p, act)).value)
    ensures Monotone(s.sh, Apply(s, Run(p, act)).value.sh)
  {
    var pc := s.procs[p];
    var m := Step(s.sh, pc, act).value;
    var s' := Apply(s, Run(p, act)).value;
    StepGood(s.sh, pc, act, m);
    ChangeKeeps(s.sh, m.change, TokenOf(pc));
    if m.change.LeaveBehind? {
      LeaveBehindKeeps(s.sh, m.change.t, TokenOf(pc));
    }
    forall q | q in s'.procs ensures Ready(s'.sh, s'.procs[q]) {
      if q != p {
        OthersKeep(s, s'.sh, TokenOf(pc), q);
      }
    }
    LeftKeep(s, s'.sh, TokenOf(pc));
    TokensStayDistinct(s, p, s'.sh, m.pc);
  }

  lemma TokensStayDistinct(s: Slot, p: nat, sh': Shared, pc': Pc)
    requires SlotOk(s) && p in s.procs && TokenFollows(s.sh, s.procs[p], sh', pc')
    ensures DistinctTokens(s.procs[p := pc'])
  {
  }

  lemma BackgroundKeeps(s: Slot, t: Txn)
    requires SlotOk(s) && Apply(s, Background(t)).Some?
    ensures SlotOk(Apply(s, Background(t)).value)
    ensures Monotone(s.sh, Apply(s, Background(t)).value.sh)
  {
    var s' := Apply(s, Background(t)).value;
    CommitKeeps(s.sh, t, None);
    forall q | q in s'.procs ensures Ready(s'.sh, s'.procs[q]) {
      OthersKeep(s, s'.sh, None, q);
    }
    LeftKeep(s, s'.sh, None);
  }

  lemma DurableRunKeeps(s: Slot)
    requires SlotOk(s) && Apply(s, RunBecomesDurable).Some?
    ensures SlotOk(Apply(s, RunBecomesDurable).value)
  {
    var s' := Apply(s, RunBecomesDurable).value;
    assert Rely(s.sh, s'.sh, None);
    forall q | q in s'.procs ensures Ready(s'.sh, s'.procs[q]) {
      OthersKeep(s, s'.sh, None, q);
    }
    LeftKeep(s, s'.sh, None);
  }

  lemma RouteSweepKeeps(sh: Shared)
    requires LedgersOk(sh)
    ensures LedgersOk(SweepRoute(sh))
    ensures sh.route.Some? ==> R.Evolves(sh.route.value, SweepRoute(sh).route.value)
  {
    if sh.route.Some? {
      R.OpEvolves(sh.route.value, R.Recover);
      RecoveredShape(sh.route.value);
    }
  }

  lemma RecoveredShape(row: R.Row)
    requires RowShape(row)
    ensures RowShape(R.RecoverRow(row)) && R.RecoverRow(row).evidence == row.evidence
    ensures row.route.state == R.Failed <==> R.RecoverRow(row).route.state == R.Failed
  {
  }

  lemma CommandSweepKeeps(sh: Shared)
    requires LedgersOk(sh)
    ensures LedgersOk(SweepCommand(sh))
    ensures sh.command.Some? ==> C.Evolves(sh.command.value, SweepCommand(sh).command.value)
  {
  }

  lemma ApplyKeeps(s: Slot, e: Event)
    requires SlotOk(s) && Apply(s, e).Some?
    ensures SlotOk(Apply(s, e).value)
    ensures RowsEvolve(s, Apply(s, e).value)
  {
    match e
    case Begin(p, pc) =>
    case Run(p, act) => RunKeeps(s, p, act);
    case Background(t) => BackgroundKeeps(s, t);
    case RunBecomesDurable => DurableRunKeeps(s);
    case Crash =>
    case SweepRoutes => RouteSweepKeeps(s.sh);
    case SweepCommands => CommandSweepKeeps(s.sh);
  }

  predicate RowsEvolve(s: Slot, s': Slot) {
    && (s.sh.route.Some? ==> s'.sh.route.Some? && R.Evolves(s.sh.route.value, s'.sh.route.value))
    && (s.sh.command.Some? ==> s'.sh.command.Some? && C.Evolves(s.sh.command.value, s'.sh.command.value))
  }

  /** The invariant holds in every state a run can reach. */
  lemma {:induction false} RunsKeep(s: Slot, events: seq<Event>)
    requires SlotOk(s) && Replay(s, events).Some?
    ensures SlotOk(Replay(s, events).value)
    decreases |events|
  {
    if events == [] {
    } else {
      ApplyKeeps(s, events[0]);
      RunsKeep(Apply(s, events[0]).value, events[1..]);
    }
  }

  // ----- safety of whole runs

  /**
   In every run of retries, readers, cancellations, crashes and restarts, a
   remote create without a replay contract, and a local create, has at most one
   effect; and none at all as long as its boundary still reads `reserved`.
   */
  lemma AtMostOneEffect(events: seq<Event>)
    requires Replay(FreshSlot, events).Some?
    ensures var sh := Replay(FreshSlot, events).value.sh;
            && (NeverRemote(sh) || LocalRoute(sh) ==> sh.sends <= 1)
            && ((NeverRemote(sh) || LocalRoute(sh)) && ReadsReserved(sh) ==> sh.sends == 0)
            && (sh.route.None? ==> sh.sends == 0)
  {
    RunsKeep(FreshSlot, events);
  }

  /**
   What the ledgers claim is true: a succeeded command has a bound route and an
   effect that happened (exactly one, where replay is forbidden); an active
   route has its effect and, when remote, an upstream id; a `never` route is
   `failed` only if no send was taken; and a local route is `failed` with a
   reserved boundary only if nothing was started.
   */
  lemma LedgersAreTruthful(events: seq<Event>)
    requires Replay(FreshSlot, events).Some?
    ensures var sh := Replay(FreshSlot, events).value.sh;
            && (sh.command.Some? && sh.command.value.state == C.Succeeded ==> Effective(sh) && Bound(sh))
            && (sh.command.Some? && sh.command.value.state == C.Succeeded && NeverRemote(sh) ==>
                  sh.sends == 1 && sh.accepted == 1)
            && (sh.command.Some? && sh.command.value.state == C.Succeeded && LocalRoute(sh) ==> sh.sends == 1)
            && (InState(sh, R.Active) ==> Effective(sh) && R.ActiveBindingOk(sh.route.value.route))
            && (NeverRemote(sh) && InState(sh, R.Failed) ==> sh.accepted == 0)
            && (LocalRoute(sh) && InState(sh, R.Failed) && ReadsReserved(sh) ==> sh.sends == 0 && !sh.run)
  {
    RunsKeep(FreshSlot, events);
  }

  /** What two moments of one run have in common, whatever happened between them. */
  predicate Later(a: Slot, b: Slot) {
    && (a.sh.command.Some? ==>
          && b.sh.command.Some?
          && C.SameCommand(a.sh.command.value, b.sh.command.value)
          && (a.sh.command.value.state == C.Succeeded ==> b.sh.command == a.sh.command))
    && (a.sh.route.Some? ==>
          && b.sh.route.Some?
          && R.SameIdentity(a.sh.route.value, b.sh.route.value)
          && R.AllowedTransition(a.sh.route.value.route.state, b.sh.route.value.route.state)
          && (!InState(a.sh, R.Pending) ==> b.sh.route.value.evidence == a.sh.route.value.evidence)
          && (InState(a.sh, R.Active) && InState(b.sh, R.Active) ==>
                a.sh.route.value.route.upstream == b.sh.route.value.route.upstream))
  }

  lemma {:induction false} EarlierAndLater(s: Slot, events: seq<Event>)
    requires SlotOk(s) && Replay(s, events).Some?
    ensures Later(s, Replay(s, events).value)
    decreases |events|
  {
    if events == [] {
    } else {
      ApplyKeeps(s, events[0]);
      EarlierAndLater(Apply(s, events[0]).value, events[1..]);
    }
  }

  lemma {:induction false} ReplayAppend(s: Slot, before: seq<Event>, after: seq<Event>)
    requires Replay(s, before).Some?
    ensures Replay(s, before + after) == Replay(Replay(s, before).value, after)
    decreases |before|
  {
    if before == [] {
      assert before + after == after;
    } else {
      assert (before + after)[1..] == before[1..] + after;
      ReplayAppend(Apply(s, before[0]).value, before[1..], after);
    }
  }

  /**
   The joint ledger history of a run: identities never change, a success keeps
   its response for ever, a failed or uncertain route stays what it is, an
   active route keeps its upstream id for as long as it is active, and a settled
   route keeps its evidence.
   */
  lemma JointLedgerHistory(before: seq<Event>, after: seq<Event>)
    requires Replay(FreshSlot, before + after).Some? && Replay(FreshSlot, before).Some?
    ensures Later(Replay(FreshSlot, before).value, Replay(FreshSlot, before + after).value)
  {
    RunsKeep(FreshSlot, before);
    ReplayAppend(FreshSlot, before, after);
    EarlierAndLater(Replay(FreshSlot, before).value, after);
  }
}
