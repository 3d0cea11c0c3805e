/**
 Every step of a process of the create protocol stays within what its state
 entitles it to, and leaves its own assertion true. `Good` is compared with
 `true` to be proved as one assertion instead of one for each of its clauses.
 */
module CreateSteps {
  import opened Common
  import opened CreateProtocol
  import opened CreateAssertions
  import opened CreateInvariant
  import opened CreateChecks
  import R = RouteLedger
  import C = CommandLedger

  lemma ClaimAnswerOk(sh: Shared, req: Request, proposed: string, retried: bool)
    requires LedgersOk(sh) && proposed != ""
    ensures var pc := ClaimAnswer(sh, req, proposed, retried);
            var sh' := Exec(sh, ClaimTxn(req, proposed)).0;
            PcOk(sh', pc) && TokenFollows(sh, Idle(Claiming(req, proposed, retried)), sh', pc)
  {
  }

  lemma ReadRouteOk(sh: Shared, after: After, missing: Pc)
    requires LedgersOk(sh) && AfterOk(sh, after) && PcOk(sh, missing)
    ensures PcOk(sh, ReadRoute(sh, after, missing))
  {
  }

  lemma IdleStepGood(sh: Shared, at: IdlePc, act: Act, m: Move)
    requires Ready(sh, Idle(at)) && StepIdle(sh, at, act) == Some(m)
    ensures Good(sh, Idle(at), m) == true
  {
    if act == Go && at.Claiming? {
      ClaimAnswerOk(sh, at.req, at.proposed, at.retried);
    } else if act == Go && at.TerminalRead? {
      ReadRouteOk(sh, TerminalError, Idle(Done));
    } else if act == Go && at.ReaderGet? {
      ReadRouteOk(sh, Reader(at.saving), Idle(Done));
    }
  }

  lemma ReadEvidenceStepGood(sh: Shared, w: Work, at: WorkPc, act: Act, m: Move)
    requires at.ReadEvidence?
    requires Ready(sh, Working(w, at)) && StepReserve(sh, w, at, act) == Some(m)
    ensures Good(sh, Working(w, at), m) == true
  {
    if act == Go && ReadsReserved(sh) {
      ReconciledOk(sh, Resume(w), at.copy);
    }
  }

  lemma ReserveStepGood(sh: Shared, w: Work, at: WorkPc, act: Act, m: Move)
    requires at.Preparing? || at.Reserving?
    requires Ready(sh, Working(w, at)) && StepReserve(sh, w, at, act) == Some(m)
    ensures Good(sh, Working(w, at), m) == true
  {
  }

  lemma CommandMarkStepGood(sh: Shared, w: Work, at: WorkPc, act: Act, m: Move)
    requires at.CommandMarking?
    requires Ready(sh, Working(w, at)) && StepMark(sh, w, at, act) == Some(m)
    ensures Good(sh, Working(w, at), m) == true
  {
  }

  lemma RouteMarkStepGood(sh: Shared, w: Work, at: WorkPc, act: Act, m: Move)
    requires at.RouteMarking?
    requires Ready(sh, Working(w, at)) && StepMark(sh, w, at, act) == Some(m)
    ensures Good(sh, Working(w, at), m) == true
  {
  }

  lemma SpawnStepGood(sh: Shared, w: Work, copy: R.Route, act: Act, m: Move)
    requires Ready(sh, Working(w, Spawning(copy))) && StepSpawn(w, copy, act) == Some(m)
    ensures Good(sh, Working(w, Spawning(copy)), m) == true
  {
  }

  lemma AnswerStepGood(sh: Shared, w: Work, copy: R.Route, taken: bool, act: Act, m: Move)
    requires Ready(sh, Working(w, Sent(copy, taken))) && StepAnswer(sh, w, copy, taken, act) == Some(m)
    ensures Good(sh, Working(w, Sent(copy, taken)), m) == true
  {
  }

  lemma ActivateStepGood(sh: Shared, w: Work, at: WorkPc, act: Act, m: Move)
    requires at.Activating?
    requires Ready(sh, Working(w, at)) && StepOutcome(sh, w, at, act) == Some(m)
    ensures Good(sh, Working(w, at), m) == true
  {
  }

  lemma FailRouteStepGood(sh: Shared, w: Work, at: WorkPc, act: Act, m: Move)
    requires at.FailRoute?
    requires Ready(sh, Working(w, at)) && StepOutcome(sh, w, at, act) == Some(m)
    ensures Good(sh, Working(w, at), m) == true
  {
  }

  lemma OutcomeStepGood(sh: Shared, w: Work, at: WorkPc, act: Act, m: Move)
    requires at.Restoring? || at.Reading? || at.Completing?
    requires Ready(sh, Working(w, at)) && StepOutcome(sh, w, at, act) == Some(m)
    ensures Good(sh, Working(w, at), m) == true
  {
  }

  lemma CloseStepGood(sh: Shared, w: Work, at: ClosePc, act: Act, m: Move)
    requires Ready(sh, Closing(w, at)) && StepClose(sh, w, at, act) == Some(m)
    ensures Good(sh, Closing(w, at), m) == true
  {
  }
}
