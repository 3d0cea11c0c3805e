/** Every step inside the reconciliation of a pending create stays within what its state entitles it to. */
module CreateChecks {
  import opened Common
  import opened CreateProtocol
  import opened CreateAssertions
  import opened CreateInvariant
  import R = RouteLedger
  import C = CommandLedger

  /** A pending answer lets `_reserve` go on, so it must still be safe to send. */
  lemma ReconciledOk(sh: Shared, after: After, route: R.Route)
    requires LedgersOk(sh) && CopyOk(sh, route) && AfterOk(sh, after)
    requires after.Resume? && route.state == R.Pending ==> MaySend(sh)
    requires after.Resume? && route.state == R.Active ==> Effective(sh) && Bound(sh)
    ensures PcOk(sh, Reconciled(after, route))
    ensures TokenOf(Reconciled(after, route)) in {None, AfterToken(after)}
  {
  }

  lemma SettledOk(sh: Shared, copy: R.Route, after: After, t: Txn)
    requires LedgersOk(sh) && t.TransitionTxn? && CopyOk(sh, copy) && AfterOk(sh, after)
    requires CheckOk(sh, copy, SettleRoute(t.state, t.upstream))
    requires LedgersOk(Exec(sh, t).0)
    ensures PcOk(Exec(sh, t).0, Settled(sh, copy, after, t))
    ensures TokenOf(Settled(sh, copy, after, t)) in {None, AfterToken(after)}
  {
    var sh' := Exec(sh, t).0;
    var r := R.TransitionRoute(sh.route, t.state, t.upstream, t.error);
    if r.Ok? {
      R.TransitionEvolves(sh.route.value, t.state, t.upstream, t.error);
      ReconciledOk(sh', after, r.value.route);
    }
  }

  lemma ClassifyOk(sh: Shared, copy: R.Route, live: bool, after: After)
    requires LedgersOk(sh) && CopyOk(sh, copy) && AfterOk(sh, after)
    ensures PcOk(sh, Classify(sh, copy, live, after))
    ensures TokenOf(Classify(sh, copy, live, after)) in {None, AfterToken(after)}
  {
    if Classify(sh, copy, live, after) == Reconciled(after, copy) {
      ReconciledOk(sh, after, copy);
    }
  }

  lemma ClassifyLocalOk(sh: Shared, copy: R.Route, live: bool, reserved: bool, after: After)
    requires LedgersOk(sh) && CopyOk(sh, copy) && AfterOk(sh, after)
    requires copy.kind == R.Local && copy.state in {R.Pending, R.Active}
    ensures PcOk(sh, ClassifyLocal(sh, copy, live, reserved, after))
    ensures TokenOf(ClassifyLocal(sh, copy, live, reserved, after)) in {None, AfterToken(after)}
  {
    if copy.state == R.Active && sh.run {
      ReconciledOk(sh, after, copy);
    }
  }

  lemma SettleGood(sh: Shared, copy: R.Route, after: After, t: Txn, check: CheckPc, m: Move)
    requires Ready(sh, Checking(copy, after, check))
    requires t.TransitionTxn? && CheckOk(sh, copy, SettleRoute(t.state, t.upstream))
    requires m == Move(Commit(t), Settled(sh, copy, after, t))
    ensures Good(sh, Checking(copy, after, check), m) == true
  {
    CommitKeeps(sh, t, AfterToken(after));
    SettledOk(sh, copy, after, t);
  }

  lemma RereadGood(sh: Shared, copy: R.Route, after: After, m: Move)
    requires Ready(sh, Checking(copy, after, Reread))
    requires StepCheck(sh, copy, after, Reread, Go) == Some(m)
    ensures Good(sh, Checking(copy, after, Reread), m) == true
  {
    ReconciledOk(sh, after, sh.route.value.route);
  }

  lemma MarkUncertainGood(sh: Shared, copy: R.Route, after: After, m: Move)
    requires Ready(sh, Checking(copy, after, MarkUncertain))
    requires StepCheck(sh, copy, after, MarkUncertain, Go) == Some(m)
    ensures Good(sh, Checking(copy, after, MarkUncertain), m) == true
  {
  }

  lemma CheckGoGood(sh: Shared, copy: R.Route, after: After, check: CheckPc, m: Move)
    requires Ready(sh, Checking(copy, after, check))
    requires StepCheck(sh, copy, after, check, Go) == Some(m)
    ensures Good(sh, Checking(copy, after, check), m) == true
  {
    match check
    case Reconcile(live) => ClassifyOk(sh, copy, live, after);
    case ReadRecord(live, reserved) => ClassifyLocalOk(sh, copy, live, reserved, after);
    case SettleRoute(target, upstream) => SettleGood(sh, copy, after, SettleTxn(target, upstream), check, m);
    case Reread => RereadGood(sh, copy, after, m);
    case MarkUncertain => MarkUncertainGood(sh, copy, after, m);
  }

  lemma CheckCancelGood(sh: Shared, copy: R.Route, after: After, check: CheckPc, m: Move)
    requires Ready(sh, Checking(copy, after, check)) && StepCheck(sh, copy, after, check, Cancel) == Some(m)
    ensures Good(sh, Checking(copy, after, check), m) == true
  {
  }
}
