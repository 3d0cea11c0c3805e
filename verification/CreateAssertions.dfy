/**
 The assertions of the create protocol: what holds of the two ledgers, what each
 process and each call left in the background may assume, and what a step may do
 to everybody else.
 */
module CreateAssertions {
  import opened Common
  import opened CreateProtocol
  import R = RouteLedger
  import C = CommandLedger

  // ----- what holds of the two ledgers

  predicate LocalRoute(sh: Shared) {
    sh.route.Some? && sh.route.value.route.kind == R.Local
  }

  predicate NeverRemote(sh: Shared) {
    sh.route.Some? && sh.route.value.route.kind == R.RemoteRef && sh.route.value.evidence.policy == R.Never
  }

  /** Routes whose effect must not be repeated. */
  predicate Guarded(sh: Shared) {
    LocalRoute(sh) || NeverRemote(sh)
  }

  predicate InState(sh: Shared, state: R.RouteState) {
    sh.route.Some? && sh.route.value.route.state == state
  }

  predicate Bound(sh: Shared) {
    InState(sh, R.Active) || InState(sh, R.Uncertain)
  }

  predicate StartedBoundary(sh: Shared) {
    sh.route.Some? && sh.route.value.evidence.boundary == R.Started
  }

  /** The effect happened: a durable local run, or a send the other side took. */
  predicate Effective(sh: Shared) {
    sh.route.Some? && if LocalRoute(sh) then sh.run else sh.accepted > 0
  }

  predicate RowShape(row: R.Row) {
    && row.evidence.scope == R.External
    && row.evidence.boundary in {R.Reserved, R.Started}
    && (row.route.kind == R.Local <==> row.evidence.policy == R.LocalTaskIdentity)
    && row.evidence.policy != R.LegacyPolicy
    && row.route.taskId != ""
    && (row.route.kind == R.Local ==> row.route.upstream == Some(row.route.taskId))
    && (row.route.kind == R.RemoteRef && row.route.state == R.Pending ==> row.route.upstream == None)
    && R.ActiveBindingOk(row.route)
  }

  predicate CommandShape(sh: Shared) {
    sh.command.Some? ==>
      && C.WellFormed(sh.command.value)
      && sh.command.value.operation == C.CREATE_TASK
      && sh.command.value.taskId != ""
      && (sh.command.value.state == C.Processing ==> sh.command.value.claimToken.value < sh.nextToken)
      && (sh.command.value.state == C.Succeeded ==> sh.command.value.response != Some(""))
  }

  predicate Linked(sh: Shared) {
    sh.route.Some? ==>
      && RowShape(sh.route.value)
      && sh.command.Some?
      && sh.route.value.route.taskId == sh.command.value.taskId
      && sh.route.value.route.agent == sh.command.value.target
  }

  predicate SendCounts(sh: Shared) {
    && sh.accepted <= sh.sends
    && (sh.route.None? ==> sh.sends == 0 && !sh.doomed)
    && (sh.run ==> sh.sends > 0)
    && (Guarded(sh) ==> sh.sends <= 1)
    && (Guarded(sh) && ReadsReserved(sh) ==> sh.sends == 0)
  }

  predicate Outcomes(sh: Shared) {
    && (InState(sh, R.Active) ==> Effective(sh))
    && (NeverRemote(sh) && InState(sh, R.Failed) ==> sh.accepted == 0)
    && (NeverRemote(sh) && sh.doomed && InState(sh, R.Pending) ==> sh.accepted == 0 && StartedBoundary(sh))
    && (sh.command.Some? && sh.command.value.state == C.Succeeded ==> Effective(sh) && Bound(sh))
  }

  predicate TokensIssued(sh: Shared) {
    forall t :: t in sh.retired ==> t < sh.nextToken
  }

  predicate LedgersOk(sh: Shared) {
    CommandShape(sh) && TokensIssued(sh) && Linked(sh) && SendCounts(sh) && Outcomes(sh)
  }

  // ----- what each process may assume

  function TokenOf(pc: Pc): Option<nat>
  {
    match pc
    case Idle(_) => None
    case Working(w, _) => Some(w.token)
    case Checking(_, after, _) => AfterToken(after)
    case Closing(w, _) => Some(w.token)
  }

  function AfterToken(after: After): Option<nat>
  {
    match after
    case Resume(w) => Some(w.token)
    case Cleanup(w) => Some(w.token)
    case Settle(w) => Some(w.token)
    case _ => None
  }

  /** The process still owns the command, and nothing left behind can take it away. */
  predicate Live(sh: Shared, w: Work) {
    && C.HeldBy(sh.command, w.token)
    && w.token !in sh.retired
    && sh.command.value.taskId == w.taskId
    && sh.command.value.target == w.req.agent
  }

  /** Nothing was sent yet, and nothing left behind may still fail the pending route. */
  predicate Untouched(sh: Shared) {
    (Guarded(sh) ==> sh.sends == 0) && NotDoomed(sh)
  }

  predicate NotDoomed(sh: Shared) {
    !(NeverRemote(sh) && sh.doomed && InState(sh, R.Pending))
  }

  predicate KindIs(sh: Shared, w: Work) {
    sh.route.Some? && sh.route.value.route.kind == w.req.kind
  }

  /** A route value read earlier: identity is current, the rest is only a lower bound. */
  predicate CopyOk(sh: Shared, copy: R.Route) {
    && sh.route.Some?
    && copy.taskId == sh.route.value.route.taskId
    && copy.agent == sh.route.value.route.agent
    && copy.kind == sh.route.value.route.kind
    && (copy.kind == R.Local ==> copy.upstream == Some(copy.taskId))
    && (copy.kind == R.RemoteRef && copy.state == R.Pending ==> copy.upstream == None)
    && (copy.state == R.Active ==> Effective(sh) && Bound(sh) && R.Truthy(copy.upstream))
    && (copy.state != R.Pending ==> !InState(sh, R.Pending))
  }

  predicate AfterOk(sh: Shared, after: After) {
    match after
    case Resume(w) => Live(sh, w) && KindIs(sh, w)
    case Cleanup(w) => w.token < sh.nextToken
    case Settle(w) => w.token < sh.nextToken
    case _ => true
  }

  /** Which transitions of the route are sound now, apart from a failure's own authority. */
  predicate TransitionOk(sh: Shared, state: R.RouteState, upstream: Option<string>) {
    && sh.route.Some?
    && state != R.Pending
    && (LocalRoute(sh) ==> upstream == Some(sh.route.value.route.taskId))
    && (state == R.Active ==> Effective(sh) && R.Truthy(upstream))
  }

  predicate IdleOk(sh: Shared, at: IdlePc)
  {
    match at
    case Claiming(_, proposed, _) => proposed != ""
    case ReopenRoute(_, taskId, _) => taskId != ""
    case ReopenEvidence(_, taskId, _, _) => taskId != ""
    case Reopening(_, taskId, _) => taskId != ""
    case Saving(copy) => CopyOk(sh, copy) && copy.state == R.Active && copy.kind == R.Local
    case _ => true
  }

  predicate PendingCopy(sh: Shared, w: Work, copy: R.Route) {
    KindIs(sh, w) && CopyOk(sh, copy) && copy.state == R.Pending
  }

  predicate WorkOk(sh: Shared, w: Work, at: WorkPc)
  {
    match at
    case Preparing => true
    case Reserving => true
    case ReadEvidence(copy) => KindIs(sh, w) && CopyOk(sh, copy)
    case CommandMarking(copy) => PendingCopy(sh, w, copy) && MaySend(sh)
    case RouteMarking(copy) => PendingCopy(sh, w, copy) && MaySend(sh)
    case Spawning(copy) => PendingCopy(sh, w, copy) && MaySend(sh) && StartedBoundary(sh) && NotFailedNever(sh)
    case Sent(copy, taken) =>
      && PendingCopy(sh, w, copy)
      && StartedBoundary(sh) && NotFailedNever(sh) && NotDoomed(sh)
      && (taken ==> sh.accepted > 0)
      && (NeverRemote(sh) && !taken ==> sh.accepted == 0)
    case Restoring => KindIs(sh, w) && w.req.kind == R.RemoteRef && MaySend(sh)
    case FailRoute(copy, target, upstream) =>
      && CopyOk(sh, copy) && copy.state == R.Pending
      && target in {R.Failed, R.Uncertain}
      && TransitionOk(sh, target, upstream)
      && (target == R.Failed ==> MayFail(sh))
    case Activating(copy, bound) => CopyOk(sh, copy) && copy.state == R.Pending && TransitionOk(sh, R.Active, Some(bound))
    case Reading => Effective(sh) && Bound(sh)
    case Completing => Effective(sh) && Bound(sh)
  }

  predicate CheckOk(sh: Shared, copy: R.Route, check: CheckPc)
  {
    match check
    case Reconcile(_) => true
    case ReadRecord(_, _) => copy.kind == R.Local && copy.state in {R.Pending, R.Active}
    case SettleRoute(target, upstream) =>
      && copy.state == R.Pending
      && TransitionOk(sh, target, upstream)
      && (target != R.Uncertain ==> copy.kind == R.Local)
      && (copy.kind == R.RemoteRef ==> upstream == None)
    case Reread => !InState(sh, R.Pending)
    case MarkUncertain => copy.state == R.Pending
  }

  predicate PcOk(sh: Shared, pc: Pc)
  {
    match pc
    case Idle(at) => IdleOk(sh, at)
    case Working(w, at) => Live(sh, w) && WorkOk(sh, w, at)
    case Checking(copy, after, check) => CopyOk(sh, copy) && AfterOk(sh, after) && CheckOk(sh, copy, check)
    case Closing(w, _) => w.token < sh.nextToken
  }

  predicate MaySend(sh: Shared) {
    Untouched(sh)
  }

  predicate NotFailedNever(sh: Shared) {
    NeverRemote(sh) ==> !InState(sh, R.Failed)
  }

  /** A failure may be recorded: no send was taken, and the boundary of a pending row shows the attempt. */
  predicate MayFail(sh: Shared) {
    NeverRemote(sh) ==> sh.accepted == 0 && (InState(sh, R.Pending) ==> StartedBoundary(sh))
  }

  /** What is known about a call left running by a cancelled request. */
  predicate LeftOk(sh: Shared, t: Txn)
  {
    match t
    case ClaimTxn(_, proposed) => proposed != ""
    case ReopenTxn(_) => true
    case ReserveTxn(req, taskId) =>
      sh.command.Some? && sh.command.value.taskId == taskId && sh.command.value.target == req.agent
    case MarkRouteTxn => true
    case TransitionTxn(state, upstream, _) =>
      TransitionOk(sh, state, upstream) && (NeverRemote(sh) && state == R.Failed ==> sh.doomed)
    case SaveTxn(copy) => CopyOk(sh, copy) && copy.state == R.Active && copy.kind == R.Local
    case MarkCommandTxn(_, _) => true
    case CompleteTxn(token, response) => token in sh.retired && response != "" && Effective(sh) && Bound(sh)
    case _ => false
  }

  // ----- what a step may do to everybody else

  /** Facts that only ever grow. */
  predicate Monotone(a: Shared, b: Shared) {
    && a.nextToken <= b.nextToken
    && a.retired <= b.retired
    && (a.run ==> b.run)
    && a.accepted <= b.accepted
    && (a.doomed ==> b.doomed)
    && (a.command.Some? ==> b.command.Some? && C.Evolves(a.command.value, b.command.value))
    && (a.route.Some? ==> b.route.Some? && R.Evolves(a.route.value, b.route.value))
  }

  /** What the holder of the command relies on: nobody else sends, rewinds the boundary, or fails its route. */
  predicate Frozen(a: Shared, b: Shared) {
    && a.sends == b.sends
    && a.accepted == b.accepted
    && (StartedBoundary(a) ==> StartedBoundary(b))
    && (NeverRemote(a) && b.doomed ==> a.doomed)
    && (NeverRemote(a) && InState(b, R.Failed) ==> InState(a, R.Failed) || (InState(a, R.Pending) && a.doomed))
  }

  /** The effect of one step by a process holding `actor` (if any). */
  ghost predicate Rely(a: Shared, b: Shared, actor: Option<nat>) {
    && Monotone(a, b)
    && forall t: nat {:trigger C.HeldBy(a.command, t)} ::
         Some(t) != actor && C.HeldBy(a.command, t) && t !in a.retired ==>
           C.HeldBy(b.command, t) && t !in b.retired && (a.route.Some? ==> Frozen(a, b))
  }

  // ----- what a process may do, and that every step stays within it

  predicate HeldByActor(sh: Shared, actor: Option<nat>) {
    actor.Some? && C.HeldBy(sh.command, actor.value)
  }

  predicate MayCommit(sh: Shared, t: Txn, actor: Option<nat>)
  {
    match t
    case TransitionTxn(state, upstream, _) =>
      && TransitionOk(sh, state, upstream)
      && (NeverRemote(sh) && state == R.Failed ==> sh.doomed || (HeldByActor(sh, actor) && MayFail(sh)))
    case RestoreTxn => HeldByActor(sh, actor) && MaySend(sh)
    case CompleteTxn(token, response) =>
      response != "" && Effective(sh) && Bound(sh) && (token in sh.retired || actor == Some(token))
    case FailTxn(token, _) => actor == Some(token)
    case ReleaseTxn(token) => actor == Some(token)
    case ReleaseUndispatchedTxn(token) => actor == Some(token)
    case _ => LeftOk(sh, t)
  }

  predicate MayDo(sh: Shared, change: Change, actor: Option<nat>)
  {
    match change
    case Nothing => true
    case Commit(t) => MayCommit(sh, t, actor)
    case SendOut(_) => HeldByActor(sh, actor) && MaySend(sh) && StartedBoundary(sh) && NotFailedNever(sh)
    case LeaveBehind(t) =>
      && !t.RestoreTxn? && !t.FailTxn? && !t.ReleaseTxn? && !t.ReleaseUndispatchedTxn?
      && MayCommit(sh, t, actor)
      && (t.CompleteTxn? ==> t.token < sh.nextToken)
  }

  /** The token of a process is its own: kept, dropped, or freshly issued. */
  predicate TokenFollows(sh: Shared, pc: Pc, sh': Shared, pc': Pc) {
    TokenOf(pc').Some? ==>
      && TokenOf(pc').value < sh'.nextToken
      && (TokenOf(pc) == TokenOf(pc') || (TokenOf(pc).None? && sh.nextToken <= TokenOf(pc').value))
  }

  predicate Good(sh: Shared, pc: Pc, m: Move) {
    && MayDo(sh, m.change, TokenOf(pc))
    && PcOk(Do(sh, m.change), m.pc)
    && TokenFollows(sh, pc, Do(sh, m.change), m.pc)
  }

  predicate Ready(sh: Shared, pc: Pc) {
    LedgersOk(sh) && PcOk(sh, pc) && (TokenOf(pc).Some? ==> TokenOf(pc).value < sh.nextToken)
  }
}
