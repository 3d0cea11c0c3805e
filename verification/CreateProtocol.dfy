/**
 The crash-safe create protocol for one idempotency key.

 Two ledgers that cannot commit together (command and route), any number of
 concurrent requests and readers, a downstream that may lose answers, request
 cancellation that leaves a database call running in the background, and
 crashes followed by the two recovery sweeps.  Every database transaction and
 every message is one atomic step; a process keeps, in its program counter, the
 possibly stale values it has read.
 */
module CreateProtocol {
  import opened Common
  import R = RouteLedger
  import C = CommandLedger

  /** What the runtime reports for this agent, asked once for the command and once more for the route. */
  datatype Request = Request(
    agent: string,
    requestHash: string,
    kind: R.RouteKind,
    commandSafe: bool,
    replaySafe: bool,
    metadata: string,
    webhook: Option<string>)

  /** `create_effect_replay_safe`. */
  predicate CommandReplaySafe(req: Request) {
    req.kind == R.Local || req.commandSafe
  }

  predicate RemoteReplaySafe(req: Request) {
    req.kind == R.RemoteRef && req.replaySafe
  }

  /** A request that owns the command; `marked` is `create_boundary_started`. */
  datatype Work = Work(req: Request, taskId: string, token: nat, marked: bool)

  /**
   What survives a process step: the two rows, the local Task's durable run, and
   the token supply.  `sends` and `accepted` count the effects that may have
   left the Gateway and those the other side took; `retired` and `doomed` record
   which background calls a cancelled request left behind.
   */
  datatype Shared = Shared(
    route: Option<R.Row>,
    command: Option<C.Command>,
    run: bool,
    nextToken: nat,
    sends: nat,
    accepted: nat,
    retired: set<nat>,
    doomed: bool)

  // ----- database transactions

  datatype Txn =
    | ClaimTxn(req: Request, proposed: string)
    | ReopenTxn(expected: C.GatewayError)
    | ReserveTxn(req: Request, taskId: string)
    | MarkRouteTxn
    | RestoreTxn
    | TransitionTxn(state: R.RouteState, upstream: Option<string>, error: Option<string>)
    | SaveTxn(copy: R.Route)
    | MarkCommandTxn(token: nat, replaySafe: bool)
    | CompleteTxn(token: nat, response: string)
    | FailTxn(token: nat, failure: C.GatewayError)
    | ReleaseTxn(token: nat)
    | ReleaseUndispatchedTxn(token: nat)

  function ClaimRequestOf(req: Request, proposed: string): C.ClaimRequest {
    C.ClaimRequest(C.CREATE_TASK, req.agent, req.requestHash, proposed, None)
  }

  function ReservationOf(req: Request, taskId: string): R.Route {
    R.Route(taskId, req.agent, req.metadata, req.kind, None, req.webhook, R.Pending, None)
  }

  function Reserve(sh: Shared, req: Request, taskId: string): Result<R.Row, R.StoreError> {
    var (scope, policy) := R.CreateEvidencePolicy(req.kind, true, RemoteReplaySafe(req));
    R.ReserveRoute(sh.route, ReservationOf(req, taskId), scope, policy)
  }

  function WithRow(sh: Shared, r: Result<R.Row, R.StoreError>): (Shared, bool) {
    if r.Ok? then (sh.(route := Some(r.value)), true) else (sh, false)
  }

  function WithCommand(sh: Shared, r: Result<C.Command, C.CommandError>): (Shared, bool) {
    if r.Ok? then (sh.(command := Some(r.value)), true) else (sh, false)
  }

  /** One transaction: the state it commits, and whether its guard held. */
  function Exec(sh: Shared, t: Txn): (Shared, bool)
  {
    match t
    case ClaimTxn(req, proposed) =>
      var r := C.ClaimCommand(sh.command, ClaimRequestOf(req, proposed), sh.nextToken);
      if r.Ok? then (sh.(command := Some(r.value.0), nextToken := sh.nextToken + 1), true) else (sh, false)
    case ReopenTxn(expected) => (sh.(command := C.ReopenNotDispatched(sh.command, expected)), true)
    case ReserveTxn(req, taskId) => WithRow(sh, Reserve(sh, req, taskId))
    case MarkRouteTxn => WithRow(sh, R.MarkCreateEffectStarted(sh.route))
    case RestoreTxn => WithRow(sh, R.RestoreCreateNotDispatched(sh.route))
    case TransitionTxn(state, upstream, error) => WithRow(sh, R.TransitionRoute(sh.route, state, upstream, error))
    case SaveTxn(copy) => WithRow(sh, R.SaveRoute(sh.route, copy))
    case MarkCommandTxn(token, safe) => WithCommand(sh, C.MarkEffectStarted(sh.command, token, safe))
    case CompleteTxn(token, response) => WithCommand(sh, C.CompleteCommand(sh.command, token, response))
    case FailTxn(token, failure) => WithCommand(sh, C.FailCommand(sh.command, token, failure))
    case ReleaseTxn(token) => (sh.(command := C.ReleaseCommand(sh.command, token)), true)
    case ReleaseUndispatchedTxn(token) => WithCommand(sh, C.ReleaseNotDispatched(sh.command, token))
  }

  // ----- program counters

  /** Who called `reconcile_pending_create`, and so what happens with its answer. */
  datatype After =
    | Resume(w: Work)        // `_reserve`
    | Cleanup(w: Work)       // `_cleanup_interrupted`, shielded
    | TerminalError          // `_terminal_error`
    | Settle(w: Work)        // `_settle_unsafe_create_interruption`, shielded
    | Reader(saving: bool)   // `get_route` or `list_routes`, maybe ahead of a `save_route`

  datatype Pc =
    | Idle(at: IdlePc)                                // holds no command
    | Working(w: Work, work: WorkPc)                  // owns the command and its create effect
    | Checking(copy: R.Route, after: After, check: CheckPc)  // inside `reconcile_pending_create`
    | Closing(w: Work, close: ClosePc)                // `_execute`'s shielded cleanup

  datatype IdlePc =
    | Claiming(req: Request, proposed: string, retried: bool)
    | ReopenRoute(req: Request, taskId: string, error: C.GatewayError)
    | ReopenEvidence(req: Request, taskId: string, error: C.GatewayError, pendingRead: bool)
    | Reopening(req: Request, taskId: string, error: C.GatewayError)
    | TerminalRead
    | ReaderGet(saving: bool)
    | Saving(copy: R.Route)
    | Done

  datatype WorkPc =
    | Preparing
    | Reserving
    | ReadEvidence(copy: R.Route)
    | CommandMarking(copy: R.Route)
    | RouteMarking(copy: R.Route)
    | Spawning(copy: R.Route)
    | Sent(copy: R.Route, taken: bool)
    | Restoring
    | FailRoute(copy: R.Route, target: R.RouteState, upstream: Option<string>)
    | Activating(copy: R.Route, bound: string)
    | Reading
    | Completing

  datatype CheckPc =
    | Reconcile(live: bool)
    | ReadRecord(live: bool, reserved: bool)
    | SettleRoute(target: R.RouteState, upstream: Option<string>)
    | Reread
    | MarkUncertain

  datatype ClosePc =
    | Releasing
    | ReleasingUndispatched
    | FailingCommand(failure: C.GatewayError)
    | SettleReadRoute
    | SettleReadEvidence(pendingRead: bool)
    | SettleGet

  /** What the environment decides about the next step of a process. */
  datatype Act =
    | Go
    | Refuse                                                 // a validation or read error without a create verdict
    | Cancel                                                 // the request is cancelled at this await
    | RejectBeforeSend                                       // authoritative rejection, nothing sent
    | NotDispatched                                          // the transport proves nothing was sent
    | LoseBeforeSend                                         // an error of unknown outcome, nothing sent in fact
    | Dispatch(taken: bool)                                  // the effect leaves; does the other side take it?
    | Respond(upstream: Option<string>, durable: bool)       // a success answer
    | RespondRejected                                        // 4xx; for a local create, a ValueError at any moment
    | LoseResponse                                           // timeout, 5xx, malformed answer

  function TerminalFailure(code: string, w: Work, outcome: string): C.GatewayError {
    C.GatewayError(code, w.taskId, Some(false), outcome)
  }

  /** `_execute`'s handler for anything that is not a `GatewayTaskError`. */
  function Interrupted(w: Work): Pc {
    Closing(w, if !CommandReplaySafe(w.req) && w.marked then SettleReadRoute else Releasing)
  }

  function FailingWith(w: Work, code: string, outcome: string): Pc {
    Closing(w, FailingCommand(TerminalFailure(code, w, outcome)))
  }

  /** `run`, once `_reserve` has a route in hand. */
  function Decide(w: Work, route: R.Route): Pc
  {
    match route.state
    case Active => Working(w, Reading)
    case Failed => FailingWith(w, "task_creation_not_retryable", "not_started")
    case Uncertain => FailingWith(w, "task_creation_not_retryable", "uncertain")
    case Pending => Working(w.(marked := true), CommandMarking(route))
  }

  function Reconciled(after: After, route: R.Route): Pc
  {
    match after
    case Resume(w) => Decide(w, route)
    case Cleanup(w) => Interrupted(w)
    case TerminalError => if route.state == R.Pending then Checking(route, after, MarkUncertain) else Idle(Done)
    case Settle(w) =>
      if route.state == R.Pending then Checking(route, after, MarkUncertain)
      else Closing(w, FailingCommand(C.UncertainOutcome(w.taskId)))
    case Reader(saving) =>
      Idle(if saving && route.state == R.Active && route.kind == R.Local then Saving(route) else Done)
  }

  function MarkedUncertain(after: After): Pc {
    if after.Settle? then Closing(after.w, FailingCommand(C.UncertainOutcome(after.w.taskId))) else Idle(Done)
  }

  /** The outcome-unknown branch of `recover_create_effect_error`. */
  function UnknownOutcome(w: Work, copy: R.Route): Pc {
    if RemoteReplaySafe(w.req) then Closing(w, Releasing) else Working(w, FailRoute(copy, R.Uncertain, copy.upstream))
  }

  function ResponseFor(w: Work): string {
    "TaskResponse:" + w.taskId
  }

  predicate Shielded(after: After) {
    after.Cleanup? || after.Settle?
  }

  function Abandoned(after: After): Pc {
    if after.Resume? then Interrupted(after.w) else Idle(Done)
  }

  // ----- one step of one process

  /** What a step does to the shared state: at most one transaction or one message. */
  datatype Change =
    | Nothing
    | Commit(t: Txn)
    | SendOut(taken: bool)
    | LeaveBehind(t: Txn)  // cancelled while the transaction was on its way; it may still commit

  datatype Move = Move(change: Change, pc: Pc)

  function Quiet(pc: Pc): Option<Move> {
    Some(Move(Nothing, pc))
  }

  function Committing(t: Txn, pc: Pc): Option<Move> {
    Some(Move(Commit(t), pc))
  }

  function Leaving(t: Txn, pc: Pc): Option<Move> {
    Some(Move(LeaveBehind(t), pc))
  }

  /** The two separate reads behind `create_not_dispatched_is_durable`. */
  predicate ReadsPending(sh: Shared, req: Request) {
    sh.route.Some? && sh.route.value.route.agent == req.agent && sh.route.value.route.state == R.Pending
  }

  predicate ReadsReserved(sh: Shared) {
    sh.route.Some? && sh.route.value.evidence.boundary == R.Reserved
  }

  /** `get_route`: read the row, then reconcile it for `after`. */
  function ReadRoute(sh: Shared, after: After, missing: Pc): Pc {
    if sh.route.Some? then Checking(sh.route.value.route, after, Reconcile(false)) else missing
  }

  function ClaimAnswer(sh: Shared, req: Request, proposed: string, retried: bool): Pc
  {
    var r := C.ClaimCommand(sh.command, ClaimRequestOf(req, proposed), sh.nextToken);
    if r.Err? then Idle(Done)
    else match r.value.1
      case Acquired(taskId, token) => Working(Work(req, taskId, token, false), Preparing)
      case Busy(_) => Idle(Claiming(req, proposed, retried))
      case Replay(_, _) => Idle(ReaderGet(false))
      case Terminal(taskId, error) => Idle(if retried then TerminalRead else ReopenRoute(req, taskId, error))
  }

  function StepIdle(sh: Shared, at: IdlePc, act: Act): Option<Move>
  {
    if act == Go then
      match at
      case Claiming(req, proposed, retried) =>
        Committing(ClaimTxn(req, proposed), ClaimAnswer(sh, req, proposed, retried))
      case ReopenRoute(req, taskId, error) => Quiet(Idle(ReopenEvidence(req, taskId, error, ReadsPending(sh, req))))
      case ReopenEvidence(req, taskId, error, pendingRead) =>
        Quiet(Idle(if pendingRead && ReadsReserved(sh) then Reopening(req, taskId, error) else Claiming(req, taskId, true)))
      case Reopening(req, taskId, error) => Committing(ReopenTxn(error), Idle(Claiming(req, taskId, true)))
      case TerminalRead => Quiet(ReadRoute(sh, TerminalError, Idle(Done)))
      case ReaderGet(saving) => Quiet(ReadRoute(sh, Reader(saving), Idle(Done)))
      case Saving(copy) => Committing(SaveTxn(copy), Idle(Done))
      case Done => None
    else if act == Cancel then
      match at
      case Claiming(req, proposed, _) => Leaving(ClaimTxn(req, proposed), Idle(Done))
      case Reopening(_, _, error) => Leaving(ReopenTxn(error), Idle(Done))
      case Saving(copy) => Leaving(SaveTxn(copy), Idle(Done))
      case _ => Quiet(Idle(Done))
    else if act == Refuse && at.Claiming? then Quiet(Idle(Done))  // the wait for a busy command timed out
    else None
  }

  /** Where `reconcile_pending_create` goes after reading the evidence. */
  function Classify(sh: Shared, copy: R.Route, live: bool, after: After): Pc
  {
    if copy.state != R.Pending && !(copy.kind == R.Local && copy.state == R.Active) then Reconciled(after, copy)
    else if copy.kind == R.Local then Checking(copy, after, ReadRecord(live, ReadsReserved(sh)))
    else if sh.route.Some? && (ReadsReserved(sh) || sh.route.value.evidence.PermitsRemoteReplay()) then
      Reconciled(after, copy)
    else Checking(copy, after, SettleRoute(R.Uncertain, copy.upstream))
  }

  /** Its local half, after reading whether the Task has a durable run. */
  function ClassifyLocal(sh: Shared, copy: R.Route, live: bool, reserved: bool, after: After): Pc
  {
    if copy.state == R.Active && sh.run then Reconciled(after, copy)
    else if sh.run then Checking(copy, after, SettleRoute(R.Active, Some(copy.taskId)))
    else Checking(copy, after, SettleRoute(if live || reserved then R.Failed else R.Uncertain, copy.upstream))
  }

  function SettleTxn(target: R.RouteState, upstream: Option<string>): Txn {
    TransitionTxn(target, upstream,
                  match target
                  case Failed => Some("Gateway Task creation did not start")
                  case Uncertain => Some("Gateway Task creation was interrupted")
                  case _ => None)
  }

  function Settled(sh: Shared, copy: R.Route, after: After, t: Txn): Pc
    requires t.TransitionTxn?
  {
    var r := R.TransitionRoute(sh.route, t.state, t.upstream, t.error);
    if r.Ok? then Reconciled(after, r.value.route) else Checking(copy, after, Reread)
  }

  function StepCheck(sh: Shared, copy: R.Route, after: After, check: CheckPc, act: Act): Option<Move>
  {
    if act == Go then
      match check
      case Reconcile(live) => Quiet(Classify(sh, copy, live, after))
      case ReadRecord(live, reserved) => Quiet(ClassifyLocal(sh, copy, live, reserved, after))
      case SettleRoute(target, upstream) =>
        Committing(SettleTxn(target, upstream), Settled(sh, copy, after, SettleTxn(target, upstream)))
      case Reread => Quiet(Reconciled(after, if sh.route.Some? then sh.route.value.route else copy))
      case MarkUncertain => Committing(SettleTxn(R.Uncertain, copy.upstream), MarkedUncertain(after))
    else if act == Cancel && !Shielded(after) then
      match check
      case SettleRoute(target, upstream) => Leaving(SettleTxn(target, upstream), Abandoned(after))
      case MarkUncertain => Leaving(SettleTxn(R.Uncertain, copy.upstream), Abandoned(after))
      case _ => Quiet(Abandoned(after))
    else None
  }

  /** Up to the route copy: reservation and its evidence. */
  function StepReserve(sh: Shared, w: Work, at: WorkPc, act: Act): Option<Move>
    requires at.Preparing? || at.Reserving? || at.ReadEvidence?
  {
    if act == Go then
      match at
      case Preparing => Quiet(Working(w, Reserving))
      case Reserving =>
        var r := Reserve(sh, w.req, w.taskId);
        Committing(ReserveTxn(w.req, w.taskId),
                   if r.Ok? then Working(w, ReadEvidence(r.value.route)) else Closing(w, Releasing))
      case ReadEvidence(copy) =>
        Quiet(if ReadsReserved(sh) then Decide(w, copy) else Checking(copy, Resume(w), Reconcile(false)))
    else if act == Cancel then
      if at.Reserving? then Leaving(ReserveTxn(w.req, w.taskId), Interrupted(w)) else Quiet(Interrupted(w))
    else if act == Refuse && at.Preparing? then Quiet(Closing(w, Releasing))
    else None
  }

  /** The two boundary marks: command ledger first, then route ledger. */
  function StepMark(sh: Shared, w: Work, at: WorkPc, act: Act): Option<Move>
    requires at.CommandMarking? || at.RouteMarking?
  {
    var t := if at.CommandMarking? then MarkCommandTxn(w.token, CommandReplaySafe(w.req)) else MarkRouteTxn;
    if act == Go then
      Committing(t, Working(w,
                            if !Exec(sh, t).1 then FailRoute(at.copy, R.Failed, at.copy.upstream)
                            else if at.CommandMarking? then RouteMarking(at.copy)
                            else Spawning(at.copy)))
    else if act == Cancel then Leaving(t, Checking(at.copy, Cleanup(w), Reconcile(true)))
    else None
  }

  function StepSpawn(w: Work, copy: R.Route, act: Act): Option<Move>
  {
    match act
    case Cancel => Quiet(Checking(copy, Cleanup(w), Reconcile(true)))
    case RejectBeforeSend => Quiet(Working(w, FailRoute(copy, R.Failed, copy.upstream)))
    case NotDispatched => if w.req.kind == R.RemoteRef then Quiet(Working(w, Restoring)) else None
    case LoseBeforeSend => Quiet(UnknownOutcome(w, copy))
    case Dispatch(taken) => Some(Move(SendOut(taken), Working(w, Sent(copy, taken))))
    case _ => None
  }

  function StepAnswer(sh: Shared, w: Work, copy: R.Route, taken: bool, act: Act): Option<Move>
  {
    match act
    case Cancel => Quiet(Checking(copy, Cleanup(w), Reconcile(true)))
    case Respond(upstream, durable) =>
      if !taken || (w.req.kind == R.Local && durable && !sh.run) then None
      else if w.req.kind == R.RemoteRef && R.Truthy(upstream) then Quiet(Working(w, Activating(copy, upstream.value)))
      else if w.req.kind == R.Local && durable then Quiet(Working(w, Activating(copy, w.taskId)))
      else Quiet(Working(w, FailRoute(copy, R.Uncertain, copy.upstream)))
    case RespondRejected => if taken && w.req.kind == R.RemoteRef then None else Quiet(Working(w, FailRoute(copy, R.Failed, copy.upstream)))
    case LoseResponse => Quiet(UnknownOutcome(w, copy))
    case _ => None
  }

  function FailureTxn(target: R.RouteState, upstream: Option<string>): Txn {
    TransitionTxn(target, upstream, Some("Gateway Task creation failed"))
  }

  function ActivateTxn(bound: string): Txn {
    TransitionTxn(R.Active, Some(bound), None)
  }

  function StepOutcome(sh: Shared, w: Work, at: WorkPc, act: Act): Option<Move>
    requires at.Restoring? || at.FailRoute? || at.Activating? || at.Reading? || at.Completing?
  {
    if act == Go then
      match at
      case Restoring =>
        Committing(RestoreTxn,
                   if Exec(sh, RestoreTxn).1 then Closing(w, ReleasingUndispatched)
                   else FailingWith(w, "route_persistence_failed", "not_started"))
      case FailRoute(_, target, upstream) =>
        Committing(FailureTxn(target, upstream),
                   FailingWith(w, "task_creation_failed", if target == R.Failed then "not_started" else "uncertain"))
      case Activating(copy, bound) =>
        Committing(ActivateTxn(bound),
                   Working(w, if Exec(sh, ActivateTxn(bound)).1 then Completing
                           else FailRoute(copy, R.Uncertain, Some(bound))))
      case Reading => Quiet(Working(w, Completing))
      case Completing =>
        var t := CompleteTxn(w.token, ResponseFor(w));
        Committing(t, if Exec(sh, t).1 then Idle(Done) else Interrupted(w))
    else if act == Cancel then
      match at
      case Restoring => Committing(RestoreTxn, Interrupted(w))  // shielded: it commits, then the request ends
      case FailRoute(_, target, upstream) => Leaving(FailureTxn(target, upstream), Interrupted(w))
      case Activating(_, bound) => Leaving(ActivateTxn(bound), Interrupted(w))
      case Completing => Leaving(CompleteTxn(w.token, ResponseFor(w)), Interrupted(w))
      case Reading => Quiet(Interrupted(w))
    else if act == Refuse && at.Reading? then Quiet(Closing(w, Releasing))
    else None
  }

  function StepWork(sh: Shared, w: Work, at: WorkPc, act: Act): Option<Move>
  {
    if at.Preparing? || at.Reserving? || at.ReadEvidence? then StepReserve(sh, w, at, act)
    else if at.CommandMarking? || at.RouteMarking? then StepMark(sh, w, at, act)
    else if at.Spawning? then StepSpawn(w, at.copy, act)
    else if at.Sent? then StepAnswer(sh, w, at.copy, at.taken, act)
    else StepOutcome(sh, w, at, act)
  }

  function StepClose(sh: Shared, w: Work, at: ClosePc, act: Act): Option<Move>
  {
    if act != Go then None  // shielded
    else match at
      case Releasing => Committing(ReleaseTxn(w.token), Idle(Done))
      case ReleasingUndispatched => Committing(ReleaseUndispatchedTxn(w.token), Idle(Done))
      case FailingCommand(failure) => Committing(FailTxn(w.token, failure), Idle(Done))
      case SettleReadRoute => Quiet(Closing(w, SettleReadEvidence(ReadsPending(sh, w.req))))
      case SettleReadEvidence(pendingRead) =>
        Quiet(Closing(w, if pendingRead && ReadsReserved(sh) then ReleasingUndispatched else SettleGet))
      case SettleGet =>
        Quiet(ReadRoute(sh, Settle(w), Closing(w, FailingCommand(C.UncertainOutcome(w.taskId)))))
  }

  function Step(sh: Shared, pc: Pc, act: Act): Option<Move>
  {
    match pc
    case Idle(at) => StepIdle(sh, at, act)
    case Working(w, at) => StepWork(sh, w, at, act)
    case Checking(copy, after, check) => StepCheck(sh, copy, after, check, act)
    case Closing(w, at) => StepClose(sh, w, at, act)
  }

  function Do(sh: Shared, change: Change): Shared
  {
    match change
    case Nothing => sh
    case Commit(t) => Exec(sh, t).0
    case SendOut(taken) => sh.(sends := sh.sends + 1, accepted := sh.accepted + if taken then 1 else 0)
    case LeaveBehind(t) => Leave(sh, t)
  }

  /** Bookkeeping for a call that stays behind. */
  function Leave(sh: Shared, t: Txn): Shared
  {
    match t
    case CompleteTxn(token, _) => sh.(retired := sh.retired + {token})
    case TransitionTxn(state, _, _) => if state == R.Failed then sh.(doomed := true) else sh
    case _ => sh
  }

  // ----- the slot: all processes working on one key, and crashes

  datatype Phase = Up | Down | RoutesSwept

  datatype Slot = Slot(phase: Phase, sh: Shared, procs: map<nat, Pc>, left: set<Txn>)

  datatype Event =
    | Begin(p: nat, pc: Pc)          // a new request or reader
    | Run(p: nat, act: Act)          // one step of a process
    | Background(t: Txn)             // a call left behind by a cancelled request commits
    | RunBecomesDurable              // the spawned local run reaches the Task store
    | Crash                          // at any moment, even between the sweeps
    | SweepRoutes                    // opening the route store
    | SweepCommands                  // opening the command store

  predicate Entry(pc: Pc) {
    pc.Idle? && (pc.at.ReaderGet? || (pc.at.Claiming? && !pc.at.retried && pc.at.proposed != ""))
  }

  function Apply(s: Slot, e: Event): Option<Slot>
  {
    match e
    case Begin(p, pc) =>
      if s.phase == Up && p !in s.procs && Entry(pc) then Some(s.(procs := s.procs[p := pc])) else None
    case Run(p, act) =>
      if s.phase != Up || p !in s.procs then None
      else (match Step(s.sh, s.procs[p], act)
            case None => None
            case Some(m) =>
              Some(s.(sh := Do(s.sh, m.change),
                      procs := s.procs[p := m.pc],
                      left := if m.change.LeaveBehind? then s.left + {m.change.t} else s.left)))
    case Background(t) =>
      if s.phase == Up && t in s.left then Some(s.(sh := Exec(s.sh, t).0, left := s.left - {t})) else None
    case RunBecomesDurable =>
      if s.sh.sends > 0 && s.sh.route.Some? && s.sh.route.value.route.kind == R.Local then Some(s.(sh := s.sh.(run := true)))
      else None
    case Crash => Some(Slot(Down, s.sh.(doomed := false), map[], {}))
    case SweepRoutes =>
      if s.phase == Down then Some(s.(phase := RoutesSwept, sh := SweepRoute(s.sh))) else None
    case SweepCommands =>
      if s.phase == RoutesSwept then Some(s.(phase := Up, sh := SweepCommand(s.sh))) else None
  }

  function SweepRoute(sh: Shared): Shared {
    if sh.route.Some? then sh.(route := Some(R.RecoverRow(sh.route.value))) else sh
  }

  function SweepCommand(sh: Shared): Shared {
    if sh.command.Some? then sh.(command := Some(C.RecoverCommand(sh.command.value))) else sh
  }

  /** A key nobody has used yet. */
  const FreshSlot := Slot(Up, Shared(None, None, false, 0, 0, 0, {}, false), map[], {})

  /** `Replay(events)` is the slot after a run, or None when some event was not enabled. */
  function Replay(s: Slot, events: seq<Event>): Option<Slot>
    decreases |events|
  {
    if events == [] then Some(s)
    else
      match Apply(s, events[0])
      case None => None
      case Some(s') => Replay(s', events[1..])
  }
}
