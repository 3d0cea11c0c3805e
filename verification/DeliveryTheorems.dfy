/**
 What holds in every run of the delivery machine: delivered means presented
 and recorded, recorded means sent, and only a fenced-out sender can repeat.
 */
module DeliveryTheorems {
  import opened Common
  import opened DeliveryLedger
  import opened DeliveryProtocol

  /** The first n steps of the job are recorded. */
  predicate Recorded(steps: set<Step>, job: Job, n: nat) {
    n <= |JobSteps(job)| && forall k :: 0 <= k < n ==> JobSteps(job)[k] in steps
  }

  predicate JobOk(job: Job, run: nat) {
    job.TerminalJob? ==> job.snap.run == run && job.snap.terminal && job.snap.review.None?
  }

  /** About to send, or sending, step i: unrecorded as long as the lease was not taken over. */
  predicate PendingOk(l: Ledger, token: Token, job: Job, i: nat) {
    Recorded(l.steps, job, i) && i < |JobSteps(job)|
    && (l.row.token == Some(token) ==> JobSteps(job)[i] !in l.steps)
  }

  predicate StageOk(l: Ledger, completed: set<Step>, token: Token, job: Job, stage: Stage) {
    match stage
    case Start => true
    case Check(i) => Recorded(l.steps, job, i)
    case Launch(i) => PendingOk(l, token, job, i)
    case Send(i) => PendingOk(l, token, job, i)
    case Confirm(i) => Recorded(l.steps, job, i) && i < |JobSteps(job)| && JobSteps(job)[i] in completed
    case Record(i) => Recorded(l.steps, job, i) && i < |JobSteps(job)| && JobSteps(job)[i] in completed
    case Finish => Recorded(l.steps, job, |JobSteps(job)|)
  }

  predicate WatcherOk(l: Ledger, completed: set<Step>, issued: nat, token: Token, w: Watcher) {
    token < issued
    && (w.pc.Work? ==> JobOk(w.pc.job, l.row.run) && StageOk(l, completed, token, w.pc.job, w.pc.stage)
                       && (w.pc.job.TerminalJob? ==> w.pc.job.hook == w.hook))
    && (l.row.token == Some(token) && Final(l.row.state) ==> w.pc == Stopping)
  }

  /** A finished presentation: a terminal snapshot of this run with every step recorded. */
  predicate Presented(l: Ledger, job: Option<Job>) {
    job.Some? && job.value.TerminalJob? && JobOk(job.value, l.row.run)
    && Recorded(l.steps, job.value, |JobSteps(job.value)|)
  }

  predicate SendingOk(s: Sending) {
    s.recorded || s.over ==> !s.current
  }

  predicate LedgerOk(w: World) {
    w.l.steps <= w.completed
    && (w.l.row.token.Some? ==> w.l.row.token.value < w.issued)
    && (w.l.row.state == TerminalGrace || w.l.row.state == Delivered ==> Presented(w.l, w.presented))
  }

  ghost predicate WorldOk(w: World) {
    LedgerOk(w)
    && (forall t :: t in w.watchers ==> WatcherOk(w.l, w.completed, w.issued, t, w.watchers[t]))
    && (forall i :: 0 <= i < |w.log| ==> SendingOk(w.log[i]))
  }

  // ----- other watches are not disturbed

  /** What a transaction of someone else may do, seen by the watch that drew `token`. */
  predicate Rely(a: Ledger, b: Ledger, token: Token) {
    a.row.run == b.row.run && a.steps <= b.steps
    && (b.row.token == Some(token) ==>
          a.row.token == Some(token) && a.steps == b.steps && (Final(b.row.state) ==> Final(a.row.state)))
  }

  ghost predicate RelyOthers(a: Ledger, b: Ledger, token: Token) {
    a.row.run == b.row.run && a.steps <= b.steps && forall u: Token | u != token :: Rely(a, b, u)
  }

  lemma OpRelyOthers(l: Ledger, op: Op, now: real, token: Token)
    requires !op.ReleaseOwner? && op.token == token
    ensures RelyOthers(l, Apply(l, op, now), token)
  {
    OpEvolves(l, op, now);
    forall u: Token | u != token ensures Rely(l, Apply(l, op, now), u) {
      OpRely(l, op, now, u);
    }
  }

  lemma OpRely(l: Ledger, op: Op, now: real, token: Token)
    requires op.ReleaseOwner? || op.token != token
    ensures Rely(l, Apply(l, op, now), token)
  {
    var _ := Updated(l.row, op, now);
  }

  lemma RelyKeepsWatcher(a: Ledger, b: Ledger, completed: set<Step>, later: set<Step>, issued: nat, more: nat, token: Token, w: Watcher)
    requires WatcherOk(a, completed, issued, token, w)
    requires Rely(a, b, token) && completed <= later && issued <= more
    ensures WatcherOk(b, later, more, token, w)
  {
    if w.pc.Work? {
      RelyKeepsStage(a, b, completed, later, token, w.pc.job, w.pc.stage);
    }
  }

  lemma RelyKeepsStage(a: Ledger, b: Ledger, completed: set<Step>, later: set<Step>, token: Token, job: Job, stage: Stage)
    requires StageOk(a, completed, token, job, stage)
    requires Rely(a, b, token) && completed <= later
    ensures StageOk(b, later, token, job, stage)
  {
  }

  // ----- one step of one watch

  /** Everything one watch's own step must establish. */
  ghost predicate TurnOk(l: Ledger, completed: set<Step>, issued: nat, presented: Option<Job>, token: Token, t: Turn) {
    var later := completed + (if t.completed.Some? then {t.completed.value} else {});
    var shown := if t.finished.Some? && t.finished.value.TerminalJob? then t.finished else presented;
    t.l.steps <= later
    && RelyOthers(l, t.l, token)
    && (t.l.row.state == TerminalGrace || t.l.row.state == Delivered ==> Presented(t.l, shown))
    && (t.w.Some? ==> WatcherOk(t.l, later, issued, token, t.w.value))
    && (t.launched.Some? ==> (t.launched.value in l.steps || Final(l.row.state) ==> l.row.token != Some(token)))
  }

  ghost predicate Ready(l: Ledger, completed: set<Step>, issued: nat, presented: Option<Job>, token: Token, w: Watcher) {
    l.steps <= completed
    && (l.row.state == TerminalGrace || l.row.state == Delivered ==> Presented(l, presented))
    && WatcherOk(l, completed, issued, token, w)
  }

  /** A watch outside its work, on a live row: nothing to keep. */
  lemma IdleOk(l: Ledger, completed: set<Step>, issued: nat, token: Token, w: Watcher)
    requires token < issued && !w.pc.Work?
    requires l.row.token == Some(token) && Final(l.row.state) ==> w.pc == Stopping
    ensures WatcherOk(l, completed, issued, token, w)
  {
  }

  lemma TroubleIsIdle(cfg: Config, w: Watcher, m: Move)
    ensures DeliveryFailed(cfg, w, m).pc.InTrouble?
  {
  }

  lemma PresentedKept(l: Ledger, op: Op, now: real, presented: Option<Job>)
    requires l.row.state == TerminalGrace || l.row.state == Delivered ==> Presented(l, presented)
    requires !op.MarkTerminalStepsDone?
    ensures var b := Apply(l, op, now);
            b.row.state == TerminalGrace || b.row.state == Delivered ==> Presented(b, presented)
  {
    var b := Apply(l, op, now);
    OpEvolves(l, op, now);
    if b.row.state == TerminalGrace || b.row.state == Delivered {
      assert l.row.state == TerminalGrace || l.row.state == Delivered by {
        var _ := Updated(l.row, op, now);
      }
    }
  }

  lemma LostLeaseIdle(cfg: Config, l: Ledger, completed: set<Step>, issued: nat, token: Token, w: Watcher, m: Move)
    requires token < issued
    requires l.row.token == Some(token) ==> !Final(l.row.state)
    ensures WatcherOk(l, completed, issued, token, DeliveryFailed(cfg, w, m))
  {
    TroubleIsIdle(cfg, w, m);
  }

  /** One fenced update that neither records a step nor finishes a presentation. */
  lemma FencedOk(l: Ledger, completed: set<Step>, issued: nat, presented: Option<Job>, token: Token, w: Watcher, op: Op, m: Move, ok: Watcher, lost: Watcher)
    requires Ready(l, completed, issued, presented, token, w) && ByToken(op, token)
    requires !op.MarkStep? && !op.MarkTerminalStepsDone?
    requires Applies(l.row, op, m.now) ==> WatcherOk(Apply(l, op, m.now), completed, issued, token, ok)
    requires !Applies(l.row, op, m.now) ==> WatcherOk(l, completed, issued, token, lost)
    ensures TurnOk(l, completed, issued, presented, token, Fenced(l, op, m, ok, lost))
  {
    OpRelyOthers(l, op, m.now, token);
    PresentedKept(l, op, m.now, presented);
    assert Apply(l, op, m.now).steps == l.steps;
  }

  lemma TroubleTurn(cfg: Config, l: Ledger, completed: set<Step>, issued: nat, presented: Option<Job>, token: Token, w: Watcher, m: Move)
    requires Ready(l, completed, issued, presented, token, w) && w.pc.InTrouble?
    ensures TurnOk(l, completed, issued, presented, token, TroubleStep(cfg, token, l, w, w.pc.trouble, m))
  {
    match w.pc.trouble
    case Retry(attempt, delay) =>
      FencedOk(l, completed, issued, presented, token, w, MarkRetry(token, attempt, delay, "error"), m, w.(pc := InTrouble(Extend(delay))), Failing(w, None));
    case Extend(delay) =>
      FencedOk(l, completed, issued, presented, token, w, Renew(token, MaxReal(cfg.lease, delay + 1.0)), m, w.(pc := Query), Failing(w, None));
    case Exhaust(auto) =>
    case Fail(redrive) =>
      FencedOk(l, completed, issued, presented, token, w, MarkError(token, "error", redrive), m, w.(pc := Stopping), w.(pc := Stopping));
  }

  lemma PlainTurn(cfg: Config, l: Ledger, completed: set<Step>, issued: nat, presented: Option<Job>, token: Token, w: Watcher, m: Move)
    requires Ready(l, completed, issued, presented, token, w) && !w.pc.Work? && !w.pc.InTrouble?
    ensures TurnOk(l, completed, issued, presented, token, TakeStep(cfg, token, l, w, m))
  {
    var lost := DeliveryFailed(cfg, w, m);
    TroubleIsIdle(cfg, w, m);
    match w.pc
    case Query =>
    case Observed(snap, renewed) =>
      if renewed {
        FencedOk(l, completed, issued, presented, token, w, MarkWatching(token), m, Decide(l.row.run, w, snap), lost);
      } else {
        FencedOk(l, completed, issued, presented, token, w, Renew(token, cfg.lease), m, w.(pc := Observed(snap, true)), lost);
      }
    case Superseding =>
      FencedOk(l, completed, issued, presented, token, w, MarkSuperseded(token), m, w.(pc := Stopping), lost);
    case Completing =>
      FencedOk(l, completed, issued, presented, token, w, MarkDelivered(token), m, w.(pc := Stopping), lost);
    case Stopping =>
      PresentedKept(l, Release(token), m.now, presented);
      OpRelyOthers(l, Release(token), m.now, token);
  }

  lemma RecordTurn(cfg: Config, l: Ledger, completed: set<Step>, issued: nat, presented: Option<Job>, token: Token, w: Watcher, i: nat, m: Move)
    requires Ready(l, completed, issued, presented, token, w) && w.pc.Work? && w.pc.stage == Record(i)
    ensures TurnOk(l, completed, issued, presented, token, WorkStep(cfg, token, l, w, w.pc.job, w.pc.stage, m))
  {
    var job := w.pc.job;
    var op := MarkStep(token, JobSteps(job)[i]);
    var b := Apply(l, op, m.now);
    LostLeaseIdle(cfg, l, completed, issued, token, w, m);
    PresentedKept(l, op, m.now, presented);
    OpRelyOthers(l, op, m.now, token);
    if Applies(l.row, op, m.now) {
      assert Recorded(b.steps, job, i + 1);
      assert WatcherOk(b, completed, issued, token, w.(pc := Work(job, Check(i + 1))));
    }
  }

  lemma FinishTurn(cfg: Config, l: Ledger, completed: set<Step>, issued: nat, presented: Option<Job>, token: Token, w: Watcher, m: Move)
    requires Ready(l, completed, issued, presented, token, w) && w.pc.Work? && w.pc.stage == Finish
    ensures TurnOk(l, completed, issued, presented, token, WorkStep(cfg, token, l, w, w.pc.job, w.pc.stage, m))
  {
    var job := w.pc.job;
    LostLeaseIdle(cfg, l, completed, issued, token, w, m);
    if job.ReviewJob? {
      FencedOk(l, completed, issued, presented, token, w, MarkReviewWaiting(token), m, AfterFinish(w, job), DeliveryFailed(cfg, w, m));
    } else {
      var op := MarkTerminalStepsDone(token);
      OpRelyOthers(l, op, m.now, token);
      if Applies(l.row, op, m.now) {
        var b := Apply(l, op, m.now);
        assert Presented(b, Some(job));
        assert !AfterFinish(w, job).pc.Work?;
      }
    }
  }

  lemma StartTurn(cfg: Config, l: Ledger, completed: set<Step>, issued: nat, presented: Option<Job>, token: Token, w: Watcher, m: Move)
    requires Ready(l, completed, issued, presented, token, w) && w.pc.Work? && w.pc.stage == Start
    ensures TurnOk(l, completed, issued, presented, token, WorkStep(cfg, token, l, w, w.pc.job, w.pc.stage, m))
  {
    var job := w.pc.job;
    var op := if job.ReviewJob? then MarkDelivering(token, Review, Some(job.review)) else MarkDelivering(token, Terminal, None);
    LostLeaseIdle(cfg, l, completed, issued, token, w, m);
    if Applies(l.row, op, m.now) {
      assert WatcherOk(Apply(l, op, m.now), completed, issued, token, w.(pc := Work(job, Check(0))));
    }
    FencedOk(l, completed, issued, presented, token, w, op, m, w.(pc := Work(job, Check(0))), DeliveryFailed(cfg, w, m));
  }

  /** Checking, launching and the effect itself touch no row, except for the heartbeat. */
  lemma SendTurn(cfg: Config, l: Ledger, completed: set<Step>, issued: nat, presented: Option<Job>, token: Token, w: Watcher, m: Move)
    requires Ready(l, completed, issued, presented, token, w) && w.pc.Work?
    requires w.pc.stage.Check? || w.pc.stage.Launch? || (w.pc.stage.Send? && !m.env.Heartbeat?)
    ensures TurnOk(l, completed, issued, presented, token, WorkStep(cfg, token, l, w, w.pc.job, w.pc.stage, m))
  {
    LostLeaseIdle(cfg, l, completed, issued, token, w, m);
    var t := WorkStep(cfg, token, l, w, w.pc.job, w.pc.stage, m);
    var later := completed + (if t.completed.Some? then {t.completed.value} else {});
    assert t.l == l && completed <= later;
    assert WatcherOk(l, later, issued, token, t.w.value);
  }

  lemma RenewTurn(cfg: Config, l: Ledger, completed: set<Step>, issued: nat, presented: Option<Job>, token: Token, w: Watcher, m: Move)
    requires Ready(l, completed, issued, presented, token, w) && w.pc.Work?
    requires w.pc.stage.Confirm? || (w.pc.stage.Send? && m.env.Heartbeat?)
    ensures TurnOk(l, completed, issued, presented, token, WorkStep(cfg, token, l, w, w.pc.job, w.pc.stage, m))
  {
    var op := Renew(token, cfg.lease);
    var next := if w.pc.stage.Send? then w else w.(pc := Work(w.pc.job, Record(w.pc.stage.i)));
    LostLeaseIdle(cfg, l, completed, issued, token, w, m);
    if Applies(l.row, op, m.now) {
      assert WatcherOk(Apply(l, op, m.now), completed, issued, token, next);
    }
    FencedOk(l, completed, issued, presented, token, w, op, m, next, DeliveryFailed(cfg, w, m));
  }

  lemma WatchTurn(cfg: Config, l: Ledger, completed: set<Step>, issued: nat, presented: Option<Job>, token: Token, w: Watcher, m: Move)
    requires Ready(l, completed, issued, presented, token, w)
    ensures TurnOk(l, completed, issued, presented, token, TakeStep(cfg, token, l, w, m))
  {
    if w.pc.InTrouble? {
      TroubleTurn(cfg, l, completed, issued, presented, token, w, m);
    } else if !w.pc.Work? {
      PlainTurn(cfg, l, completed, issued, presented, token, w, m);
    } else if w.pc.stage.Start? {
      StartTurn(cfg, l, completed, issued, presented, token, w, m);
    } else if w.pc.stage.Confirm? || (w.pc.stage.Send? && m.env.Heartbeat?) {
      RenewTurn(cfg, l, completed, issued, presented, token, w, m);
    } else if w.pc.stage.Record? {
      RecordTurn(cfg, l, completed, issued, presented, token, w, w.pc.stage.i, m);
    } else if w.pc.stage.Finish? {
      FinishTurn(cfg, l, completed, issued, presented, token, w, m);
    } else {
      SendTurn(cfg, l, completed, issued, presented, token, w, m);
    }
  }

  // ----- one step of the world

  lemma OthersOk(w: World, b: Ledger, later: set<Step>, more: nat, token: Token)
    requires WorldOk(w) && RelyOthers(w.l, b, token) && w.completed <= later && w.issued <= more
    ensures forall u :: u in w.watchers && u != token ==> WatcherOk(b, later, more, u, w.watchers[u])
  {
    forall u | u in w.watchers && u != token
      ensures WatcherOk(b, later, more, u, w.watchers[u])
    {
      RelyKeepsWatcher(w.l, b, w.completed, later, w.issued, more, u, w.watchers[u]);
    }
  }

  lemma StartKeeps(cfg: Config, w: World, owner: Owner, hook: bool, due: bool, now: real)
    requires WorldOk(w)
    ensures WorldOk(Started(cfg, w, owner, hook, due, now))
  {
    var token := w.issued;
    var op := if due then ClaimDueError(owner, token, cfg.lease) else Claim(owner, token, cfg.lease);
    OpRelyOthers(w.l, op, now, token);
    PresentedKept(w.l, op, now, w.presented);
    if Applies(w.l.row, op, now) {
      OthersOk(w, Apply(w.l, op, now), w.completed, w.issued + 1, token);
    } else {
      OthersOk(w, w.l, w.completed, w.issued + 1, token);
    }
  }

  lemma TakeKeeps(cfg: Config, w: World, token: Token, m: Move)
    requires WorldOk(w) && token in w.watchers
    ensures WorldOk(Took(cfg, w, token, m))
  {
    var me := w.watchers[token];
    WatchTurn(cfg, w.l, w.completed, w.issued, w.presented, token, me, m);
    var t, after := TakeStep(cfg, token, w.l, me, m), Took(cfg, w, token, m);
    OthersOk(w, t.l, after.completed, w.issued, token);
    assert LedgerOk(after) by {
      if t.l.row.token.Some? && t.l.row.token.value != token {
        assert Rely(w.l, t.l, t.l.row.token.value);
      }
    }
  }

  lemma ShutdownKeeps(cfg: Config, w: World, owner: Owner, now: real)
    requires WorldOk(w)
    ensures WorldOk(Next(cfg, w, Shutdown(owner, now)))
  {
    var op := ReleaseOwner(owner);
    var b := Apply(w.l, op, now);
    OpEvolves(w.l, op, now);
    PresentedKept(w.l, op, now, w.presented);
    forall u: Token ensures Rely(w.l, b, u) {
      OpRely(w.l, op, now, u);
    }
    OthersOk(w, b, w.completed, w.issued, w.issued);
  }

  lemma NextKeeps(cfg: Config, w: World, act: Act)
    requires WorldOk(w)
    ensures WorldOk(Next(cfg, w, act))
  {
    match act
    case StartWatch(owner, hook, due, now) => StartKeeps(cfg, w, owner, hook, due, now);
    case Take(token, m) =>
      if token in w.watchers {
        TakeKeeps(cfg, w, token, m);
      }
    case Cancel(token) =>
    case Crash(owner) =>
    case Shutdown(owner, now) => ShutdownKeeps(cfg, w, owner, now);
  }

  lemma {:induction false} RunKeeps(cfg: Config, w: World, acts: seq<Act>)
    requires WorldOk(w)
    ensures WorldOk(DeliveryProtocol.Run(cfg, w, acts))
    decreases |acts|
  {
    if acts != [] {
      NextKeeps(cfg, w, acts[0]);
      RunKeeps(cfg, Next(cfg, w, acts[0]), acts[1..]);
    }
  }

  // ----- every run is a history of ledger transactions

  /** The transaction a watch's step performs, if any. */
  function TurnOp(cfg: Config, token: Token, w: Watcher, m: Move): Option<Op> {
    match w.pc
    case Query => None
    case Observed(_, renewed) => Some(if renewed then MarkWatching(token) else Renew(token, cfg.lease))
    case Superseding => Some(MarkSuperseded(token))
    case Completing => Some(MarkDelivered(token))
    case Stopping => Some(Release(token))
    case Work(job, stage) => WorkOp(cfg, token, job, stage, m)
    case InTrouble(trouble) =>
      match trouble
      case Retry(attempt, delay) => Some(MarkRetry(token, attempt, delay, "error"))
      case Extend(delay) => Some(Renew(token, MaxReal(cfg.lease, delay + 1.0)))
      case Exhaust(_) => None
      case Fail(redrive) => Some(MarkError(token, "error", redrive))
  }

  function WorkOp(cfg: Config, token: Token, job: Job, stage: Stage, m: Move): Option<Op> {
    if stage.Start? then
      Some(if job.ReviewJob? then MarkDelivering(token, Review, Some(job.review)) else MarkDelivering(token, Terminal, None))
    else if stage.Finish? then Some(if job.ReviewJob? then MarkReviewWaiting(token) else MarkTerminalStepsDone(token))
    else if stage.Confirm? then Some(Renew(token, cfg.lease))
    else if stage.Send? && stage.i < |JobSteps(job)| && m.env.Heartbeat? then Some(Renew(token, cfg.lease))
    else if stage.Record? && stage.i < |JobSteps(job)| then Some(MarkStep(token, JobSteps(job)[stage.i]))
    else None
  }

  lemma TurnIsOp(cfg: Config, token: Token, l: Ledger, w: Watcher, m: Move)
    ensures var op := TurnOp(cfg, token, w, m);
            TakeStep(cfg, token, l, w, m).l == (if op.Some? then Apply(l, op.value, m.now) else l)
            && (op.Some? ==> ByToken(op.value, token))
  {
    if w.pc.Work? {
      WorkIsOp(cfg, token, l, w, m);
    }
  }

  lemma WorkIsOp(cfg: Config, token: Token, l: Ledger, w: Watcher, m: Move)
    requires w.pc.Work?
    ensures var op := WorkOp(cfg, token, w.pc.job, w.pc.stage, m);
            WorkStep(cfg, token, l, w, w.pc.job, w.pc.stage, m).l == (if op.Some? then Apply(l, op.value, m.now) else l)
            && (op.Some? ==> ByToken(op.value, token))
  {
  }

  /** The transactions of one step of the world: at most one. */
  function ActOps(cfg: Config, w: World, act: Act): seq<Timed> {
    match act
    case StartWatch(owner, _, due, now) =>
      [Timed(if due then ClaimDueError(owner, w.issued, cfg.lease) else Claim(owner, w.issued, cfg.lease), now)]
    case Take(token, m) =>
      if token !in w.watchers then []
      else
        var op := TurnOp(cfg, token, w.watchers[token], m);
        if op.Some? then [Timed(op.value, m.now)] else []
    case Cancel(_) => []
    case Crash(_) => []
    case Shutdown(owner, now) => [Timed(ReleaseOwner(owner), now)]
  }

  lemma RunOne(l: Ledger, op: Op, now: real)
    ensures DeliveryLedger.Run(l, [Timed(op, now)]) == Apply(l, op, now)
  {
    assert [Timed(op, now)][1..] == [];
  }

  lemma NextIsOps(cfg: Config, w: World, act: Act)
    ensures DeliveryLedger.Run(w.l, ActOps(cfg, w, act)) == Next(cfg, w, act).l
  {
    var ops := ActOps(cfg, w, act);
    if ops != [] {
      RunOne(w.l, ops[0].op, ops[0].now);
    }
    if act.Take? && act.token in w.watchers {
      TurnIsOp(cfg, act.token, w.l, w.watchers[act.token], act.move);
    }
  }

  function RunOps(cfg: Config, w: World, acts: seq<Act>): seq<Timed>
    decreases |acts|
  {
    if acts == [] then [] else ActOps(cfg, w, acts[0]) + RunOps(cfg, Next(cfg, w, acts[0]), acts[1..])
  }

  lemma ClaimsDrawIssued(cfg: Config, w: World, act: Act)
    ensures forall i :: 0 <= i < |ActOps(cfg, w, act)| && IsClaim(ActOps(cfg, w, act)[i].op) ==>
                          ActOps(cfg, w, act)[i].op.token == w.issued && Next(cfg, w, act).issued == w.issued + 1
    ensures w.issued <= Next(cfg, w, act).issued
  {
    if act.Take? && act.token in w.watchers {
      TurnIsOp(cfg, act.token, w.l, w.watchers[act.token], act.move);
    }
  }

  /** The machine is an interleaving of ledger transactions whose claims never reuse a token. */
  lemma {:induction false} RunIsHistory(cfg: Config, w: World, acts: seq<Act>)
    ensures var ops := RunOps(cfg, w, acts);
            DeliveryLedger.Run(w.l, ops) == DeliveryProtocol.Run(cfg, w, acts).l
            && FreshTokens(ops)
            && forall i :: 0 <= i < |ops| && IsClaim(ops[i].op) ==> ops[i].op.token >= w.issued
    decreases |acts|
  {
    if acts != [] {
      var head, after := ActOps(cfg, w, acts[0]), Next(cfg, w, acts[0]);
      var tail := RunOps(cfg, after, acts[1..]);
      RunIsHistory(cfg, after, acts[1..]);
      NextIsOps(cfg, w, acts[0]);
      RunAppend(w.l, head, tail);
      ClaimsDrawIssued(cfg, w, acts[0]);
      FreshAppend(head, tail, w.issued);
    }
  }

  lemma FreshAppend(head: seq<Timed>, tail: seq<Timed>, issued: nat)
    requires |head| <= 1 && FreshTokens(tail)
    requires head != [] && IsClaim(head[0].op) ==>
               head[0].op.token == issued && forall i :: 0 <= i < |tail| && IsClaim(tail[i].op) ==> tail[i].op.token > issued
    ensures FreshTokens(head + tail)
  {
    var all := head + tail;
    forall i, j | 0 <= i < j < |all| && IsClaim(all[i].op) && IsClaim(all[j].op)
      ensures all[i].op.token != all[j].op.token
    {
      assert all[j] == tail[j - |head|];
      if i >= |head| {
        assert all[i] == tail[i - |head|];
      }
    }
  }

  /** Identity, fence, steps and final states over whole runs; the fence counts the claims that succeeded. */
  lemma RunEvolves(cfg: Config, w: World, acts: seq<Act>)
    ensures Evolves(w.l, DeliveryProtocol.Run(cfg, w, acts).l)
    ensures DeliveryProtocol.Run(cfg, w, acts).l.row.fence == w.l.row.fence + |Issued(w.l, RunOps(cfg, w, acts))|
  {
    RunIsHistory(cfg, w, acts);
    HistoryEvolves(w.l, RunOps(cfg, w, acts));
    FenceCountsClaims(w.l, RunOps(cfg, w, acts));
  }

  // ----- main results

  /**
   Over every run of watches, redrives, lease changes, crashes and restarts: a
   delivery is marked delivered only after a terminal snapshot of its run was
   presented with its message, every artifact of that run in the snapshot, and
   the delivered hook when the watch has one, all recorded; and nothing is
   recorded that was not sent to completion.
   */
  lemma DeliveredIsComplete(cfg: Config, run: nat, acts: seq<Act>)
    ensures var w := DeliveryProtocol.Run(cfg, NewWorld(run), acts);
            w.l.steps <= w.completed
            && (w.l.row.state == Delivered ==>
                  w.presented.Some? && w.presented.value.TerminalJob?
                  && var job := w.presented.value;
                     job.snap.run == run && job.snap.terminal
                     && TerminalMessage(run) in w.l.steps
                     && (job.hook ==> DeliveredHook(run) in w.l.steps)
                     && forall k :: 0 <= k < |job.snap.artifacts| && job.snap.artifacts[k].run == run ==>
                                      Artifact(run, job.snap.artifacts[k].artifact) in w.l.steps)
  {
    RunKeeps(cfg, NewWorld(run), acts);
    RunEvolves(cfg, NewWorld(run), acts);
    var w := DeliveryProtocol.Run(cfg, NewWorld(run), acts);
    if w.l.row.state == Delivered {
      var job := w.presented.value;
      var steps, n := JobSteps(job), |ArtifactSteps(run, job.snap.artifacts)|;
      assert steps[0] == TerminalMessage(run);
      assert job.hook ==> steps[|steps| - 1] == DeliveredHook(run);
      forall k | 0 <= k < |job.snap.artifacts| && job.snap.artifacts[k].run == run
        ensures Artifact(run, job.snap.artifacts[k].artifact) in w.l.steps
      {
        var j := ArtifactListed(run, job.snap.artifacts, k);
        assert steps[1 + j] == ArtifactSteps(run, job.snap.artifacts)[j];
      }
    }
  }

  lemma {:induction false} ArtifactListed(run: nat, artifacts: seq<Published>, k: nat) returns (j: nat)
    requires k < |artifacts| && artifacts[k].run == run
    ensures j < |ArtifactSteps(run, artifacts)| && ArtifactSteps(run, artifacts)[j] == Artifact(run, artifacts[k].artifact)
    decreases |artifacts|
  {
    if k == 0 {
      j := 0;
    } else {
      j := ArtifactListed(run, artifacts[1..], k - 1);
      if artifacts[0].run == run {
        j := j + 1;
      }
    }
  }

  /**
   Whoever holds the newest lease never sends a recorded step, nor anything once
   the delivery is over. `DeliveryRepeats` says who else may: no later watch at
   all, and an earlier one only after a check made before the recording.
   */
  lemma RecordedIsNotResent(cfg: Config, run: nat, acts: seq<Act>, i: nat)
    requires i < |DeliveryProtocol.Run(cfg, NewWorld(run), acts).log|
    ensures var s := DeliveryProtocol.Run(cfg, NewWorld(run), acts).log[i];
            s.recorded || s.over ==> !s.current
  {
    RunKeeps(cfg, NewWorld(run), acts);
  }

  // ----- the one way a step is repeated

  function Tick(now: real, env: Env): Move {
    Move(now, 0.0, true, env)
  }

  lemma RunAct(cfg: Config, w: World, acts: seq<Act>, act: Act)
    ensures DeliveryProtocol.Run(cfg, w, [act] + acts) == DeliveryProtocol.Run(cfg, Next(cfg, w, act), acts)
  {
    assert ([act] + acts)[1..] == acts;
  }

  const ENDED := Snapshot(0, None, true, [])
  const MESSAGE := TerminalJob(ENDED, false)

  predicate Unsent(w: World, owner: Owner, now: real) {
    w.l.row.run == 0 && !Final(w.l.row.state) && Claimable(w.l.row, owner, now) && TerminalMessage(0) !in w.l.steps
  }

  lemma MessageSteps()
    ensures JobSteps(MESSAGE) == [TerminalMessage(0)]
  {
    assert ArtifactSteps(0, []) == [];
  }

  /** Claim, query, renew. */
  function Observe(token: Token, owner: Owner, now: real, rest: seq<Act>): seq<Act> {
    [StartWatch(owner, false, false, now)]
    + ([Take(token, Tick(now, Answer(ENDED)))] + ([Take(token, Tick(now, Proceed))] + rest))
  }

  function Newcomer(cfg: Config, owner: Owner, pc: Pc): Watcher {
    Watcher(owner, false, pc, false, cfg.graceChecks, 0, 0)
  }

  predicate Holds(l: Ledger, token: Token, owner: Owner, until: real) {
    l.row.token == Some(token) && l.row.owner == Some(owner) && l.row.until == Some(until)
    && l.row.run == 0 && !Final(l.row.state)
  }

  lemma ReachObserved(cfg: Config, w: World, owner: Owner, now: real, rest: seq<Act>) returns (after: World)
    requires cfg.lease > 0.0 && Unsent(w, owner, now)
    ensures DeliveryProtocol.Run(cfg, w, Observe(w.issued, owner, now, rest)) == DeliveryProtocol.Run(cfg, after, rest)
    ensures after.watchers == w.watchers[w.issued := Newcomer(cfg, owner, Observed(ENDED, true))]
    ensures after.issued == w.issued + 1 && after.log == w.log && after.l.steps == w.l.steps
    ensures Holds(after.l, w.issued, owner, now + cfg.lease)
  {
    var t := w.issued;
    var ask, go := Take(t, Tick(now, Answer(ENDED))), Take(t, Tick(now, Proceed));
    var w1 := Next(cfg, w, StartWatch(owner, false, false, now));
    assert w1.watchers == w.watchers[t := Newcomer(cfg, owner, Query)];
    RunAct(cfg, w, [ask] + ([go] + rest), StartWatch(owner, false, false, now));
    var w2 := Next(cfg, w1, ask);
    assert w2.watchers == w.watchers[t := Newcomer(cfg, owner, Observed(ENDED, false))];
    RunAct(cfg, w1, [go] + rest, ask);
    after := Next(cfg, w2, go);
    assert after.watchers == w.watchers[t := Newcomer(cfg, owner, Observed(ENDED, true))];
    RunAct(cfg, w2, rest, go);
  }

  /** Decide, start delivering, find the message unrecorded: about to send it. */
  function Begin(token: Token, now: real, rest: seq<Act>): seq<Act> {
    var go := Take(token, Tick(now, Proceed));
    [go] + ([go] + ([go] + rest))
  }

  lemma ReachLaunch(cfg: Config, w: World, token: Token, owner: Owner, now: real, until: real, rest: seq<Act>) returns (after: World)
    requires token in w.watchers && w.watchers[token] == Newcomer(cfg, owner, Observed(ENDED, true))
    requires Holds(w.l, token, owner, until) && now < until && TerminalMessage(0) !in w.l.steps
    ensures DeliveryProtocol.Run(cfg, w, Begin(token, now, rest)) == DeliveryProtocol.Run(cfg, after, rest)
    ensures after.watchers == w.watchers[token := Newcomer(cfg, owner, Work(MESSAGE, Launch(0)))]
    ensures after.issued == w.issued && after.log == w.log && after.l.steps == w.l.steps
    ensures Holds(after.l, token, owner, until)
  {
    var go := Take(token, Tick(now, Proceed));
    MessageSteps();
    var w1 := Next(cfg, w, go);
    assert w1.watchers == w.watchers[token := Newcomer(cfg, owner, Work(MESSAGE, Start))];
    RunAct(cfg, w, [go] + ([go] + rest), go);
    var w2 := Next(cfg, w1, go);
    assert w2.watchers == w.watchers[token := Newcomer(cfg, owner, Work(MESSAGE, Check(0)))];
    RunAct(cfg, w1, [go] + rest, go);
    after := Next(cfg, w2, go);
    assert after.watchers == w.watchers[token := Newcomer(cfg, owner, Work(MESSAGE, Launch(0)))];
    RunAct(cfg, w2, rest, go);
  }

  /** Send and complete the message. */
  function SendMessage(token: Token, now: real, rest: seq<Act>): seq<Act> {
    [Take(token, Tick(now, Proceed))] + ([Take(token, Tick(now, Proceed))] + rest)
  }

  lemma ReachSent(cfg: Config, w: World, token: Token, now: real, rest: seq<Act>) returns (after: World)
    requires token in w.watchers && w.watchers[token].pc == Work(MESSAGE, Launch(0))
    ensures DeliveryProtocol.Run(cfg, w, SendMessage(token, now, rest)) == DeliveryProtocol.Run(cfg, after, rest)
    ensures after.watchers == w.watchers[token := w.watchers[token].(pc := Work(MESSAGE, Confirm(0)))]
    ensures after.l == w.l && |after.log| == |w.log| + 1
  {
    var me := w.watchers[token];
    var go := Take(token, Tick(now, Proceed));
    MessageSteps();
    var w1 := Next(cfg, w, go);
    assert w1.watchers == w.watchers[token := me.(pc := Work(MESSAGE, Send(0)))];
    RunAct(cfg, w, [go] + rest, go);
    after := Next(cfg, w1, go);
    assert after.watchers == w.watchers[token := me.(pc := Work(MESSAGE, Confirm(0)))];
    RunAct(cfg, w1, rest, go);
  }

  /** Confirm the lease and record the message. */
  function RecordMessage(token: Token, now: real, rest: seq<Act>): seq<Act> {
    [Take(token, Tick(now, Proceed))] + ([Take(token, Tick(now, Proceed))] + rest)
  }

  lemma ReachRecord(cfg: Config, w: World, token: Token, now: real, rest: seq<Act>) returns (after: World)
    requires cfg.lease > 0.0 && token in w.watchers && w.watchers[token].pc == Work(MESSAGE, Confirm(0))
    requires Owned(w.l.row, token, now)
    ensures DeliveryProtocol.Run(cfg, w, RecordMessage(token, now, rest)) == DeliveryProtocol.Run(cfg, after, rest)
    ensures after.watchers == w.watchers[token := w.watchers[token].(pc := Work(MESSAGE, Check(1)))]
    ensures TerminalMessage(0) in after.l.steps && after.log == w.log && after.l.row.token == Some(token)
    ensures after.l.row.state == w.l.row.state
  {
    var me := w.watchers[token];
    var go := Take(token, Tick(now, Proceed));
    MessageSteps();
    var w1 := Next(cfg, w, go);
    assert w1.watchers == w.watchers[token := me.(pc := Work(MESSAGE, Record(0)))];
    RunAct(cfg, w, [go] + rest, go);
    after := Next(cfg, w1, go);
    assert after.watchers == w.watchers[token := me.(pc := Work(MESSAGE, Check(1)))];
    RunAct(cfg, w1, rest, go);
  }

  /** Another owner takes over and delivers the message. */
  function Overtake(cfg: Config, rest: seq<Act>): seq<Act> {
    Observe(1, 1, cfg.lease, Begin(1, cfg.lease, SendMessage(1, cfg.lease, RecordMessage(1, cfg.lease, rest))))
  }

  lemma ReachOvertaken(cfg: Config, w: World, rest: seq<Act>) returns (after: World)
    requires cfg.lease > 0.0 && w.issued == 1 && 0 in w.watchers && w.watchers[0].pc == Work(MESSAGE, Launch(0))
    requires Unsent(w, 1, cfg.lease)
    ensures DeliveryProtocol.Run(cfg, w, Overtake(cfg, rest)) == DeliveryProtocol.Run(cfg, after, rest)
    ensures 0 in after.watchers && after.watchers[0].pc == Work(MESSAGE, Launch(0))
    ensures TerminalMessage(0) in after.l.steps && after.l.row.token == Some(1) && !Final(after.l.row.state)
    ensures |after.log| == |w.log| + 1
  {
    var fourth := RecordMessage(1, cfg.lease, rest);
    var third := SendMessage(1, cfg.lease, fourth);
    var second := Begin(1, cfg.lease, third);
    var w1 := ReachObserved(cfg, w, 1, cfg.lease, second);
    var w2 := ReachLaunch(cfg, w1, 1, 1, cfg.lease, cfg.lease + cfg.lease, third);
    var w3 := ReachSent(cfg, w2, 1, cfg.lease, fourth);
    after := ReachRecord(cfg, w3, 1, cfg.lease, rest);
  }

  /**
   The exception is real: an owner that stalls between its check and its send
   until the lease runs out repeats a message another owner has recorded.
   */
  lemma StalledSenderRepeats(cfg: Config) returns (acts: seq<Act>)
    requires cfg.lease > 0.0
    ensures var log := DeliveryProtocol.Run(cfg, NewWorld(0), acts).log;
            |log| == 2 && log[1] == Sending(0, TerminalMessage(0), true, false, false)
  {
    var last := Take(0, Tick(cfg.lease, Proceed));
    var later := Overtake(cfg, [last]);
    acts := Observe(0, 0, 0.0, Begin(0, 0.0, later));
    var w1 := ReachObserved(cfg, NewWorld(0), 0, 0.0, Begin(0, 0.0, later));
    var w2 := ReachLaunch(cfg, w1, 0, 0, 0.0, cfg.lease, later);
    var w3 := ReachOvertaken(cfg, w2, [last]);
    MessageSteps();
    assert [last][1..] == [];
    assert DeliveryProtocol.Run(cfg, w3, [last]) == Next(cfg, w3, last);
  }
}
