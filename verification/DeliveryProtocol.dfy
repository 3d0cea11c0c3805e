/**
 Channel delivery as a state machine: watches of any number of coordinators
 over one delivery row, each running the watch loop with its durable hooks.
 Every store transaction is one step; a crash drops the watches of an owner.
 */
module DeliveryProtocol {
  import opened Common
  import opened DeliveryLedger
  import R = Redrive

  datatype Config = Config(maxAttempts: nat, graceChecks: nat, lease: real, retry: R.Policy, redrive: R.Policy)

  datatype Published = Published(run: nat, artifact: nat)

  /** What the Gateway reports of the Task; `review` is the pending review, if any. */
  datatype Snapshot = Snapshot(run: nat, review: Option<nat>, terminal: bool, artifacts: seq<Published>)

  datatype Job =
    | ReviewJob(review: nat)
    | TerminalJob(snap: Snapshot, hook: bool)

  function ArtifactSteps(run: nat, artifacts: seq<Published>): seq<Step>
    decreases |artifacts|
  {
    if artifacts == [] then []
    else if artifacts[0].run != run then ArtifactSteps(run, artifacts[1..])
    else [Artifact(run, artifacts[0].artifact)] + ArtifactSteps(run, artifacts[1..])
  }

  /** The effects of a job in the order they are attempted. */
  function JobSteps(job: Job): seq<Step> {
    match job
    case ReviewJob(review) => [ReviewMessage(review)]
    case TerminalJob(snap, hook) =>
      [TerminalMessage(snap.run)] + ArtifactSteps(snap.run, snap.artifacts)
      + if hook then [DeliveredHook(snap.run)] else []
  }

  datatype Stage =
    | Start
    | Check(i: nat)
    | Launch(i: nat)
    | Send(i: nat)
    | Confirm(i: nat)
    | Record(i: nat)
    | Finish

  datatype Trouble =
    | Retry(attempt: nat, delay: real)
    | Extend(delay: real)
    | Exhaust(auto: bool)
    | Fail(redrive: Option<real>)

  datatype Pc =
    | Query
    | Observed(snap: Snapshot, renewed: bool)
    | Superseding
    | Work(job: Job, stage: Stage)
    | Completing
    | InTrouble(trouble: Trouble)
    | Stopping

  datatype Watcher = Watcher(
    owner: Owner,
    hook: bool,
    pc: Pc,
    terminalSent: bool,
    graceLeft: nat,
    queryAttempts: nat,
    deliveryAttempts: nat)

  datatype Env =
    | Answer(snap: Snapshot)
    | QueryError(retryable: bool, malformed: bool)
    | Proceed
    | Heartbeat
    | EffectRaised

  /** One scheduling of a watch: the clock, a random draw, and what its surroundings do. */
  datatype Move = Move(now: real, random: real, reconciler: bool, env: Env)

  /** The outcome: ledger, watch (None once it ended), an effect begun, an effect completed, a job finished. */
  datatype Turn = Turn(l: Ledger, w: Option<Watcher>, launched: Option<Step>, completed: Option<Step>, finished: Option<Job>)

  function Quiet(l: Ledger, w: Watcher): Turn {
    Turn(l, Some(w), None, None, None)
  }

  /** One fenced update; a lost lease is an exception. */
  function Fenced(l: Ledger, op: Op, m: Move, ok: Watcher, lost: Watcher): Turn {
    Quiet(Apply(l, op, m.now), if Applies(l.row, op, m.now) then ok else lost)
  }

  function Failing(w: Watcher, redrive: Option<real>): Watcher {
    w.(pc := InTrouble(Fail(redrive)))
  }

  function AttemptFailed(cfg: Config, w: Watcher, attempt: nat, giveUp: bool, auto: bool, m: Move): Watcher {
    if giveUp || attempt > cfg.maxAttempts then w.(pc := InTrouble(Exhaust(auto)))
    else w.(pc := InTrouble(Retry(attempt, R.RetryDelay(cfg.retry, attempt, m.random))))
  }

  /** An exception while observing or delivering. */
  function DeliveryFailed(cfg: Config, w: Watcher, m: Move): Watcher {
    AttemptFailed(cfg, w.(deliveryAttempts := w.deliveryAttempts + 1), w.deliveryAttempts + 1, false, false, m)
  }

  /** An exception of the query, or a payload that does not parse. */
  function QueryFailed(cfg: Config, w: Watcher, retryable: bool, malformed: bool, m: Move): Watcher {
    AttemptFailed(cfg, w.(queryAttempts := w.queryAttempts + 1), w.queryAttempts + 1, !retryable, retryable && !malformed, m)
  }

  function GraceCheck(w: Watcher): Watcher {
    if w.graceLeft == 0 then w.(pc := Completing) else w.(graceLeft := w.graceLeft - 1, pc := Query)
  }

  /** What the watch does with a snapshot it may act on. */
  function Decide(run: nat, w: Watcher, snap: Snapshot): Watcher {
    if snap.run > run then w.(pc := Superseding)
    else if snap.run < run then w.(pc := Query)
    else if snap.review.Some? then w.(pc := Work(ReviewJob(snap.review.value), Start))
    else if snap.terminal then
      if w.terminalSent then GraceCheck(w) else w.(pc := Work(TerminalJob(snap, w.hook), Start))
    else w.(deliveryAttempts := 0, pc := Query)
  }

  function AfterFinish(w: Watcher, job: Job): Watcher {
    if job.ReviewJob? then w.(pc := Stopping) else GraceCheck(w.(terminalSent := true, deliveryAttempts := 0))
  }

  function WorkStep(cfg: Config, token: Token, l: Ledger, w: Watcher, job: Job, stage: Stage, m: Move): Turn {
    var steps := JobSteps(job);
    var lost := DeliveryFailed(cfg, w, m);
    match stage
    case Start =>
      var op := if job.ReviewJob? then MarkDelivering(token, Review, Some(job.review)) else MarkDelivering(token, Terminal, None);
      Fenced(l, op, m, w.(pc := Work(job, Check(0))), lost)
    case Check(i) =>
      Quiet(l, w.(pc := Work(job, if i >= |steps| then Finish else if steps[i] in l.steps then Check(i + 1) else Launch(i))))
    case Launch(i) =>
      if i >= |steps| then Quiet(l, w) else Turn(l, Some(w.(pc := Work(job, Send(i)))), Some(steps[i]), None, None)
    case Send(i) =>
      if i >= |steps| then Quiet(l, w)
      else if m.env.Heartbeat? then Fenced(l, Renew(token, cfg.lease), m, w, lost)
      else if m.env.EffectRaised? then Quiet(l, lost)
      else Turn(l, Some(w.(pc := Work(job, Confirm(i)))), None, Some(steps[i]), None)
    case Confirm(i) => Fenced(l, Renew(token, cfg.lease), m, w.(pc := Work(job, Record(i))), lost)
    case Record(i) =>
      if i >= |steps| then Quiet(l, w)
      else Fenced(l, MarkStep(token, steps[i]), m, w.(pc := Work(job, Check(i + 1))), lost)
    case Finish =>
      var op := if job.ReviewJob? then MarkReviewWaiting(token) else MarkTerminalStepsDone(token);
      Fenced(l, op, m, AfterFinish(w, job), lost).(finished := if Applies(l.row, op, m.now) then Some(job) else None)
  }

  function TroubleStep(cfg: Config, token: Token, l: Ledger, w: Watcher, trouble: Trouble, m: Move): Turn {
    match trouble
    case Retry(attempt, delay) =>
      Fenced(l, MarkRetry(token, attempt, delay, "error"), m, w.(pc := InTrouble(Extend(delay))), Failing(w, None))
    case Extend(delay) =>
      Fenced(l, Renew(token, MaxReal(cfg.lease, delay + 1.0)), m, w.(pc := Query), Failing(w, None))
    case Exhaust(auto) =>
      Quiet(l, Failing(w, if auto && m.reconciler then Some(R.Delay(cfg.redrive, l.row.redrives + 1, m.random)) else None))
    case Fail(redrive) => Fenced(l, MarkError(token, "error", redrive), m, w.(pc := Stopping), w.(pc := Stopping))
  }

  function TakeStep(cfg: Config, token: Token, l: Ledger, w: Watcher, m: Move): Turn {
    var lost := DeliveryFailed(cfg, w, m);
    match w.pc
    case Query =>
      if m.env.Answer? then Quiet(l, w.(queryAttempts := 0, pc := Observed(m.env.snap, false)))
      else if m.env.QueryError? then Quiet(l, QueryFailed(cfg, w, m.env.retryable, m.env.malformed, m))
      else Quiet(l, w)
    case Observed(snap, renewed) =>
      if renewed then Fenced(l, MarkWatching(token), m, Decide(l.row.run, w, snap), lost)
      else Fenced(l, Renew(token, cfg.lease), m, w.(pc := Observed(snap, true)), lost)
    case Superseding => Fenced(l, MarkSuperseded(token), m, w.(pc := Stopping), lost)
    case Work(job, stage) => WorkStep(cfg, token, l, w, job, stage, m)
    case Completing => Fenced(l, MarkDelivered(token), m, w.(pc := Stopping), lost)
    case InTrouble(trouble) => TroubleStep(cfg, token, l, w, trouble, m)
    case Stopping => Turn(Apply(l, Release(token), m.now), None, None, None, None)
  }

  // ----- the world

  /**
   A begun effect: whether its step was already recorded, whether its sender
   was still the newest lease holder, and whether the delivery was over.
   */
  datatype Sending = Sending(token: Token, step: Step, recorded: bool, current: bool, over: bool)

  datatype World = World(
    l: Ledger,
    watchers: map<Token, Watcher>,
    issued: nat,
    completed: set<Step>,
    presented: Option<Job>,
    log: seq<Sending>)

  datatype Act =
    | StartWatch(owner: Owner, hook: bool, due: bool, now: real)
    | Take(token: Token, move: Move)
    | Cancel(token: Token)
    | Crash(owner: Owner)
    | Shutdown(owner: Owner, now: real)

  function NewWorld(run: nat): World {
    World(Ledger(NewRow(run), {}), map[], 0, {}, None, [])
  }

  /** A claim draws a fresh token; several coordinators may share an owner name. */
  function Started(cfg: Config, w: World, owner: Owner, hook: bool, due: bool, now: real): World {
    var op := if due then ClaimDueError(owner, w.issued, cfg.lease) else Claim(owner, w.issued, cfg.lease);
    var drawn := w.(issued := w.issued + 1);
    if !Applies(w.l.row, op, now) then drawn
    else drawn.(l := Apply(w.l, op, now),
                watchers := w.watchers[w.issued := Watcher(owner, hook, Query, false, cfg.graceChecks, 0, 0)])
  }

  function Settle(watchers: map<Token, Watcher>, token: Token, w: Option<Watcher>): map<Token, Watcher> {
    if w.Some? then watchers[token := w.value] else watchers - {token}
  }

  function Took(cfg: Config, w: World, token: Token, m: Move): World
    requires token in w.watchers
  {
    var t := TakeStep(cfg, token, w.l, w.watchers[token], m);
    World(t.l, Settle(w.watchers, token, t.w), w.issued,
          w.completed + (if t.completed.Some? then {t.completed.value} else {}),
          if t.finished.Some? && t.finished.value.TerminalJob? then t.finished else w.presented,
          if t.launched.Some?
          then w.log + [Sending(token, t.launched.value, t.launched.value in w.l.steps, w.l.row.token == Some(token), Final(w.l.row.state))]
          else w.log)
  }

  function Next(cfg: Config, w: World, act: Act): World {
    match act
    case StartWatch(owner, hook, due, now) => Started(cfg, w, owner, hook, due, now)
    case Take(token, m) => if token in w.watchers then Took(cfg, w, token, m) else w
    case Cancel(token) =>
      if token in w.watchers then w.(watchers := w.watchers[token := w.watchers[token].(pc := Stopping)]) else w
    case Crash(owner) => w.(watchers := map t | t in w.watchers && w.watchers[t].owner != owner :: w.watchers[t])
    case Shutdown(owner, now) => w.(l := Apply(w.l, ReleaseOwner(owner), now))
  }

  function Run(cfg: Config, w: World, acts: seq<Act>): World
    decreases |acts|
  {
    if acts == [] then w else Run(cfg, Next(cfg, w, acts[0]), acts[1..])
  }
}
