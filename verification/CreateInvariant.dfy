/**
 The inductive invariant of the create protocol, proved by rely-guarantee: each
 step of one process keeps the ledger invariant and its own assertion, and
 changes the shared state only in ways (`Rely`) that keep every other process's
 assertion and every call left in the background.
 */
module CreateInvariant {
  import opened Common
  import opened CreateProtocol
  import opened CreateAssertions
  import R = RouteLedger
  import C = CommandLedger

  // ----- what everybody else's steps leave alone

  lemma RelyKeepsWork(a: Shared, b: Shared, actor: Option<nat>, w: Work, at: WorkPc)
    requires LedgersOk(a) && PcOk(a, Working(w, at)) && Rely(a, b, actor)
    requires Some(w.token) != actor
    ensures PcOk(b, Working(w, at))
  {
  }

  lemma RelyKeepsPc(a: Shared, b: Shared, actor: Option<nat>, pc: Pc)
    requires LedgersOk(a) && PcOk(a, pc) && Rely(a, b, actor)
    requires TokenOf(pc).Some? ==> TokenOf(pc) != actor
    ensures PcOk(b, pc)
  {
    if pc.Working? {
      RelyKeepsWork(a, b, actor, pc.w, pc.work);
    }
  }

  lemma RelyKeepsLeft(a: Shared, b: Shared, actor: Option<nat>, t: Txn)
    requires LedgersOk(a) && LeftOk(a, t) && Rely(a, b, actor)
    ensures LeftOk(b, t)
  {
  }

  lemma RelyReflexive(sh: Shared, actor: Option<nat>)
    ensures Rely(sh, sh, actor)
  {
  }

  // ----- the command transactions

  lemma ClaimTxnKeeps(sh: Shared, req: Request, proposed: string, actor: Option<nat>)
    requires LedgersOk(sh) && proposed != ""
    ensures LedgersOk(Exec(sh, ClaimTxn(req, proposed)).0)
    ensures Rely(sh, Exec(sh, ClaimTxn(req, proposed)).0, actor)
  {
    var sh' := Exec(sh, ClaimTxn(req, proposed)).0;
    if sh.command.Some? && sh.command.value.state != C.Queued {
      assert sh'.command == sh.command;
    }
  }

  lemma ReopenTxnKeeps(sh: Shared, expected: C.GatewayError, actor: Option<nat>)
    requires LedgersOk(sh)
    ensures LedgersOk(Exec(sh, ReopenTxn(expected)).0)
    ensures Rely(sh, Exec(sh, ReopenTxn(expected)).0, actor)
  {
  }

  lemma MarkCommandTxnKeeps(sh: Shared, token: nat, safe: bool, actor: Option<nat>)
    requires LedgersOk(sh)
    ensures LedgersOk(Exec(sh, MarkCommandTxn(token, safe)).0)
    ensures Rely(sh, Exec(sh, MarkCommandTxn(token, safe)).0, actor)
  {
  }

  lemma CompleteTxnKeeps(sh: Shared, token: nat, response: string, actor: Option<nat>)
    requires LedgersOk(sh) && Effective(sh) && Bound(sh) && response != ""
    requires token in sh.retired || actor == Some(token)
    ensures LedgersOk(Exec(sh, CompleteTxn(token, response)).0)
    ensures Rely(sh, Exec(sh, CompleteTxn(token, response)).0, actor)
  {
  }

  lemma FailTxnKeeps(sh: Shared, token: nat, failure: C.GatewayError)
    requires LedgersOk(sh)
    ensures LedgersOk(Exec(sh, FailTxn(token, failure)).0)
    ensures Rely(sh, Exec(sh, FailTxn(token, failure)).0, Some(token))
  {
  }

  lemma ReleaseTxnKeeps(sh: Shared, token: nat)
    requires LedgersOk(sh)
    ensures LedgersOk(Exec(sh, ReleaseTxn(token)).0)
    ensures Rely(sh, Exec(sh, ReleaseTxn(token)).0, Some(token))
  {
  }

  lemma ReleaseUndispatchedTxnKeeps(sh: Shared, token: nat)
    requires LedgersOk(sh)
    ensures LedgersOk(Exec(sh, ReleaseUndispatchedTxn(token)).0)
    ensures Rely(sh, Exec(sh, ReleaseUndispatchedTxn(token)).0, Some(token))
  {
  }

  // ----- the route transactions

  lemma ReserveTxnKeeps(sh: Shared, req: Request, taskId: string, actor: Option<nat>)
    requires LedgersOk(sh)
    requires sh.command.Some? && sh.command.value.taskId == taskId && sh.command.value.target == req.agent
    ensures LedgersOk(Exec(sh, ReserveTxn(req, taskId)).0)
    ensures Rely(sh, Exec(sh, ReserveTxn(req, taskId)).0, actor)
  {
  }

  lemma MarkRouteTxnKeeps(sh: Shared, actor: Option<nat>)
    requires LedgersOk(sh)
    ensures LedgersOk(Exec(sh, MarkRouteTxn).0)
    ensures Rely(sh, Exec(sh, MarkRouteTxn).0, actor)
  {
  }

  lemma RestoreTxnKeeps(sh: Shared, token: nat)
    requires LedgersOk(sh) && C.HeldBy(sh.command, token) && MaySend(sh)
    ensures LedgersOk(Exec(sh, RestoreTxn).0)
    ensures Rely(sh, Exec(sh, RestoreTxn).0, Some(token))
  {
  }

  lemma SaveTxnKeeps(sh: Shared, copy: R.Route, actor: Option<nat>)
    requires LedgersOk(sh) && CopyOk(sh, copy) && copy.state == R.Active && copy.kind == R.Local
    ensures LedgersOk(Exec(sh, SaveTxn(copy)).0)
    ensures Rely(sh, Exec(sh, SaveTxn(copy)).0, actor)
  {
  }

  /** A failure is recorded by the holder, who knows no send was taken, or by a call the holder left behind. */
  lemma TransitionKeepsLedgers(sh: Shared, t: Txn, actor: Option<nat>)
    requires t.TransitionTxn?
    requires LedgersOk(sh) && TransitionOk(sh, t.state, t.upstream)
    requires NeverRemote(sh) && t.state == R.Failed ==>
               sh.doomed || (actor.Some? && C.HeldBy(sh.command, actor.value) && MayFail(sh))
    ensures LedgersOk(Exec(sh, t).0)
  {
  }

  lemma TransitionIsRelied(sh: Shared, t: Txn, actor: Option<nat>)
    requires t.TransitionTxn?
    requires LedgersOk(sh) && TransitionOk(sh, t.state, t.upstream)
    requires NeverRemote(sh) && t.state == R.Failed ==>
               sh.doomed || (actor.Some? && C.HeldBy(sh.command, actor.value) && MayFail(sh))
    ensures Rely(sh, Exec(sh, t).0, actor)
  {
  }

  lemma TransitionTxnKeeps(sh: Shared, t: Txn, actor: Option<nat>)
    requires t.TransitionTxn?
    requires LedgersOk(sh) && TransitionOk(sh, t.state, t.upstream)
    requires NeverRemote(sh) && t.state == R.Failed ==>
               sh.doomed || (actor.Some? && C.HeldBy(sh.command, actor.value) && MayFail(sh))
    ensures LedgersOk(Exec(sh, t).0)
    ensures Rely(sh, Exec(sh, t).0, actor)
  {
    TransitionKeepsLedgers(sh, t, actor);
    TransitionIsRelied(sh, t, actor);
  }

  lemma SendOutKeeps(sh: Shared, taken: bool, actor: Option<nat>)
    requires LedgersOk(sh) && MayDo(sh, SendOut(taken), actor)
    ensures LedgersOk(Do(sh, SendOut(taken))) && Rely(sh, Do(sh, SendOut(taken)), actor)
  {
  }

  lemma LeaveBehindKeeps(sh: Shared, t: Txn, actor: Option<nat>)
    requires LedgersOk(sh) && MayDo(sh, LeaveBehind(t), actor)
    ensures LedgersOk(Do(sh, LeaveBehind(t))) && Rely(sh, Do(sh, LeaveBehind(t)), actor)
    ensures LeftOk(Do(sh, LeaveBehind(t)), t)
  {
  }

  /** Every permitted change keeps the ledger invariant and respects `Rely`. */
  lemma ChangeKeeps(sh: Shared, change: Change, actor: Option<nat>)
    requires LedgersOk(sh) && MayDo(sh, change, actor)
    ensures LedgersOk(Do(sh, change)) && Rely(sh, Do(sh, change), actor)
  {
    match change
    case Nothing => RelyReflexive(sh, actor);
    case SendOut(taken) => SendOutKeeps(sh, taken, actor);
    case LeaveBehind(t) => LeaveBehindKeeps(sh, t, actor);
    case Commit(t) => CommitKeeps(sh, t, actor);
  }

  lemma CommitKeeps(sh: Shared, t: Txn, actor: Option<nat>)
    requires LedgersOk(sh) && MayCommit(sh, t, actor)
    ensures LedgersOk(Exec(sh, t).0) && Rely(sh, Exec(sh, t).0, actor)
  {
    match t
    case ClaimTxn(req, proposed) => ClaimTxnKeeps(sh, req, proposed, actor);
    case ReopenTxn(expected) => ReopenTxnKeeps(sh, expected, actor);
    case ReserveTxn(req, taskId) => ReserveTxnKeeps(sh, req, taskId, actor);
    case MarkRouteTxn => MarkRouteTxnKeeps(sh, actor);
    case RestoreTxn => RestoreTxnKeeps(sh, actor.value);
    case TransitionTxn(_, _, _) => TransitionTxnKeeps(sh, t, actor);
    case SaveTxn(copy) => SaveTxnKeeps(sh, copy, actor);
    case MarkCommandTxn(token, safe) => MarkCommandTxnKeeps(sh, token, safe, actor);
    case CompleteTxn(token, response) => CompleteTxnKeeps(sh, token, response, actor);
    case FailTxn(token, failure) => FailTxnKeeps(sh, token, failure);
    case ReleaseTxn(token) => ReleaseTxnKeeps(sh, token);
    case ReleaseUndispatchedTxn(token) => ReleaseUndispatchedTxnKeeps(sh, token);
  }
}
