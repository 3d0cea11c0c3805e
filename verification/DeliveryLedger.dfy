/**
 The channel-delivery ledger: one row per watched run of a Task, a fenced
 lease on it, and the set of delivery steps already acknowledged.
 Each function is one store transaction; the result says whether it applied.
 */
module DeliveryLedger {
  import opened Common

  type Owner = nat

  /** A lease token; the store draws a fresh one for every claim. */
  type Token = nat

  datatype Kind = Watch | Review | Terminal

  datatype State = Watching | RetryWait | Failed | Delivering | ReviewWaiting | TerminalGrace | Delivered | Superseded

  predicate Final(s: State) {
    s == Delivered || s == Superseded
  }

  datatype Row = Row(
    run: nat,
    kind: Kind,
    review: Option<nat>,
    state: State,
    cursor: nat,
    attempts: nat,
    redrives: nat,
    nextAt: Option<real>,
    lastError: Option<string>,
    owner: Option<Owner>,
    token: Option<Token>,
    until: Option<real>,
    fence: nat)

  datatype Step =
    | ReviewMessage(review: nat)
    | TerminalMessage(run: nat)
    | Artifact(run: nat, artifact: nat)
    | DeliveredHook(run: nat)

  datatype Ledger = Ledger(row: Row, steps: set<Step>)

  /** `ensure_watch` on a new identity. */
  function NewRow(run: nat): Row {
    Row(run, Watch, None, Watching, 0, 0, 0, None, None, None, None, None, 0)
  }

  /** The lease is free for `owner` at `now`. */
  predicate Claimable(r: Row, owner: Owner, now: real) {
    r.owner.None? || r.until.None? || r.until.value <= now || r.owner == Some(owner)
  }

  /** `token` holds an unexpired lease. */
  predicate Owned(r: Row, token: Token, now: real) {
    r.token == Some(token) && r.until.Some? && r.until.value > now
  }

  function Leased(r: Row, owner: Owner, token: Token, lease: real, now: real): Row {
    r.(owner := Some(owner), token := Some(token), until := Some(now + lease), fence := r.fence + 1)
  }

  function Unleased(r: Row): Row {
    r.(owner := None, token := None, until := None)
  }

  function MaxReal(a: real, b: real): real {
    if a < b then b else a
  }

  datatype Op =
    | Claim(owner: Owner, token: Token, lease: real)
    | ClaimDueError(owner: Owner, token: Token, lease: real)
    | Renew(token: Token, lease: real)
    | MarkRetry(token: Token, attempt: nat, delay: real, error: string)
    | MarkWatching(token: Token)
    | MarkDelivering(token: Token, kind: Kind, review: Option<nat>)
    | MarkError(token: Token, error: string, redrive: Option<real>)
    | MarkReviewWaiting(token: Token)
    | MarkTerminalStepsDone(token: Token)
    | MarkDelivered(token: Token)
    | MarkSuperseded(token: Token)
    | MarkStep(token: Token, step: Step)
    | Release(token: Token)
    | ReleaseOwner(owner: Owner)

  predicate IsClaim(op: Op) {
    op.Claim? || op.ClaimDueError?
  }

  /** The guard of each transaction's UPDATE. */
  predicate Applies(r: Row, op: Op, now: real) {
    match op
    case Claim(owner, _, _) => !Final(r.state) && Claimable(r, owner, now)
    case ClaimDueError(owner, _, _) =>
      r.state == Failed && r.nextAt.Some? && r.nextAt.value <= now && Claimable(r, owner, now)
    case Renew(token, _) => Owned(r, token, now)
    case MarkStep(token, _) => Owned(r, token, now)
    case Release(token) => r.token == Some(token)
    case ReleaseOwner(owner) => r.owner == Some(owner)
    case MarkReviewWaiting(token) => Owned(r, token, now) && (r.state == Delivering || r.state == ReviewWaiting)
    case MarkTerminalStepsDone(token) => Owned(r, token, now) && (r.state == Delivering || r.state == TerminalGrace)
    case MarkDelivered(token) => Owned(r, token, now) && r.state == TerminalGrace
    case MarkRetry(token, _, _, _) => Owned(r, token, now) && !Final(r.state)
    case MarkWatching(token) => Owned(r, token, now) && !Final(r.state)
    case MarkDelivering(token, _, _) => Owned(r, token, now) && !Final(r.state)
    case MarkError(token, _, _) => Owned(r, token, now) && !Final(r.state)
    case MarkSuperseded(token) => Owned(r, token, now) && !Final(r.state)
  }

  /** The SET clause of each transaction's UPDATE. */
  function Updated(r: Row, op: Op, now: real): Row {
    match op
    case Claim(owner, token, lease) => Leased(r, owner, token, lease, now)
    case ClaimDueError(owner, token, lease) => Leased(r, owner, token, lease, now)
    case Renew(_, lease) => r.(until := Some(now + lease))
    case MarkRetry(_, attempt, delay, error) =>
      r.(state := if r.state == TerminalGrace then TerminalGrace else RetryWait,
         attempts := attempt, cursor := r.cursor + 1,
         nextAt := Some(now + MaxReal(0.0, delay)), lastError := Some(error))
    case MarkWatching(_) =>
      r.(state := if r.state == ReviewWaiting || r.state == TerminalGrace then r.state else Watching,
         attempts := 0, redrives := 0, nextAt := None, lastError := None)
    case MarkDelivering(_, kind, review) =>
      r.(kind := kind, review := review, state := Delivering, attempts := 0, nextAt := None, lastError := None)
    case MarkError(_, error, redrive) =>
      Unleased(r.(state := Failed,
                  nextAt := if redrive.Some? then Some(now + redrive.value) else None,
                  lastError := Some(error),
                  redrives := r.redrives + if redrive.Some? then 1 else 0))
    case MarkReviewWaiting(_) => r.(state := ReviewWaiting, attempts := 0, nextAt := None, lastError := None)
    case MarkTerminalStepsDone(_) => r.(state := TerminalGrace, attempts := 0, nextAt := None, lastError := None)
    case MarkDelivered(_) => r.(state := Delivered, attempts := 0, nextAt := None, lastError := None)
    case MarkSuperseded(_) => Unleased(r.(state := Superseded))
    case MarkStep(_, _) => r.(cursor := r.cursor + 1)
    case Release(_) => Unleased(r)
    case ReleaseOwner(_) => Unleased(r)
  }

  function Apply(l: Ledger, op: Op, now: real): Ledger {
    if !Applies(l.row, op, now) then l
    else Ledger(Updated(l.row, op, now), if op.MarkStep? then l.steps + {op.step} else l.steps)
  }

  // ----- what every transaction keeps

  /** Identity fixed, fence and steps only grow, final states never left. */
  predicate Evolves(a: Ledger, b: Ledger) {
    b.row.run == a.row.run && a.row.fence <= b.row.fence && a.steps <= b.steps
    && (Final(a.row.state) ==> b.row.state == a.row.state)
  }

  lemma OpEvolves(l: Ledger, op: Op, now: real)
    ensures Evolves(l, Apply(l, op, now))
  {
    var _ := Updated(l.row, op, now);
  }

  /** A transaction stamped with the clock reading it used. */
  datatype Timed = Timed(op: Op, now: real)

  function Run(l: Ledger, ops: seq<Timed>): Ledger
    decreases |ops|
  {
    if ops == [] then l else Run(Apply(l, ops[0].op, ops[0].now), ops[1..])
  }

  lemma {:induction false} HistoryEvolves(l: Ledger, ops: seq<Timed>)
    ensures Evolves(l, Run(l, ops))
    decreases |ops|
  {
    if ops != [] {
      OpEvolves(l, ops[0].op, ops[0].now);
      HistoryEvolves(Apply(l, ops[0].op, ops[0].now), ops[1..]);
    }
  }

  lemma {:induction false} RunAppend(l: Ledger, a: seq<Timed>, b: seq<Timed>)
    ensures Run(l, a + b) == Run(Run(l, a), b)
    decreases |a|
  {
    if a == [] {
      assert a + b == b;
    } else {
      assert (a + b)[1..] == a[1..] + b;
      RunAppend(Apply(l, a[0].op, a[0].now), a[1..], b);
    }
  }

  // ----- fencing

  /** The tokens of the successful claims of a history, oldest first. */
  function Issued(l: Ledger, ops: seq<Timed>): seq<Token>
    decreases |ops|
  {
    if ops == [] then []
    else
      var rest := Issued(Apply(l, ops[0].op, ops[0].now), ops[1..]);
      if IsClaim(ops[0].op) && Applies(l.row, ops[0].op, ops[0].now) then [ops[0].op.token] + rest else rest
  }

  /** No two claims of the history draw the same token. */
  predicate FreshTokens(ops: seq<Timed>) {
    forall i, j :: 0 <= i < j < |ops| && IsClaim(ops[i].op) && IsClaim(ops[j].op) ==> ops[i].op.token != ops[j].op.token
  }

  /** The fence counts the successful claims. */
  lemma {:induction false} FenceCountsClaims(l: Ledger, ops: seq<Timed>)
    ensures Run(l, ops).row.fence == l.row.fence + |Issued(l, ops)|
    decreases |ops|
  {
    if ops != [] {
      FenceCountsClaims(Apply(l, ops[0].op, ops[0].now), ops[1..]);
    }
  }

  lemma {:induction false} HolderIsNewest(l: Ledger, ops: seq<Timed>)
    ensures var r, issued := Run(l, ops).row, Issued(l, ops);
            r.token.Some? ==> r.token == if issued == [] then l.row.token else Some(issued[|issued| - 1])
    decreases |ops|
  {
    if ops != [] {
      HolderIsNewest(Apply(l, ops[0].op, ops[0].now), ops[1..]);
    }
  }

  /** The transactions a lease holder makes. */
  predicate ByToken(op: Op, token: Token) {
    !IsClaim(op) && !op.ReleaseOwner? && op.token == token
  }

  lemma {:induction false} IssuedAppend(l: Ledger, a: seq<Timed>, b: seq<Timed>)
    ensures Issued(l, a + b) == Issued(l, a) + Issued(Run(l, a), b)
    decreases |a|
  {
    if a == [] {
      assert a + b == b;
      assert [] + Issued(l, b) == Issued(l, b);
    } else {
      assert (a + b)[1..] == a[1..] + b;
      IssuedAppend(Apply(l, a[0].op, a[0].now), a[1..], b);
    }
  }

  lemma {:induction false} IssuedByClaim(l: Ledger, ops: seq<Timed>, k: nat) returns (i: nat)
    requires k < |Issued(l, ops)|
    ensures i < |ops| && IsClaim(ops[i].op) && ops[i].op.token == Issued(l, ops)[k]
    decreases |ops|
  {
    var hit := IsClaim(ops[0].op) && Applies(l.row, ops[0].op, ops[0].now);
    if hit && k == 0 {
      i := 0;
    } else {
      i := IssuedByClaim(Apply(l, ops[0].op, ops[0].now), ops[1..], if hit then k - 1 else k);
      i := i + 1;
    }
  }

  /**
   Fencing. Over any interleaving of owners, with any clock readings: once
   another claim has succeeded after token t was drawn (`later` holds a
   successful claim), no transaction of t changes anything, ever again.
   */
  lemma OldTokensAreInert(run: nat, earlier: seq<Timed>, later: seq<Timed>, op: Op, now: real, i: nat)
    requires FreshTokens(earlier + later)
    requires i < |earlier| && IsClaim(earlier[i].op) && ByToken(op, earlier[i].op.token)
    requires Issued(Run(Ledger(NewRow(run), {}), earlier), later) != []
    ensures var l := Run(Ledger(NewRow(run), {}), earlier + later);
            Apply(l, op, now) == l
  {
    var l0 := Ledger(NewRow(run), {});
    var mid := Run(l0, earlier);
    RunAppend(l0, earlier, later);
    HolderIsNewest(mid, later);
    var issued := Issued(mid, later);
    var j := IssuedByClaim(mid, later, |issued| - 1);
    assert (earlier + later)[|earlier| + j] == later[j] && (earlier + later)[i] == earlier[i];
    assert later[j].op.token != op.token;
  }

  /** Only a live lease lets its holder act, and while it lives no other owner can claim. */
  lemma LiveLeaseExcludes(r: Row, token: Token, owner: Owner, op: Op, now: real)
    requires Owned(r, token, now) && r.owner.Some? && r.owner != Some(owner)
    requires IsClaim(op) && op.owner == owner
    ensures !Applies(r, op, now)
  {
  }

  /** Nothing is stuck: an unfinished row whose lease ran out or was released can be claimed by anyone, and no finished one can. */
  lemma ClaimableWhenFree(l: Ledger, owner: Owner, token: Token, lease: real, now: real)
    requires lease > 0.0
    ensures var c := Apply(l, Claim(owner, token, lease), now);
            (c.row.fence == l.row.fence + 1 && Owned(c.row, token, now))
            <==> !Final(l.row.state) && Claimable(l.row, owner, now)
  {
  }
}
