/**
 The Gateway command ledger: one row per (principal, idempotency key), owned by
 the request that holds its claim token.  As in the route ledger, transactions
 are functions on one row and the class `GatewayCommandStore` runs them on the
 table.  The key pair, which is unique, stands for the row's command id.
 */
module CommandLedger {
  import opened Common

  datatype CommandKey = CommandKey(principal: string, idempotencyKey: string)

  datatype CommandState = Queued | Processing | Succeeded | FailedTerminal

  /** A stored error; `createRetryable` is the detail that makes an error terminal. */
  datatype GatewayError = GatewayError(code: string, taskId: string, createRetryable: Option<bool>, effectOutcome: string)

  datatype Command = Command(
    operation: string,
    target: string,
    requestHash: string,
    state: CommandState,
    taskId: string,
    mailboxMessageId: Option<string>,
    claimToken: Option<nat>,
    response: Option<string>,
    error: Option<GatewayError>,
    effectStarted: bool,
    replaySafe: bool)

  datatype ClaimRequest = ClaimRequest(
    operation: string,
    target: string,
    requestHash: string,
    proposedTaskId: string,
    proposedMailboxMessageId: Option<string>)

  datatype Claim =
    | Acquired(taskId: string, token: nat)
    | Busy(taskId: string)
    | Replay(taskId: string, response: string)
    | Terminal(taskId: string, error: GatewayError)

  datatype CommandError = Conflict | InvalidState | NotOwner

  const CREATE_TASK := "create_task"

  /** The error the recovery sweep and an unsafe interruption both store. */
  function UncertainOutcome(taskId: string): GatewayError {
    GatewayError("idempotency_outcome_uncertain", taskId, Some(false), "uncertain")
  }

  predicate HeldBy(row: Option<Command>, token: nat) {
    row.Some? && row.value.state == Processing && row.value.claimToken == Some(token)
  }

  // ----- one-row transactions

  function ClaimCommand(row: Option<Command>, request: ClaimRequest, token: nat): Result<(Command, Claim), CommandError>
  {
    match row
    case None =>
      Ok((Command(request.operation, request.target, request.requestHash, Processing, request.proposedTaskId,
                  request.proposedMailboxMessageId, Some(token), None, None, false, true),
          Acquired(request.proposedTaskId, token)))
    case Some(cur) =>
      if cur.operation != request.operation || cur.target != request.target || cur.requestHash != request.requestHash then
        Err(Conflict)
      else match cur.state
        case Succeeded =>
          if cur.response.None? || cur.response.value == "" then Err(InvalidState)
          else Ok((cur, Replay(cur.taskId, cur.response.value)))
        case FailedTerminal =>
          if cur.error.None? then Err(InvalidState)
          else Ok((cur, Terminal(cur.taskId, cur.error.value)))
        case Processing => Ok((cur, Busy(cur.taskId)))
        case Queued =>
          Ok((cur.(state := Processing, claimToken := Some(token)), Acquired(cur.taskId, token)))
  }

  function CompleteCommand(row: Option<Command>, token: nat, response: string): Result<Command, CommandError>
  {
    if HeldBy(row, token) then
      Ok(row.value.(state := Succeeded, response := Some(response), claimToken := None, error := None))
    else Err(NotOwner)
  }

  function MarkEffectStarted(row: Option<Command>, token: nat, replaySafe: bool): Result<Command, CommandError>
  {
    if HeldBy(row, token) then Ok(row.value.(effectStarted := true, replaySafe := replaySafe))
    else Err(NotOwner)
  }

  function FailCommand(row: Option<Command>, token: nat, error: GatewayError): Result<Command, CommandError>
  {
    if HeldBy(row, token) then Ok(row.value.(state := FailedTerminal, error := Some(error), claimToken := None))
    else Err(NotOwner)
  }

  /** `release` reports nothing: an unsafe started command, or one that is no longer owned, is left alone. */
  function ReleaseCommand(row: Option<Command>, token: nat): Option<Command>
  {
    if HeldBy(row, token) && !(row.value.effectStarted && !row.value.replaySafe) then
      Some(row.value.(state := Queued, claimToken := None, effectStarted := false))
    else row
  }

  function ReleaseNotDispatched(row: Option<Command>, token: nat): Result<Command, CommandError>
  {
    if HeldBy(row, token) && row.value.operation == CREATE_TASK then
      Ok(row.value.(state := Queued, claimToken := None, effectStarted := false, replaySafe := false, error := None))
    else Err(NotOwner)
  }

  function ReopenNotDispatched(row: Option<Command>, expected: GatewayError): Option<Command>
  {
    if row.Some? && row.value.operation == CREATE_TASK && row.value.state == FailedTerminal
       && row.value.error == Some(expected) then
      Some(row.value.(state := Queued, claimToken := None, effectStarted := false, replaySafe := false, error := None))
    else row
  }

  // ----- `_recover_interrupted_claims`

  predicate UnsafeInterrupted(row: Command) {
    row.state == Processing && row.effectStarted && !row.replaySafe
  }

  function RecoverCommand(row: Command): Command
  {
    if row.state != Processing then row
    else if row.effectStarted && !row.replaySafe then
      row.(state := FailedTerminal, claimToken := None, error := Some(UncertainOutcome(row.taskId)))
    else
      row.(state := Queued, claimToken := None, effectStarted := false)
  }

  function ReleaseIfProcessing(row: Command): Command
  {
    if row.state == Processing then row.(state := Queued, claimToken := None, effectStarted := false) else row
  }

  /** The first half of the sweep, row by row: an unsafe interrupted claim ends with the uncertain error. */
  method FailUnsafeClaims(table: map<CommandKey, Command>) returns (swept: map<CommandKey, Command>)
    ensures swept.Keys == table.Keys
    ensures forall k :: k in table ==>
                          swept[k] == if UnsafeInterrupted(table[k]) then RecoverCommand(table[k]) else table[k]
  {
    swept := table;
    var interrupted := set k | k in table && UnsafeInterrupted(table[k]);
    while interrupted != {}
      invariant swept.Keys == table.Keys
      invariant forall k :: k in interrupted ==> k in table && UnsafeInterrupted(table[k])
      invariant forall k :: k in table ==>
                              swept[k] == if UnsafeInterrupted(table[k]) && k !in interrupted then RecoverCommand(table[k])
                                          else table[k]
      decreases interrupted
    {
      var k :| k in interrupted;
      var row := swept[k];
      swept := swept[k := row.(state := FailedTerminal, claimToken := None, error := Some(UncertainOutcome(row.taskId)))];
      interrupted := interrupted - {k};
    }
  }

  predicate SameCommand(a: Command, b: Command) {
    && a.operation == b.operation
    && a.target == b.target
    && a.requestHash == b.requestHash
    && a.taskId == b.taskId
    && a.mailboxMessageId == b.mailboxMessageId
  }

  /** Shape every stored command has: a token exactly while it is processed, a response or error once settled. */
  predicate WellFormed(row: Command) {
    && (row.state == Processing <==> row.claimToken.Some?)
    && (row.state == Succeeded ==> row.response.Some?)
    && (row.state == FailedTerminal ==> row.error.Some?)
  }

  /** One durable step of a command: identity is fixed and a success is final. */
  predicate Evolves(a: Command, b: Command) {
    && SameCommand(a, b)
    && (a.state == Succeeded ==> b == a)
  }

  datatype CommandOp =
    | DoClaim(request: ClaimRequest, token: nat)
    | DoComplete(token: nat, response: string)
    | DoMark(token: nat, replaySafe: bool)
    | DoFail(token: nat, error: GatewayError)
    | DoRelease(token: nat)
    | DoReleaseNotDispatched(token: nat)
    | DoReopen(expected: GatewayError)
    | DoRecover

  function ApplyOp(row: Command, op: CommandOp): Command
  {
    match op
    case DoClaim(request, token) =>
      var r := ClaimCommand(Some(row), request, token);
      if r.Ok? then r.value.0 else row
    case DoComplete(token, response) => OkOr(CompleteCommand(Some(row), token, response), row)
    case DoMark(token, safe) => OkOr(MarkEffectStarted(Some(row), token, safe), row)
    case DoFail(token, error) => OkOr(FailCommand(Some(row), token, error), row)
    case DoRelease(token) => ReleaseCommand(Some(row), token).value
    case DoReleaseNotDispatched(token) => OkOr(ReleaseNotDispatched(Some(row), token), row)
    case DoReopen(expected) => ReopenNotDispatched(Some(row), expected).value
    case DoRecover => RecoverCommand(row)
  }

  function OkOr(r: Result<Command, CommandError>, row: Command): Command {
    if r.Ok? then r.value else row
  }

  function ApplyOps(row: Command, ops: seq<CommandOp>): Command
    decreases |ops|
  {
    if ops == [] then row else ApplyOps(ApplyOp(row, ops[0]), ops[1..])
  }

  lemma OpEvolves(row: Command, op: CommandOp)
    requires WellFormed(row)
    ensures WellFormed(ApplyOp(row, op)) && Evolves(row, ApplyOp(row, op))
  {
  }

  /** Over any history a command keeps its identity, and a success keeps its response for ever. */
  lemma {:induction false} CommandHistory(row: Command, ops: seq<CommandOp>)
    requires WellFormed(row)
    ensures WellFormed(ApplyOps(row, ops))
    ensures SameCommand(row, ApplyOps(row, ops))
    ensures row.state == Succeeded ==> ApplyOps(row, ops) == row
    decreases |ops|
  {
    if ops == [] {
    } else {
      OpEvolves(row, ops[0]);
      CommandHistory(ApplyOp(row, ops[0]), ops[1..]);
    }
  }

  /** A claim token is exclusive: no operation under another token changes a processed command. */
  lemma TokenFences(row: Command, token: nat, op: CommandOp)
    requires HeldBy(Some(row), token)
    requires match op
             case DoComplete(t, _) => t != token
             case DoMark(t, _) => t != token
             case DoFail(t, _) => t != token
             case DoRelease(t) => t != token
             case DoReleaseNotDispatched(t) => t != token
             case DoRecover => false
             case _ => true
    ensures ApplyOp(row, op) == row
  {
  }

  // ----- the store

  class GatewayCommandStore {
    var rows: map<CommandKey, Command>

    ghost function At(key: CommandKey): Option<Command>
      reads this
    {
      if key in rows then Some(rows[key]) else None
    }

    ghost predicate Valid()
      reads this
    {
      forall k :: k in rows ==> WellFormed(rows[k])
    }

    /** Opening the store settles the claims the previous process left behind. */
    constructor (table: map<CommandKey, Command>)
      requires forall k :: k in table ==> WellFormed(table[k])
      ensures Valid()
      ensures rows == map k | k in table :: RecoverCommand(table[k])
    {
      var failed := FailUnsafeClaims(table);
      rows := map k | k in failed :: ReleaseIfProcessing(failed[k]);
    }

    method ClaimFor(key: CommandKey, request: ClaimRequest, token: nat) returns (r: Result<Claim, CommandError>)
      requires Valid()
      modifies this
      ensures Valid()
      ensures var spec := ClaimCommand(old(At(key)), request, token);
              && r.Ok? == spec.Ok?
              && (spec.Ok? ==> r.value == spec.value.1 && rows == old(rows)[key := spec.value.0])
              && (spec.Err? ==> r.error == spec.error && rows == old(rows))
    {
      if key !in rows {
        var row := Command(request.operation, request.target, request.requestHash, Processing, request.proposedTaskId,
                           request.proposedMailboxMessageId, Some(token), None, None, false, true);
        rows := rows[key := row];
        return Ok(Acquired(request.proposedTaskId, token));
      }
      var row := rows[key];
      assert rows == rows[key := row];
      if row.operation != request.operation || row.target != request.target || row.requestHash != request.requestHash {
        return Err(Conflict);
      }
      if row.state == Succeeded {
        if row.response.value == "" {
          return Err(InvalidState);
        }
        return Ok(Replay(row.taskId, row.response.value));
      }
      if row.state == FailedTerminal {
        return Ok(Terminal(row.taskId, row.error.value));
      }
      if row.state == Processing {
        return Ok(Busy(row.taskId));
      }
      rows := rows[key := row.(state := Processing, claimToken := Some(token))];
      return Ok(Acquired(row.taskId, token));
    }

    method Complete(key: CommandKey, token: nat, response: string) returns (owned: bool)
      requires Valid()
      modifies this
      ensures Valid()
      ensures var spec := CompleteCommand(old(At(key)), token, response);
              owned == spec.Ok? && rows == if spec.Ok? then old(rows)[key := spec.value] else old(rows)
    {
      owned := key in rows && rows[key].state == Processing && rows[key].claimToken == Some(token);
      if owned {
        rows := rows[key := rows[key].(state := Succeeded, response := Some(response), claimToken := None, error := None)];
      }
    }

    method MarkStarted(key: CommandKey, token: nat, replaySafe: bool) returns (owned: bool)
      requires Valid()
      modifies this
      ensures Valid()
      ensures var spec := MarkEffectStarted(old(At(key)), token, replaySafe);
              owned == spec.Ok? && rows == if spec.Ok? then old(rows)[key := spec.value] else old(rows)
    {
      owned := key in rows && rows[key].state == Processing && rows[key].claimToken == Some(token);
      if owned {
        rows := rows[key := rows[key].(effectStarted := true, replaySafe := replaySafe)];
      }
    }

    method Fail(key: CommandKey, token: nat, error: GatewayError) returns (owned: bool)
      requires Valid()
      modifies this
      ensures Valid()
      ensures var spec := FailCommand(old(At(key)), token, error);
              owned == spec.Ok? && rows == if spec.Ok? then old(rows)[key := spec.value] else old(rows)
    {
      owned := key in rows && rows[key].state == Processing && rows[key].claimToken == Some(token);
      if owned {
        rows := rows[key := rows[key].(state := FailedTerminal, error := Some(error), claimToken := None)];
      }
    }

    method Release(key: CommandKey, token: nat)
      requires Valid()
      modifies this
      ensures Valid()
      ensures rows == if key in old(rows) then old(rows)[key := ReleaseCommand(old(At(key)), token).value] else old(rows)
    {
      if key in rows {
        assert rows == rows[key := rows[key]];
        if rows[key].state == Processing && rows[key].claimToken == Some(token)
           && !(rows[key].effectStarted && !rows[key].replaySafe) {
          rows := rows[key := rows[key].(state := Queued, claimToken := None, effectStarted := false)];
        }
      }
    }

    method ReleaseUndispatched(key: CommandKey, token: nat) returns (owned: bool)
      requires Valid()
      modifies this
      ensures Valid()
      ensures var spec := ReleaseNotDispatched(old(At(key)), token);
              owned == spec.Ok? && rows == if spec.Ok? then old(rows)[key := spec.value] else old(rows)
    {
      owned := key in rows && rows[key].operation == CREATE_TASK && rows[key].state == Processing
               && rows[key].claimToken == Some(token);
      if owned {
        rows := rows[key := rows[key].(state := Queued, claimToken := None, effectStarted := false,
                            replaySafe := false, error := None)];
      }
    }

    method Reopen(key: CommandKey, expected: GatewayError) returns (reopened: bool)
      requires Valid()
      modifies this
      ensures Valid()
      ensures reopened == (key in old(rows) && ReopenNotDispatched(old(At(key)), expected) != old(At(key)))
      ensures rows == if key in old(rows) then old(rows)[key := ReopenNotDispatched(old(At(key)), expected).value] else old(rows)
    {
      reopened := key in rows && rows[key].operation == CREATE_TASK && rows[key].state == FailedTerminal
                  && rows[key].error == Some(expected);
      if reopened {
        rows := rows[key := rows[key].(state := Queued, claimToken := None, effectStarted := false,
                            replaySafe := false, error := None)];
      } else if key in rows {
        assert rows == rows[key := rows[key]];
      }
    }
  }
}
