/**
 The store object over many deliveries: each method updates the rows in place
 and is proved against the transaction of the delivery ledger it performs.
 */
module ChannelDeliveryStores {
  import opened Common
  import opened DeliveryLedger

  type IntentId = nat

  class ChannelDeliveryStore {
    var rows: map<IntentId, Row>
    var delivered: map<IntentId, set<Step>>

    ghost predicate Valid()
      reads this
    {
      rows.Keys == delivered.Keys
    }

    constructor ()
      ensures Valid() && rows == map[]
    {
      rows, delivered := map[], map[];
    }

    function At(id: IntentId): (l: Ledger)
      requires Valid() && id in rows
      reads this
    {
      Ledger(rows[id], delivered[id])
    }

    /** The whole state after `op` on one delivery; an unknown identity changes nothing. */
    twostate predicate Did(id: IntentId, op: Op, now: real, ok: bool)
      requires old(Valid())
      reads this
    {
      Valid() && rows.Keys == old(rows.Keys)
      && (forall other :: other in rows && other != id ==> At(other) == old(At(other)))
      && (id in rows ==> At(id) == Apply(old(At(id)), op, now) && ok == Applies(old(rows[id]), op, now))
      && (id !in rows ==> !ok)
    }

    /** An existing delivery keeps everything; a new one starts unleased. */
    method EnsureWatch(id: IntentId, run: nat)
      requires Valid()
      modifies this
      ensures Valid() && rows.Keys == old(rows.Keys) + {id}
      ensures forall other :: other in old(rows) ==> At(other) == old(At(other))
      ensures id !in old(rows) ==> At(id) == Ledger(NewRow(run), {})
    {
      if id !in rows {
        rows, delivered := rows[id := NewRow(run)], delivered[id := {}];
      }
    }

    method Get(id: IntentId) returns (row: Option<Row>)
      requires Valid()
      ensures row.Some? <==> id in rows
      ensures row.Some? ==> row.value == At(id).row
    {
      row := if id in rows then Some(rows[id]) else None;
    }

    method StepDelivered(id: IntentId, step: Step) returns (found: bool)
      requires Valid()
      ensures found <==> id in rows && step in At(id).steps
    {
      found := id in delivered && step in delivered[id];
    }

    /** A fresh token when the claim succeeds. */
    method ClaimLease(id: IntentId, owner: Owner, fresh_: Token, lease: real, now: real) returns (token: Option<Token>)
      requires Valid()
      modifies this
      ensures token == None || token == Some(fresh_)
      ensures Did(id, Claim(owner, fresh_, lease), now, token.Some?)
    {
      token := None;
      if id in rows && !Final(rows[id].state) && Claimable(rows[id], owner, now) {
        var row := rows[id];
        rows := rows[id := row.(owner := Some(owner), token := Some(fresh_), until := Some(now + lease), fence := row.fence + 1)];
        token := Some(fresh_);
      }
    }

    /** Read the row, then update it under the fence it was read with. */
    method ClaimDue(id: IntentId, owner: Owner, fresh_: Token, lease: real, now: real) returns (token: Option<Token>)
      requires Valid()
      modifies this
      ensures token == None || token == Some(fresh_)
      ensures Did(id, ClaimDueError(owner, fresh_, lease), now, token.Some?)
    {
      token := None;
      if id !in rows {
        return;
      }
      var row := rows[id];
      if row.state != Failed || row.nextAt.None? {
        return;
      }
      if row.nextAt.value > now {
        return;
      }
      if row.owner.Some? && row.owner != Some(owner) && row.until.Some? && row.until.value > now {
        return;
      }
      rows := rows[id := row.(owner := Some(owner), token := Some(fresh_), until := Some(now + lease), fence := row.fence + 1)];
      token := Some(fresh_);
    }

    method RenewLease(id: IntentId, token: Token, lease: real, now: real) returns (ok: bool)
      requires Valid()
      modifies this
      ensures Did(id, Renew(token, lease), now, ok)
    {
      ok := id in rows && Owned(rows[id], token, now);
      if ok {
        var row := rows[id];
        rows := rows[id := row.(until := Some(now + lease))];
      }
    }

    method Retry(id: IntentId, token: Token, attempt: nat, delay: real, error: string, now: real) returns (ok: bool)
      requires Valid()
      modifies this
      ensures Did(id, MarkRetry(token, attempt, delay, error), now, ok)
    {
      ok := id in rows && Owned(rows[id], token, now) && !Final(rows[id].state);
      if ok {
        var row := rows[id];
        var next := if row.state == TerminalGrace then TerminalGrace else RetryWait;
        rows := rows[id := row.(state := next, attempts := attempt, cursor := row.cursor + 1,
                                nextAt := Some(now + MaxReal(0.0, delay)), lastError := Some(error))];
      }
    }

    method Watch(id: IntentId, token: Token, now: real) returns (ok: bool)
      requires Valid()
      modifies this
      ensures Did(id, MarkWatching(token), now, ok)
    {
      ok := id in rows && Owned(rows[id], token, now) && !Final(rows[id].state);
      if ok {
        var row := rows[id];
        var next := if row.state in {ReviewWaiting, TerminalGrace} then row.state else Watching;
        rows := rows[id := row.(state := next, attempts := 0, redrives := 0, nextAt := None, lastError := None)];
      }
    }

    method StartDelivering(id: IntentId, token: Token, kind: Kind, review: Option<nat>, now: real) returns (ok: bool)
      requires Valid()
      modifies this
      ensures Did(id, MarkDelivering(token, kind, review), now, ok)
    {
      ok := id in rows && Owned(rows[id], token, now) && !Final(rows[id].state);
      if ok {
        var row := rows[id];
        rows := rows[id := row.(kind := kind, review := review, state := Delivering, attempts := 0, nextAt := None, lastError := None)];
      }
    }

    method Fail(id: IntentId, token: Token, error: string, redrive: Option<real>, now: real) returns (ok: bool)
      requires Valid()
      modifies this
      ensures Did(id, MarkError(token, error, redrive), now, ok)
    {
      ok := id in rows && Owned(rows[id], token, now) && !Final(rows[id].state);
      if ok {
        var row := rows[id];
        var nextAt := if redrive.Some? then Some(now + redrive.value) else None;
        rows := rows[id := row.(state := Failed, nextAt := nextAt, lastError := Some(error),
                                redrives := row.redrives + (if redrive.Some? then 1 else 0),
                                owner := None, token := None, until := None)];
      }
    }

    method WaitForReview(id: IntentId, token: Token, now: real) returns (ok: bool)
      requires Valid()
      modifies this
      ensures Did(id, MarkReviewWaiting(token), now, ok)
    {
      ok := id in rows && Owned(rows[id], token, now) && rows[id].state in {Delivering, ReviewWaiting};
      if ok {
        var row := rows[id];
        rows := rows[id := row.(state := ReviewWaiting, attempts := 0, nextAt := None, lastError := None)];
      }
    }

    method TerminalStepsDone(id: IntentId, token: Token, now: real) returns (ok: bool)
      requires Valid()
      modifies this
      ensures Did(id, MarkTerminalStepsDone(token), now, ok)
    {
      ok := id in rows && Owned(rows[id], token, now) && rows[id].state in {Delivering, TerminalGrace};
      if ok {
        var row := rows[id];
        rows := rows[id := row.(state := TerminalGrace, attempts := 0, nextAt := None, lastError := None)];
      }
    }

    method Deliver(id: IntentId, token: Token, now: real) returns (ok: bool)
      requires Valid()
      modifies this
      ensures Did(id, MarkDelivered(token), now, ok)
    {
      ok := id in rows && Owned(rows[id], token, now) && rows[id].state == TerminalGrace;
      if ok {
        var row := rows[id];
        rows := rows[id := row.(state := Delivered, attempts := 0, nextAt := None, lastError := None)];
      }
    }

    method Supersede(id: IntentId, token: Token, now: real) returns (ok: bool)
      requires Valid()
      modifies this
      ensures Did(id, MarkSuperseded(token), now, ok)
    {
      ok := id in rows && Owned(rows[id], token, now) && !Final(rows[id].state);
      if ok {
        var row := rows[id];
        rows := rows[id := row.(state := Superseded, owner := None, token := None, until := None)];
      }
    }

    method MarkStepDelivered(id: IntentId, token: Token, step: Step, now: real) returns (ok: bool)
      requires Valid()
      modifies this
      ensures Did(id, MarkStep(token, step), now, ok)
    {
      ok := id in rows && Owned(rows[id], token, now);
      if ok {
        var row := rows[id];
        delivered := delivered[id := delivered[id] + {step}];
        rows := rows[id := row.(cursor := row.cursor + 1)];
      }
    }

    method ReleaseLease(id: IntentId, token: Token, now: real) returns (ok: bool)
      requires Valid()
      modifies this
      ensures Did(id, Release(token), now, ok)
    {
      ok := id in rows && rows[id].token == Some(token);
      if ok {
        var row := rows[id];
        rows := rows[id := row.(owner := None, token := None, until := None)];
      }
    }

    /** Shutdown: every lease of the owner, whatever its token. */
    method ReleaseAllOf(owner: Owner, now: real)
      requires Valid()
      modifies this
      ensures Valid() && rows.Keys == old(rows.Keys)
      ensures forall id :: id in rows ==> At(id) == Apply(old(At(id)), ReleaseOwner(owner), now)
    {
      rows := map id | id in rows :: if rows[id].owner == Some(owner) then rows[id].(owner := None, token := None, until := None) else rows[id];
    }
  }
}
