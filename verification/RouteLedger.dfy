/**
 The Gateway route ledger: one row per public Task id, each store method one
 atomic guarded update.  The transactions are functions on one row, the class
 `GatewayRouteStore` runs them on the whole table.
 */
module RouteLedger {
  import opened Common

  datatype RouteKind = Local | RemoteRef

  datatype RouteState = Pending | Active | Failed | Uncertain

  datatype KeyScope = NoKey | External | Generated | LegacyScope

  datatype ReplayPolicy = Never | LocalTaskIdentity | RuyiGatewayV1 | LegacyPolicy

  datatype Boundary = Reserved | Started | LegacyBoundary

  datatype Evidence = Evidence(scope: KeyScope, policy: ReplayPolicy, boundary: Boundary)
  {
    predicate PermitsRemoteReplay() {
      scope == External && policy == RuyiGatewayV1 && boundary == Started
    }
  }

  datatype Route = Route(
    taskId: string,
    agent: string,
    metadata: string,
    kind: RouteKind,
    upstream: Option<string>,
    webhook: Option<string>,
    state: RouteState,
    error: Option<string>)

  datatype Row = Row(route: Route, evidence: Evidence)

  datatype StoreError = BindingConflict | IllegalTransition | UnboundActive | MissingRow | GuardRejected

  /** The truth value the store gives an upstream id. */
  predicate Truthy(id: Option<string>) {
    id.Some? && id.value != ""
  }

  /** What SQL sees as a blank upstream id: NULL, empty, or only spaces. */
  predicate Blank(id: Option<string>) {
    id.None? || forall i :: 0 <= i < |id.value| ==> id.value[i] == ' '
  }

  predicate ActiveBindingOk(route: Route) {
    !(route.state == Active && route.kind == RemoteRef && !Truthy(route.upstream))
  }

  predicate AllowedTransition(before: RouteState, after: RouteState) {
    match before
    case Pending => true
    case Active => after == Active || after == Uncertain
    case Failed => after == Failed
    case Uncertain => after == Uncertain
  }

  /** `create_evidence_policy`: key scope and replay policy of a new reservation. */
  function CreateEvidencePolicy(kind: RouteKind, externalKey: bool, remoteReplaySafe: bool): (KeyScope, ReplayPolicy)
  {
    var scope := if externalKey then External else if remoteReplaySafe then Generated else NoKey;
    if kind == Local then (scope, LocalTaskIdentity)
    else (scope, if remoteReplaySafe then RuyiGatewayV1 else Never)
  }

  // ----- one-row transactions

  /** `save_route`: insert, or update under the binding and transition guards. */
  function SaveRoute(row: Option<Row>, route: Route): Result<Row, StoreError>
  {
    if !ActiveBindingOk(route) then Err(UnboundActive)
    else match row
      case None => Ok(Row(route, Evidence(LegacyScope, LegacyPolicy, LegacyBoundary)))
      case Some(cur) =>
        if cur.route.agent != route.agent || cur.route.kind != route.kind then Err(BindingConflict)
        else if !AllowedTransition(cur.route.state, route.state) then Err(IllegalTransition)
        else if cur.route.upstream.Some? && route.upstream.Some? && cur.route.upstream != route.upstream then
          Err(BindingConflict)
        else
          Ok(cur.(route := cur.route.(
                    metadata := route.metadata,
                    webhook := route.webhook,
                    upstream := if route.upstream.Some? then route.upstream else cur.route.upstream,
                    state := route.state,
                    error := route.error)))
  }

  /** `reserve_route`: keep an existing row of the same binding, else insert a pending one. */
  function ReserveRoute(row: Option<Row>, route: Route, scope: KeyScope, policy: ReplayPolicy): Result<Row, StoreError>
  {
    match row
    case Some(cur) =>
      if !ActiveBindingOk(cur.route) then Err(UnboundActive)
      else if cur.route.agent != route.agent || cur.route.kind != route.kind then Err(BindingConflict)
      else Ok(cur)
    case None =>
      Ok(Row(
           route.(upstream := if route.kind == Local then Some(route.taskId) else None,
                  state := Pending,
                  error := None),
           Evidence(scope, policy, Reserved)))
  }

  /** `mark_create_effect_started`. */
  function MarkCreateEffectStarted(row: Option<Row>): Result<Row, StoreError>
  {
    if row.Some? && row.value.route.state == Pending && row.value.evidence.boundary in {Reserved, Started} then
      Ok(row.value.(evidence := row.value.evidence.(boundary := Started)))
    else Err(GuardRejected)
  }

  /** `restore_create_not_dispatched`. */
  function RestoreCreateNotDispatched(row: Option<Row>): Result<Row, StoreError>
  {
    if row.Some? && row.value.route.state == Pending && row.value.evidence.boundary == Started then
      Ok(row.value.(evidence := row.value.evidence.(boundary := Reserved),
                    route := row.value.route.(error := None)))
    else Err(GuardRejected)
  }

  /** `transition_route`: the guards run against the row as it is now, not against the caller's copy. */
  function TransitionRoute(row: Option<Row>, state: RouteState, upstream: Option<string>, error: Option<string>): Result<Row, StoreError>
  {
    if row.None? then Err(MissingRow)
    else
      var route := row.value.route;
      if !ActiveBindingOk(route) then Err(UnboundActive)
      else if route.upstream.Some? && upstream.Some? && route.upstream != upstream then Err(BindingConflict)
      else
        SaveRoute(row, route.(
                    upstream := if Truthy(upstream) then upstream else route.upstream,
                    state := state,
                    error := error))
  }

  /** `create_not_dispatched_is_durable` on one consistent row. */
  predicate NotDispatchedIsDurable(row: Option<Row>, agent: string)
  {
    && row.Some?
    && row.value.route.agent == agent
    && row.value.route.state == Pending
    && row.value.evidence.boundary == Reserved
  }

  // ----- the recovery sweep of `_init_db`, one function per UPDATE

  function SettleUnboundActive(row: Row): Row
  {
    if row.route.kind == RemoteRef && row.route.state == Active && Blank(row.route.upstream) then
      row.(route := row.route.(
             state := Uncertain,
             error := if row.route.error.Some? then row.route.error
             else Some("Remote route has no durable upstream binding")))
    else row
  }

  function DropPlaceholderUpstream(row: Row): Row
  {
    if row.route.kind == RemoteRef && row.route.state != Active && row.route.upstream == Some(row.route.taskId) then
      row.(route := row.route.(upstream := None))
    else row
  }

  function SettleInterruptedRemote(row: Row): Row
  {
    if row.route.kind == RemoteRef && row.route.state == Pending && row.evidence.boundary != Reserved
       && !row.evidence.PermitsRemoteReplay() then
      row.(route := row.route.(state := Uncertain, error := Some("Remote Task creation was interrupted")))
    else row
  }

  function RecoverRow(row: Row): Row
  {
    SettleInterruptedRemote(DropPlaceholderUpstream(SettleUnboundActive(row)))
  }

  // ----- what every transaction keeps

  predicate SameIdentity(a: Row, b: Row) {
    && a.route.taskId == b.route.taskId
    && a.route.agent == b.route.agent
    && a.route.kind == b.route.kind
    && a.evidence.scope == b.evidence.scope
    && a.evidence.policy == b.evidence.policy
  }

  /**
   One durable step of a row: its identity and policy stay, its state moves only
   along the allowed transitions, a bound id is never replaced by another one,
   nor lost while the route stays active, and a settled row keeps its evidence.
   */
  predicate Evolves(a: Row, b: Row) {
    && SameIdentity(a, b)
    && AllowedTransition(a.route.state, b.route.state)
    && (a.route.upstream.Some? && b.route.upstream.Some? ==> a.route.upstream == b.route.upstream)
    && (a.route.state == Active && b.route.state == Active ==> a.route.upstream == b.route.upstream || !Truthy(a.route.upstream))
    && (a.route.state != Pending ==> b.evidence == a.evidence)
  }

  lemma TransitionEvolves(row: Row, state: RouteState, upstream: Option<string>, error: Option<string>)
    requires TransitionRoute(Some(row), state, upstream, error).Ok?
    ensures Evolves(row, TransitionRoute(Some(row), state, upstream, error).value)
    ensures TransitionRoute(Some(row), state, upstream, error).value.route.state == state
    ensures TransitionRoute(Some(row), state, upstream, error).value.evidence == row.evidence
    ensures ActiveBindingOk(TransitionRoute(Some(row), state, upstream, error).value.route)
  {
  }

  /**
   Every transaction of the store, and the sweep of a restart, moves a row along
   `Evolves`; so over any sequence of them a failed or uncertain route stays
   what it is and an active remote route keeps its upstream id.
   */
  datatype RouteOp =
    | Save(route: Route)
    | Reserve(request: Route, scope: KeyScope, policy: ReplayPolicy)
    | MarkStarted
    | Restore
    | Transition(state: RouteState, upstream: Option<string>, error: Option<string>)
    | Recover

  function ApplyOp(row: Row, op: RouteOp): Row
  {
    match op
    case Save(route) => OkOr(SaveRoute(Some(row), route), row)
    case Reserve(request, scope, policy) => OkOr(ReserveRoute(Some(row), request, scope, policy), row)
    case MarkStarted => OkOr(MarkCreateEffectStarted(Some(row)), row)
    case Restore => OkOr(RestoreCreateNotDispatched(Some(row)), row)
    case Transition(state, upstream, error) => OkOr(TransitionRoute(Some(row), state, upstream, error), row)
    case Recover => RecoverRow(row)
  }

  function OkOr(r: Result<Row, StoreError>, row: Row): Row {
    if r.Ok? then r.value else row
  }

  function ApplyOps(row: Row, ops: seq<RouteOp>): Row
    decreases |ops|
  {
    if ops == [] then row else ApplyOps(ApplyOp(row, ops[0]), ops[1..])
  }

  lemma OpEvolves(row: Row, op: RouteOp)
    ensures Evolves(row, ApplyOp(row, op))
  {
  }

  lemma {:induction false} LedgerHistory(row: Row, ops: seq<RouteOp>)
    ensures SameIdentity(row, ApplyOps(row, ops))
    ensures row.route.state in {Failed, Uncertain} ==> ApplyOps(row, ops).route.state == row.route.state
    ensures row.route.state == Active ==> ApplyOps(row, ops).route.state in {Active, Uncertain}
    ensures row.route.state == Active && Truthy(row.route.upstream) && ApplyOps(row, ops).route.state == Active ==>
              ApplyOps(row, ops).route.upstream == row.route.upstream
    decreases |ops|
  {
    if ops == [] {
    } else {
      OpEvolves(row, ops[0]);
      LedgerHistory(ApplyOp(row, ops[0]), ops[1..]);
    }
  }

  /** Scope and policy are fixed at the reservation; once the route is settled, so is the boundary. */
  lemma {:induction false} EvidenceIsFinal(row: Row, ops: seq<RouteOp>)
    ensures var later := ApplyOps(row, ops).evidence;
            later.scope == row.evidence.scope && later.policy == row.evidence.policy
            && (row.route.state != Pending ==> later == row.evidence)
    decreases |ops|
  {
    if ops != [] {
      OpEvolves(row, ops[0]);
      EvidenceIsFinal(ApplyOp(row, ops[0]), ops[1..]);
    }
  }

  /** The sweep settles every interrupted row at once: running it again changes nothing. */
  lemma RecoverySettles(row: Row)
    ensures RecoverRow(RecoverRow(row)) == RecoverRow(row)
    ensures RecoverRow(row).route.kind == RemoteRef && RecoverRow(row).route.state == Pending ==>
              RecoverRow(row).evidence.boundary == Reserved || RecoverRow(row).evidence.PermitsRemoteReplay()
    ensures ActiveBindingOk(RecoverRow(row).route)
    ensures NotDispatchedIsDurable(Some(row), row.route.agent) ==> NotDispatchedIsDurable(Some(RecoverRow(row)), row.route.agent)
  {
  }

  // ----- the store

  /** The sweep as the store runs it: one UPDATE over the whole table after the other. */
  method SweepTable(table: map<string, Row>) returns (swept: map<string, Row>)
    ensures swept == map t | t in table :: RecoverRow(table[t])
    ensures forall t :: t in swept ==> ActiveBindingOk(swept[t].route) && swept[t].route.taskId == table[t].route.taskId
  {
    swept := map t | t in table :: SettleUnboundActive(table[t]);
    swept := map t | t in swept :: DropPlaceholderUpstream(swept[t]);
    swept := map t | t in swept :: SettleInterruptedRemote(swept[t]);
    forall t | t in swept ensures ActiveBindingOk(swept[t].route) && swept[t].route.taskId == table[t].route.taskId {
      RecoverySettles(table[t]);
    }
  }

  class GatewayRouteStore {
    var rows: map<string, Row>

    ghost function At(taskId: string): Option<Row>
      reads this
    {
      if taskId in rows then Some(rows[taskId]) else None
    }

    ghost predicate Valid()
      reads this
    {
      forall t :: t in rows ==> rows[t].route.taskId == t && ActiveBindingOk(rows[t].route)
    }

    /** Opening the store on a durable table runs the recovery sweep over every row. */
    constructor (table: map<string, Row>)
      requires forall t :: t in table ==> table[t].route.taskId == t
      ensures Valid()
      ensures rows == map t | t in table :: RecoverRow(table[t])
    {
      var swept := SweepTable(table);
      rows := swept;
    }

    method Get(taskId: string) returns (route: Option<Route>)
      requires Valid()
      ensures route == if taskId in rows then Some(rows[taskId].route) else None
    {
      if taskId in rows {
        route := Some(rows[taskId].route);
      } else {
        route := None;
      }
    }

    /** The evidence; its scope and policy hold for good, and all of it does once the route is settled. */
    method GetCreateEvidence(taskId: string) returns (evidence: Option<Evidence>)
      requires Valid()
      ensures evidence.Some? <==> taskId in rows
      ensures evidence.Some? ==> evidence.value == rows[taskId].evidence
      ensures evidence.Some? ==> forall ops :: evidence.value.scope == ApplyOps(rows[taskId], ops).evidence.scope
                                                && evidence.value.policy == ApplyOps(rows[taskId], ops).evidence.policy
      ensures evidence.Some? && rows[taskId].route.state != Pending ==>
                forall ops :: ApplyOps(rows[taskId], ops).evidence == evidence.value
    {
      if taskId !in rows {
        return None;
      }
      evidence := Some(rows[taskId].evidence);
      forall ops ensures evidence.value.scope == ApplyOps(rows[taskId], ops).evidence.scope
                         && evidence.value.policy == ApplyOps(rows[taskId], ops).evidence.policy
                         && (rows[taskId].route.state != Pending ==> ApplyOps(rows[taskId], ops).evidence == evidence.value)
      {
        EvidenceIsFinal(rows[taskId], ops);
      }
    }

    /** Two reads of the row, with nothing in between here; `CreateProtocol` interleaves them. */
    method CreateNotDispatchedIsDurable(taskId: string, agent: string) returns (durable: bool)
      requires Valid()
      ensures durable <==> NotDispatchedIsDurable(At(taskId), agent)
    {
      var route := Get(taskId);
      var evidence := GetCreateEvidence(taskId);
      durable := route.Some? && route.value.agent == agent && route.value.state == Pending
                 && evidence.Some? && evidence.value.boundary == Reserved;
    }

    method Save(route: Route) returns (r: Result<(), StoreError>)
      requires Valid()
      modifies this
      ensures Valid()
      ensures var spec := SaveRoute(old(At(route.taskId)), route);
              r.Ok? == spec.Ok? && rows == (if spec.Ok? then old(rows)[route.taskId := spec.value] else old(rows))
    {
      if route.state == Active && route.kind == RemoteRef && !Truthy(route.upstream) {
        return Err(UnboundActive);
      }
      if route.taskId !in rows {
        rows := rows[route.taskId := Row(route, Evidence(LegacyScope, LegacyPolicy, LegacyBoundary))];
        return Ok(());
      }
      var existing := rows[route.taskId];
      if (existing.route.agent, existing.route.kind) != (route.agent, route.kind) {
        return Err(BindingConflict);
      }
      if !AllowedTransition(existing.route.state, route.state) {
        return Err(IllegalTransition);
      }
      if existing.route.upstream.Some? && route.upstream.Some? && existing.route.upstream != route.upstream {
        return Err(BindingConflict);
      }
      var upstream := existing.route.upstream;
      if route.upstream.Some? {
        upstream := route.upstream;
      }
      var updated := route.(taskId := existing.route.taskId, upstream := upstream);
      rows := rows[route.taskId := existing.(route := updated)];
      return Ok(());
    }

    method ReserveCreate(route: Route, scope: KeyScope, policy: ReplayPolicy) returns (r: Result<Route, StoreError>)
      requires Valid()
      modifies this
      ensures Valid()
      ensures var spec := ReserveRoute(old(At(route.taskId)), route, scope, policy);
              && r.Ok? == spec.Ok?
              && (spec.Ok? ==> r.value == spec.value.route && rows == old(rows)[route.taskId := spec.value])
              && (spec.Err? ==> rows == old(rows))
    {
      if route.taskId in rows {
        var existing := rows[route.taskId].route;
        if existing.agent != route.agent || existing.kind != route.kind {
          return Err(BindingConflict);
        }
        assert rows == rows[route.taskId := rows[route.taskId]];
        return Ok(existing);
      }
      var upstream: Option<string> := None;
      if route.kind == Local {
        upstream := Some(route.taskId);
      }
      var reservation := route.(upstream := upstream, state := Pending, error := None);
      rows := rows[route.taskId := Row(reservation, Evidence(scope, policy, Reserved))];
      return Ok(reservation);
    }

    method MarkEffectStarted(taskId: string) returns (r: Result<Evidence, StoreError>)
      requires Valid()
      modifies this
      ensures Valid()
      ensures var spec := MarkCreateEffectStarted(old(At(taskId)));
              && r.Ok? == spec.Ok?
              && (spec.Ok? ==> r.value == spec.value.evidence && rows == old(rows)[taskId := spec.value])
              && (spec.Err? ==> rows == old(rows))
    {
      if taskId !in rows || rows[taskId].route.state != Pending || rows[taskId].evidence.boundary == LegacyBoundary {
        return Err(GuardRejected);
      }
      var evidence := rows[taskId].evidence.(boundary := Started);
      rows := rows[taskId := rows[taskId].(evidence := evidence)];
      return Ok(evidence);
    }

    method RestoreNotDispatched(taskId: string) returns (r: Result<Route, StoreError>)
      requires Valid()
      modifies this
      ensures Valid()
      ensures var spec := RestoreCreateNotDispatched(old(At(taskId)));
              && r.Ok? == spec.Ok?
              && (spec.Ok? ==> r.value == spec.value.route && rows == old(rows)[taskId := spec.value])
              && (spec.Err? ==> rows == old(rows))
    {
      if taskId !in rows || rows[taskId].route.state != Pending || rows[taskId].evidence.boundary != Started {
        return Err(GuardRejected);
      }
      var row := rows[taskId];
      rows := rows[taskId := Row(row.route.(error := None), row.evidence.(boundary := Reserved))];
      return Ok(rows[taskId].route);
    }

    method Transition(taskId: string, state: RouteState, upstream: Option<string>, error: Option<string>)
      returns (r: Result<Route, StoreError>)
      requires Valid()
      modifies this
      ensures Valid()
      ensures var spec := TransitionRoute(old(At(taskId)), state, upstream, error);
              && r.Ok? == spec.Ok?
              && (spec.Ok? ==> r.value == spec.value.route && rows == old(rows)[taskId := spec.value])
              && (spec.Err? ==> rows == old(rows))
    {
      var found := Get(taskId);
      if found.None? {
        return Err(MissingRow);
      }
      var route := found.value;
      if route.upstream.Some? && upstream.Some? && route.upstream != upstream {
        return Err(BindingConflict);
      }
      if Truthy(upstream) {
        route := route.(upstream := upstream);
      }
      route := route.(state := state, error := error);
      var saved := Save(route);
      if saved.Err? {
        return Err(saved.error);
      }
      return Ok(route);
    }
  }
}
