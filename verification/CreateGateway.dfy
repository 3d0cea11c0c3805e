/**
 The whole Gateway: one slot per idempotency key over the same two databases.
 Keys own disjoint rows, because every key's Task id is a new one, so they
 interleave freely; a crash and the recovery sweeps hit all of them at once.
 */
module CreateGateway {
  import opened Common
  import opened CreateProtocol
  import opened CreateAssertions
  import opened CreateTheorems
  import R = RouteLedger
  import C = CommandLedger

  type Gateway = map<C.CommandKey, Slot>

  datatype GatewayEvent =
    | OnKey(key: C.CommandKey, event: Event)
    | Everywhere(event: Event)

  predicate IsGlobal(e: Event) {
    e.Crash? || e.SweepRoutes? || e.SweepCommands?
  }

  function SlotOf(g: Gateway, key: C.CommandKey): Slot {
    if key in g then g[key] else FreshSlot
  }

  /** A key's first use happens while the Gateway is up; until then its slot is fresh. */
  function ApplyGateway(g: Gateway, e: GatewayEvent): Option<Gateway>
  {
    match e
    case OnKey(key, event) =>
      if IsGlobal(event) || (key !in g && exists k :: k in g && g[k].phase != Up) then None
      else (match Apply(SlotOf(g, key), event)
            case None => None
            case Some(s) => Some(g[key := s]))
    case Everywhere(event) =>
      if !IsGlobal(event) || exists k :: k in g && Apply(g[k], event).None? then None
      else Some(map k | k in g :: Apply(g[k], event).value)
  }

  function ReplayGateway(g: Gateway, events: seq<GatewayEvent>): Option<Gateway>
    decreases |events|
  {
    if events == [] then Some(g)
    else
      match ApplyGateway(g, events[0])
      case None => None
      case Some(g') => ReplayGateway(g', events[1..])
  }

  predicate AllOk(g: Gateway) {
    forall k :: k in g ==> SlotOk(g[k])
  }

  lemma GatewayStepKeeps(g: Gateway, e: GatewayEvent)
    requires AllOk(g) && ApplyGateway(g, e).Some?
    ensures AllOk(ApplyGateway(g, e).value)
  {
    var g' := ApplyGateway(g, e).value;
    forall k | k in g' ensures SlotOk(g'[k]) {
      if e.Everywhere? {
        assert Apply(g[k], e.event).Some?;
        ApplyKeeps(g[k], e.event);
      } else if k == e.key {
        assert SlotOk(SlotOf(g, k));
        ApplyKeeps(SlotOf(g, k), e.event);
      }
    }
  }

  /**
   For every key at once, in every run of the Gateway from an empty database: at
   most one effect where replay is forbidden, a success only with its effect,
   and a refused `never` route only without one.
   */
  lemma {:induction false} EveryKeyIsSafe(g: Gateway, events: seq<GatewayEvent>)
    requires AllOk(g) && ReplayGateway(g, events).Some?
    ensures AllOk(ReplayGateway(g, events).value)
    ensures forall k :: k in ReplayGateway(g, events).value ==> Safe(ReplayGateway(g, events).value[k].sh)
    decreases |events|
  {
    if events == [] {
    } else {
      GatewayStepKeeps(g, events[0]);
      EveryKeyIsSafe(ApplyGateway(g, events[0]).value, events[1..]);
    }
  }

  predicate Safe(sh: Shared) {
    && (Guarded(sh) ==> sh.sends <= 1)
    && (Guarded(sh) && ReadsReserved(sh) ==> sh.sends == 0)
    && (sh.command.Some? && sh.command.value.state == C.Succeeded ==> Effective(sh) && Bound(sh))
    && (NeverRemote(sh) && InState(sh, R.Failed) ==> sh.accepted == 0)
  }
}
