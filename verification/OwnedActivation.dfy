/** Bringing an exclusive interface up: `plan_owned_interface`, `apply_owned_routes`,
    `start_owned_interface` and the owned path of `start_interface`. */
module OwnedActivation {
  import opened Wrappers
  import opened Plan
  import opened OwnedTun

  // -------------------------------------------------------------- planning

  /** The intents of some planned routes, unless one needs a gateway nobody recorded. */
  function Own(specs: seq<RouteSpec>, index: nat, gateway: Option<nat>): (owned: Option<seq<OwnedRoute>>)
    ensures owned.Some? ==> |owned.value| == |specs|
    ensures owned.Some? ==> forall i :: 0 <= i < |specs| ==> owned.value[i].route == FromSpec(specs[i])
  {
    if specs == [] then Some([])
    else
      var last := |specs| - 1;
      var rest := Own(specs[..last], index, gateway);
      var output := match specs[last].via
        case Device => Some(index)
        case Interface(i) => Some(i)
        case Gateway(_) => gateway;
      if rest.None? || output.None? then None
      else Some(rest.value + [OwnedRoute(FromSpec(specs[last]), output.value)])
  }

  predicate NeedsGateway(specs: seq<RouteSpec>) {
    exists i :: 0 <= i < |specs| && specs[i].via.Gateway?
  }

  /** The interface a route leaves through is explicit. */
  predicate IsOutput(r: OwnedRoute, index: nat, gateway: Option<nat>) {
    if r.route.gateway.Some? then Some(r.output) == gateway
    else r.output == if r.route.interface.Some? then r.route.interface.value else index
  }

  /** Only a bypass without a recorded gateway interface prevents a plan. */
  lemma {:induction false} OwnSucceeds(specs: seq<RouteSpec>, index: nat, gateway: Option<nat>)
    ensures var owned := Own(specs, index, gateway);
            && (owned.None? <==> gateway.None? && NeedsGateway(specs))
            && (owned.Some? ==> forall i :: 0 <= i < |specs| ==> IsOutput(owned.value[i], index, gateway))
  {
    if specs != [] {
      var last := |specs| - 1;
      OwnSucceeds(specs[..last], index, gateway);
      assert NeedsGateway(specs) <==> NeedsGateway(specs[..last]) || specs[last].via.Gateway? by {
        assert specs == specs[..last] + [specs[last]];
      }
    }
  }

  function WithDevice(specs: seq<RouteSpec>, device: bool): seq<RouteSpec> {
    if specs == [] then []
    else
      var last := |specs| - 1;
      WithDevice(specs[..last], device) + if specs[last].via.Device? == device then [specs[last]] else []
  }

  /** Bypasses and other fixed routes, the private table, then the captures. */
  function Ordered(plan: RoutePlan): seq<RouteSpec> {
    WithDevice(plan.system, false) + plan.private + WithDevice(plan.system, true)
  }

  function Records(specs: seq<RouteSpec>): (records: seq<RouteRecord>)
    ensures |records| == |specs|
  {
    seq(|specs|, i requires 0 <= i < |specs| => FromSpec(specs[i]))
  }

  lemma RecordsConcat(a: seq<RouteSpec>, b: seq<RouteSpec>)
    ensures Records(a + b) == Records(a) + Records(b)
  {
  }

  function RoutesOf(owned: seq<OwnedRoute>): (records: seq<RouteRecord>)
    ensures |records| == |owned|
  {
    seq(|owned|, i requires 0 <= i < |owned| => owned[i].route)
  }

  lemma {:induction false} WithDeviceMember(specs: seq<RouteSpec>, device: bool)
    ensures forall spec :: spec in WithDevice(specs, device) ==> spec in specs
  {
    if specs != [] {
      WithDeviceMember(specs[..|specs| - 1], device);
    }
  }

  /** Nothing is lost or doubled by sorting the captures last. */
  lemma {:induction false} WithDevicePartitions(specs: seq<RouteSpec>)
    ensures multiset(Records(WithDevice(specs, false))) + multiset(Records(WithDevice(specs, true)))
         == multiset(Records(specs))
  {
    if specs != [] {
      var last := |specs| - 1;
      var rest, one := specs[..last], [specs[last]];
      WithDevicePartitions(rest);
      assert specs == rest + one;
      RecordsConcat(rest, one);
      RecordsConcat(WithDevice(rest, specs[last].via.Device?), one);
      assert WithDevice(specs, !specs[last].via.Device?) == WithDevice(rest, !specs[last].via.Device?);
    }
  }

  lemma OrderedIsPermutation(plan: RoutePlan)
    ensures multiset(Records(Ordered(plan))) == multiset(Records(plan.private + plan.system))
  {
    var fixed, captures := WithDevice(plan.system, false), WithDevice(plan.system, true);
    WithDevicePartitions(plan.system);
    RecordsConcat(fixed + plan.private, captures);
    RecordsConcat(fixed, plan.private);
    RecordsConcat(plan.private, plan.system);
  }

  // ------------------------------------------------------------- the order

  datatype Kind = BypassKind | PrivateKind | CaptureKind

  function KindOf(r: OwnedRoute, table: nat): Kind {
    if r.route.table == table then PrivateKind
    else if r.route.gateway.Some? then BypassKind else CaptureKind
  }

  /** One installation of the schedule. */
  datatype Install = Route(route: OwnedRoute) | Rule(rule: RuleSpec)

  function Select(routes: seq<OwnedRoute>, kind: Kind, table: nat): (steps: seq<Install>)
    ensures forall i :: 0 <= i < |steps| ==>
              steps[i].Route? && steps[i].route in routes && KindOf(steps[i].route, table) == kind
  {
    if routes == [] then []
    else
      var last := |routes| - 1;
      Select(routes[..last], kind, table) + if KindOf(routes[last], table) == kind then [Route(routes[last])] else []
  }

  function ItemOf(step: Install, metric: nat): Item {
    match step
    case Route(route) => RouteItem(RouteMessage(route, metric))
    case Rule(rule) => RuleItem(RuleMessage(rule))
  }

  /** Installations that succeeded, then perhaps one that failed, as the kernel was asked
      for them: every one but the last succeeded. */
  function Outcomes(done: seq<Install>, failed: Option<Install>, metric: nat): seq<Attempt> {
    seq(|done|, i requires 0 <= i < |done| => Attempt(ItemOf(done[i], metric), true))
    + if failed.Some? then [Attempt(ItemOf(failed.value, metric), false)] else []
  }

  function Tried(done: seq<Install>, failed: Option<Install>): seq<Install> {
    done + if failed.Some? then [failed.value] else []
  }

  lemma MoreOutcomes(before: seq<Attempt>, done: seq<Install>, more: seq<Install>, failed: Option<Install>, metric: nat)
    ensures before + Outcomes(done, None, metric) + Outcomes(more, failed, metric) ==
        before + Outcomes(done + more, failed, metric)
    ensures Tried(done + more, failed) == done + Tried(more, failed)
  {
  }

  /** Every bypass, then the private table, the rule, and the captures. */
  function Schedule(o: Ownership, table: nat): seq<Install> {
    Select(o.routes, BypassKind, table) + Select(o.routes, PrivateKind, table)
    + (if o.rule.Some? then [Rule(o.rule.value)] else []) + Select(o.routes, CaptureKind, table)
  }

  predicate IsBypass(step: Install, table: nat) { step.Route? && KindOf(step.route, table) == BypassKind }

  /** Whatever is installed or fails to be, all bypasses have succeeded before it unless
      it is one itself. */
  lemma BypassesComeFirst(o: Ownership, table: nat, done: seq<Install>, failed: Option<Install>, i: nat)
    requires Tried(done, failed) <= Schedule(o, table)
    requires i < |Tried(done, failed)| && !IsBypass(Tried(done, failed)[i], table)
    ensures forall r :: r in o.routes && KindOf(r, table) == BypassKind ==>
              exists j :: 0 <= j < i && j < |done| && done[j] == Route(r)
  {
    var bypasses, tried := Select(o.routes, BypassKind, table), Tried(done, failed);
    assert tried[i] == Schedule(o, table)[i];
    assert i >= |bypasses|;
    forall r | r in o.routes && KindOf(r, table) == BypassKind
      ensures exists j :: 0 <= j < i && j < |done| && done[j] == Route(r)
    {
      var j := SelectFinds(o.routes, table, r);
      assert tried[j] == Schedule(o, table)[j] == bypasses[j];
      assert done[j] == tried[j];
    }
  }

  lemma {:induction false} SelectFinds(routes: seq<OwnedRoute>, table: nat, r: OwnedRoute) returns (j: nat)
    requires r in routes
    ensures var steps := Select(routes, KindOf(r, table), table); j < |steps| && steps[j] == Route(r)
  {
    var last := |routes| - 1;
    if routes[last] == r {
      j := |Select(routes, KindOf(r, table), table)| - 1;
    } else {
      assert r in routes[..last];
      j := SelectFinds(routes[..last], table, r);
    }
  }

  function RouteSteps(routes: seq<OwnedRoute>): (steps: seq<Install>)
    ensures |steps| == |routes|
  {
    seq(|routes|, i requires 0 <= i < |routes| => Route(routes[i]))
  }

  lemma {:induction false} SelectPartitions(routes: seq<OwnedRoute>, table: nat)
    ensures multiset(Select(routes, BypassKind, table)) + multiset(Select(routes, PrivateKind, table))
            + multiset(Select(routes, CaptureKind, table)) == multiset(RouteSteps(routes))
  {
    if routes != [] {
      var rest := routes[..|routes| - 1];
      SelectPartitions(rest, table);
      RouteStepsLast(routes);
      SelectLast(routes, BypassKind, table);
      SelectLast(routes, PrivateKind, table);
      SelectLast(routes, CaptureKind, table);
      PartitionGrows(multiset(Select(rest, BypassKind, table)), multiset(Select(rest, PrivateKind, table)),
                     multiset(Select(rest, CaptureKind, table)), multiset(RouteSteps(rest)),
                     Route(routes[|rest|]), KindOf(routes[|rest|], table));
    }
  }

  function OneIf(condition: bool, x: Install): multiset<Install> {
    if condition then multiset{x} else multiset{}
  }

  lemma PartitionGrows(b: multiset<Install>, p: multiset<Install>, c: multiset<Install>, all: multiset<Install>,
                       x: Install, kind: Kind)
    requires b + p + c == all
    ensures (b + OneIf(kind == BypassKind, x)) + (p + OneIf(kind == PrivateKind, x))
            + (c + OneIf(kind == CaptureKind, x)) == all + multiset{x}
  {
  }

  lemma RouteStepsLast(routes: seq<OwnedRoute>)
    requires routes != []
    ensures var last := |routes| - 1;
            multiset(RouteSteps(routes)) == multiset(RouteSteps(routes[..last])) + multiset{Route(routes[last])}
  {
    var last := |routes| - 1;
    assert RouteSteps(routes) == RouteSteps(routes[..last]) + [Route(routes[last])];
  }

  lemma SelectLast(routes: seq<OwnedRoute>, kind: Kind, table: nat)
    requires routes != []
    ensures var last := |routes| - 1;
            multiset(Select(routes, kind, table)) == multiset(Select(routes[..last], kind, table))
            + OneIf(KindOf(routes[last], table) == kind, Route(routes[last]))
  {
  }

  /** The complete intent for a plan: its routes in installation order, each with an
      explicit output, and its rule. */
  predicate IsPlanned(o: Ownership, plan: RoutePlan, index: nat) {
    && o.deviceIndex == Some(index) && o.rule == Some(plan.rule)
    && RoutesOf(o.routes) == Records(Ordered(plan))
    && forall i :: 0 <= i < |o.routes| ==> IsOutput(o.routes[i], index, o.gatewayInterface)
  }

  /** Everything planned is installed, each exactly once. */
  predicate IsComplete(done: seq<Install>, o: Ownership, plan: RoutePlan) {
    && multiset(done) == multiset(RouteSteps(o.routes)) + multiset{Rule(plan.rule)}
    && multiset(RoutesOf(o.routes)) == multiset(Records(plan.private + plan.system))
  }

  /** The whole schedule installs the rule and every route of the plan, each exactly once. */
  lemma ScheduleIsPlan(o: Ownership, table: nat, plan: RoutePlan, index: nat)
    requires IsPlanned(o, plan, index)
    ensures IsComplete(Schedule(o, table), o, plan)
  {
    SelectPartitions(o.routes, table);
    OrderedIsPermutation(plan);
  }

  // ------------------------------------------------------------ activation

  function ClaimOf(o: Ownership, plan: RoutePlan): Claim { Claim(o.cookie, o.metric, Some(plan)) }

  /** A finished plan stays inside its claim. */
  lemma PlannedIsCovered(device: string, o: Ownership, plan: RoutePlan, index: nat)
    requires forall i :: 0 <= i < |plan.private| ==> plan.private[i].table == plan.rule.table
    requires IsPlanned(o, plan, index)
    ensures Covered(Some(Saved(device, o)), ClaimOf(o, plan))
  {
    var c, ordered := ClaimOf(o, plan), Ordered(plan);
    forall i | 0 <= i < |o.routes|
      ensures ClaimedRoute(RouteMessage(o.routes[i], o.metric), c)
    {
      assert o.routes[i].route == RoutesOf(o.routes)[i] == FromSpec(ordered[i]);
      OrderedFrom(plan, i);
      if ordered[i] !in plan.private {
        var j :| 0 <= j < |plan.system| && plan.system[j] == ordered[i];
        assert SameDestination(RouteMessage(o.routes[i], o.metric), plan.system[j]);
      }
    }
  }

  lemma OrderedFrom(plan: RoutePlan, i: nat)
    requires i < |Ordered(plan)|
    ensures Ordered(plan)[i] in plan.private || Ordered(plan)[i] in plan.system
  {
    WithDeviceMember(plan.system, false);
    WithDeviceMember(plan.system, true);
  }

  lemma {:induction false} OrderedNeedsGateway(plan: RoutePlan)
    ensures NeedsGateway(Ordered(plan)) <==> NeedsGateway(plan.private) || NeedsGateway(plan.system)
  {
    var fixed, captures := WithDevice(plan.system, false), WithDevice(plan.system, true);
    WithDeviceNeedsGateway(plan.system);
    GatewayConcat(fixed, plan.private);
    GatewayConcat(fixed + plan.private, captures);
  }

  lemma GatewayConcat(a: seq<RouteSpec>, b: seq<RouteSpec>)
    ensures NeedsGateway(a + b) <==> NeedsGateway(a) || NeedsGateway(b)
  {
    if i :| 0 <= i < |a| && a[i].via.Gateway? {
      assert (a + b)[i] == a[i];
    }
    if i :| 0 <= i < |b| && b[i].via.Gateway? {
      assert (a + b)[|a| + i] == b[i];
    }
  }

  lemma {:induction false} WithDeviceNeedsGateway(specs: seq<RouteSpec>)
    ensures NeedsGateway(WithDevice(specs, false)) <==> NeedsGateway(specs)
    ensures !NeedsGateway(WithDevice(specs, true))
  {
    if specs != [] {
      var last := |specs| - 1;
      WithDeviceNeedsGateway(specs[..last]);
      assert specs == specs[..last] + [specs[last]];
      GatewayConcat(specs[..last], [specs[last]]);
      GatewayConcat(WithDevice(specs[..last], false), if specs[last].via.Device? then [] else [specs[last]]);
      GatewayConcat(WithDevice(specs[..last], true), if specs[last].via.Device? then [specs[last]] else []);
    }
  }

  /** An available kernel can be claimed. */
  lemma AvailableIsUnclaimed(k: Kernel, o: Ownership, plan: RoutePlan)
    requires Available(k, plan) && forall l :: l in k.links ==> l.alias != Alias(o.cookie)
    requires forall i :: 0 <= i < |plan.system| ==> plan.system[i].destination.prefix <= 32
    ensures Unclaimed(k, ClaimOf(o, plan))
  {
  }

  /** The runtime interface of a session with an envelope. */
  class OwnedInterface {
    const device: string
    const plan: RoutePlan
    const table: nat
    var owner: Ownership
    var created: bool
    var up: bool

    /** As `configure_interface_plan` leaves it: an identity and a plan, no intents. */
    constructor Planned(device: string, plan: RoutePlan, identity: Ownership)
      requires IsIdentity(identity)
      ensures this.device == device && this.plan == plan && table == plan.rule.table && owner == identity
      ensures !created && !up
    {
      this.device, this.plan, table := device, plan, plan.rule.table;
      owner, created, up := identity, false, false;
    }

    function State(): Saved
      reads this
    {
      Saved(device, owner)
    }

    /** Whatever is in the kernel, this state names it, and nothing of others. */
    ghost predicate Recordable(machine: Machine)
      reads this, machine
    {
      && machine.Valid() && machine.claim.Some? && Covered(Some(State()), machine.claim.value)
      && Within(machine.Ours(), Intents(Some(State())))
    }

    /** `persist_interface_state`, or the sync and save that end a start. */
    method SaveState(machine: Machine) returns (ok: bool)
      requires Recordable(machine)
      modifies machine`durable, machine`failures, machine`history
      ensures Recordable(machine) && old(machine.history) <= machine.history
      ensures Attempts(machine.history) == old(Attempts(machine.history))
      ensures ok ==> machine.durable == Some(State())
      ensures machine.durable in {old(machine.durable), Some(State())}
    {
      hide Safe, Run, Attempts, Intents, IsValid;
      CoveredMayBeRecorded(machine.Now(), State(), machine.claim.value);
      ok := machine.Persist(State());
    }

    /** What `start_interface` may find: a new identity, or what an earlier attempt left,
        planned or not; and nothing of ours in the kernel, unless the earlier attempt was
        told that its device had not become persistent when it had. */
    ghost predicate Startable(machine: Machine)
      reads this, machine
    {
      && Recordable(machine)
      && machine.Ours().routes == {} && machine.Ours().rules == {}
      && !created && !up && !owner.cleanupDirty && PlanShaped(plan)
      && (machine.claim == Some(ClaimOf(owner, plan))
          || (machine.claim == Some(Claim(owner.cookie, owner.metric, None)) && IsIdentity(owner)))
    }

    /** `plan_owned_interface`: the complete intent, without touching the kernel. It is
        refused for a bypass without a recorded gateway interface, and for an invalid
        record. */
    method PlanOwned(index: nat) returns (ok: bool)
      modifies this`owner
      ensures owner.cookie == old(owner).cookie && owner.metric == old(owner).metric
      ensures owner.gatewayInterface == old(owner).gatewayInterface && owner.cleanupDirty == old(owner).cleanupDirty
      ensures var possible := owner.gatewayInterface.Some?
          || !(NeedsGateway(plan.private) || NeedsGateway(plan.system));
              && (ok <==> possible && IsValid(owner))
              && if possible then IsPlanned(owner, plan, index) else owner == old(owner).(deviceIndex := Some(index))
    {
      owner := owner.(deviceIndex := Some(index));
      var routes := Own(Ordered(plan), index, owner.gatewayInterface);
      OwnSucceeds(Ordered(plan), index, owner.gatewayInterface);
      OrderedNeedsGateway(plan);
      if routes.None? {
        return false;
      }
      owner := owner.(routes := routes.value, rule := Some(plan.rule));
      assert RoutesOf(owner.routes) == Records(Ordered(plan));
      ok := IsValid(owner);
    }

    method AddRoute(machine: Machine, i: nat) returns (ok: bool)
      requires machine.Valid() && machine.durable.Some? && SameIntents(machine.durable.value, State())
      requires i < |owner.routes|
      modifies machine`kernel, machine`foreign, machine`failures, machine`history
      ensures machine.Valid() && old(machine.history) <= machine.history
      ensures Attempts(machine.history) ==
              old(Attempts(machine.history)) + [Attempt(ItemOf(Route(owner.routes[i]), owner.metric), ok)]
      ensures ok ==> RouteMessage(owner.routes[i], owner.metric) in machine.kernel.routes - old(machine.kernel.routes)
    {
      assert RouteMessage(owner.routes[i], owner.metric) in Intents(machine.durable).routes;
      ok := machine.RouteAdd(RouteMessage(owner.routes[i], owner.metric));
    }

    /** One step of a pass: a capture is first checked, then the route is added. */
    method ApplyRoute(machine: Machine, i: nat, kind: Kind) returns (ok: bool, asked: bool)
      requires machine.Valid() && machine.durable.Some? && SameIntents(machine.durable.value, State())
      requires i < |owner.routes|
      modifies machine`kernel, machine`foreign, machine`failures, machine`history
      ensures machine.Valid() && old(machine.history) <= machine.history
      ensures Attempts(machine.history) == old(Attempts(machine.history)) +
              if asked then [Attempt(ItemOf(Route(owner.routes[i]), owner.metric), ok)] else []
      ensures ok ==> asked
    {
      hide Attempts;
      machine.Others();
      if kind == CaptureKind {
        var free: bool := *;  // `ensure_capture_available`, or its query, may refuse
        if !free {
          return false, false;
        }
      }
      ok := AddRoute(machine, i);
      asked := true;
    }

    /** One filtered pass of `apply_owned_routes`: what the kernel took, in order, and
        what it then refused, if that is how the pass ended. */
    method ApplyKind(machine: Machine, kind: Kind)
      returns (ok: bool, ghost done: seq<Install>, ghost failed: Option<Install>)
      requires machine.Valid() && machine.durable.Some? && SameIntents(machine.durable.value, State())
      modifies machine`kernel, machine`foreign, machine`failures, machine`history
      ensures machine.Valid() && old(machine.history) <= machine.history
      ensures Attempts(machine.history) == old(Attempts(machine.history)) + Outcomes(done, failed, owner.metric)
      ensures Tried(done, failed) <= Select(owner.routes, kind, table)
      ensures ok ==> failed.None? && done == Select(owner.routes, kind, table)
    {
      hide Attempts, Outcomes, ItemOf, Intents, Machine.Valid;
      OneOutcome(Rule(plan.rule), owner.metric);
      done, failed := [], None;
      for i := 0 to |owner.routes|
        invariant machine.Valid() && old(machine.history) <= machine.history
        invariant Attempts(machine.history) == old(Attempts(machine.history)) + Outcomes(done, None, owner.metric)
        invariant failed.None? && done == Select(owner.routes[..i], kind, table)
      {
        SelectPrefix(owner.routes, kind, table, i);
        SelectStep(owner.routes, kind, table, i);
        if KindOf(owner.routes[i], table) == kind {
          var step := Route(owner.routes[i]);
          OneOutcome(step, owner.metric);
          var asked;
          ok, asked := ApplyRoute(machine, i, kind);
          if !ok {
            failed := if asked then Some(step) else None;
            MoreOutcomes(old(Attempts(machine.history)), done, [], failed, owner.metric);
            assert done + [] == done;
            return;
          }
          MoreOutcomes(old(Attempts(machine.history)), done, [step], None, owner.metric);
          done := done + [step];
        }
      }
      assert owner.routes[..|owner.routes|] == owner.routes;
      ok := true;
    }

    /** The rule, after the kernel was checked once more. */
    method ApplyRule(machine: Machine) returns (ok: bool, ghost done: seq<Install>, ghost failed: Option<Install>)
      requires machine.Valid() && machine.durable.Some? && SameIntents(machine.durable.value, State())
      requires owner.rule.Some?
      modifies machine`kernel, machine`foreign, machine`failures, machine`history
      ensures machine.Valid() && old(machine.history) <= machine.history
      ensures Attempts(machine.history) == old(Attempts(machine.history)) + Outcomes(done, failed, owner.metric)
      ensures Tried(done, failed) <= [Rule(owner.rule.value)]
      ensures ok ==> failed.None? && done == [Rule(owner.rule.value)]
      ensures ok ==> RuleMessage(owner.rule.value) in machine.kernel.rules
    {
      hide Attempts;
      machine.Others();
      var free: bool := *;  // `ensure_capture_available`
      if !free {
        return false, [], None;
      }
      ok := machine.RuleAdd(RuleMessage(owner.rule.value));
      done, failed := if ok then [Rule(owner.rule.value)] else [], if ok then None else Some(Rule(owner.rule.value));
    }

    /** `apply_owned_routes`. */
    method ApplyOwnedRoutes(machine: Machine)
      returns (ok: bool, ghost done: seq<Install>, ghost failed: Option<Install>)
      requires machine.Valid() && machine.durable.Some? && SameIntents(machine.durable.value, State())
      modifies machine`kernel, machine`foreign, machine`failures, machine`history
      ensures machine.Valid() && old(machine.history) <= machine.history
      ensures Attempts(machine.history) == old(Attempts(machine.history)) + Outcomes(done, failed, owner.metric)
      ensures Tried(done, failed) <= Schedule(owner, table)
      ensures ok ==> IsValid(owner) && owner.rule.Some? && failed.None? && done == Schedule(owner, table)
    {
      hide Select, IsValid, Intents, Attempts, Outcomes, Machine.Valid;
      ghost var before := Attempts(machine.history);
      if !IsValid(owner) {
        OneOutcome(Rule(plan.rule), owner.metric);
        return false, [], None;
      }
      ghost var next;
      ok, done, failed := ApplyKind(machine, BypassKind);
      if !ok {
        return;
      }
      ok, next, failed := ApplyKind(machine, PrivateKind);
      MoreOutcomes(before, done, next, failed, owner.metric);
      done := done + next;
      if !ok || owner.rule.None? {
        ok := false;
        return;
      }
      ok, next, failed := ApplyRule(machine);
      MoreOutcomes(before, done, next, failed, owner.metric);
      done := done + next;
      if !ok {
        return;
      }
      ok, next, failed := ApplyKind(machine, CaptureKind);
      MoreOutcomes(before, done, next, failed, owner.metric);
      done := done + next;
    }

    /** The first half of `start_owned_interface`: the complete intent is durable
        before the device outlives its descriptor. */
    method CommitDevice(machine: Machine, index: nat) returns (ok: bool)
      requires Startable(machine) && machine.claim == Some(ClaimOf(owner, plan)) && machine.Ours() == NOTHING
      modifies this`owner, this`created, machine`kernel, machine`foreign, machine`durable, machine`failures,
          machine`history
      ensures machine.Valid() && old(machine.history) <= machine.history
      ensures Attempts(machine.history) == old(Attempts(machine.history))
      ensures owner.cookie == old(owner).cookie && owner.metric == old(owner).metric && !owner.cleanupDirty
      ensures Covered(Some(State()), machine.claim.value)
      ensures created == ok && Recordable(machine) && (!created ==> Startable(machine))
      ensures ok ==> machine.durable == Some(State()) && IsPlanned(owner, plan, index)
      ensures !ok ==> machine.durable == Some(State()) || machine.Ours() == NOTHING
    {
      hide Theirs, Attempts, Safe, Run, IsPlanned, NeedsGateway, IsValid, Covered, Unclaimed;
      var planned := PlanOwned(index);
      PlanStaysCovered(device, old(owner), owner, plan, index);
      if !planned {
        return false;
      }
      machine.Others();
      NothingNeedsNoRecord(machine.Now(), State(), machine.claim.value);
      ok := machine.Persist(State());
      if ok {
        machine.Others();
        ok := machine.MakePersistent(Link(device, index, Alias(owner.cookie)));
        created := ok;
      }
    }

    /** The second half: the helper's PID is recorded, then the routes go in. */
    method InstallRoutes(machine: Machine) returns (ok: bool, ghost done: seq<Install>, ghost failed: Option<Install>)
      requires Recordable(machine) && machine.durable == Some(State())
      modifies machine`kernel, machine`foreign, machine`durable, machine`failures, machine`history
      ensures Recordable(machine) && old(machine.history) <= machine.history
      ensures machine.durable == Some(State())
      ensures Attempts(machine.history) == old(Attempts(machine.history)) + Outcomes(done, failed, owner.metric)
      ensures Tried(done, failed) <= Schedule(owner, table)
      ensures ok ==> owner.rule.Some? && failed.None? && done == Schedule(owner, table)
    {
      hide Attempts;
      done, failed := [], None;
      machine.Others();
      ok := machine.Persist(State());
      var linked: bool := *;
      if !ok || !linked {
        return false, done, failed;
      }
      ok, done, failed := ApplyOwnedRoutes(machine);
      var marked: bool := *;  // the chain of a bound cgroup
      ok := ok && marked;
    }

    /** `start_owned_interface`. */
    method StartOwned(machine: Machine) returns (ok: bool, ghost done: seq<Install>, ghost failed: Option<Install>)
      requires Startable(machine) && machine.durable == Some(State())
      modifies this, machine
      ensures machine.Valid() && old(machine.history) <= machine.history
      ensures owner.cookie == old(owner).cookie && owner.metric == old(owner).metric && !owner.cleanupDirty
      ensures machine.durable == Some(State()) || machine.Ours() == NOTHING
      ensures if created then Recordable(machine) && machine.durable == Some(State())
              else Startable(machine)
      ensures Attempts(machine.history) == old(Attempts(machine.history)) + Outcomes(done, failed, owner.metric)
      ensures Tried(done, failed) <= Schedule(owner, table) && (!created ==> Tried(done, failed) == [])
      ensures up == ok
      ensures ok ==> created && failed.None? && done == Schedule(owner, table) && IsComplete(done, owner, plan)
    {
      hide Attempts, Safe, Run, IsValid, Select;
      done, failed, ok := [], None, false;
      var free: bool := *;  // the queries of `ensure_plan_available` may fail
      if !free || !Available(machine.kernel, plan) {
        return;
      }
      AvailableIsUnclaimed(machine.foreign, owner, plan);
      machine.claim := Some(ClaimOf(owner, plan));
      var index: nat :| 0 <= index;  // the transient device; zero when making or naming it failed
      if index == 0 || exists l :: l in machine.kernel.links && l.name == device {
        return;
      }
      assert machine.Ours().links == {};
      var committed := CommitDevice(machine, index);
      var helper: bool := *;  // MTU, address and helper
      if committed && helper {
        ok, done, failed := InstallRoutes(machine);
        ScheduleIsPlan(owner, table, plan, index);
        up := ok;
      }
    }

    /** Rolling a failed start back: the record is marked, then everything in it goes. */
    method RollBack(machine: Machine) returns (clean: bool)
      requires Recordable(machine) && machine.durable == Some(State())
      modifies this`owner, this`created, machine`kernel, machine`foreign, machine`durable, machine`failures,
          machine`history
      ensures old(machine.history) <= machine.history
      ensures Attempts(machine.history) == old(Attempts(machine.history))
      ensures owner == old(owner).(cleanupDirty := true)
      ensures Recordable(machine) && machine.claim == old(machine.claim)
      ensures clean ==> machine.Ours() == NOTHING && !created
    {
      hide Attempts;
      owner := owner.(cleanupDirty := true);
      SameIntentsSameObjects(old(State()), State());
      clean := SaveState(machine);
      var unchained: bool := *;  // the chain of a bound cgroup goes first
      clean := clean && unchained;
      if clean {
        clean := machine.CleanupOwned(State());
        created := created && !clean;
      }
    }

    /** `start_interface` for an interface with an envelope: every state it passes
        through can be recovered from the record alone, whatever fails in it, and a
        failure that was rolled back leaves nothing of ours in the kernel. The last save
        may fail after everything else succeeded: an error with the interface up. */
    method StartInterface(machine: Machine)
      returns (ok: bool, rolledBack: bool, ghost done: seq<Install>, ghost failed: Option<Install>)
      requires Startable(machine)
      modifies this, machine
      ensures machine.Valid() && old(machine.history) <= machine.history
      ensures !up && !owner.cleanupDirty ==> Startable(machine)
      ensures Attempts(machine.history) == old(Attempts(machine.history)) + Outcomes(done, failed, owner.metric)
      ensures Tried(done, failed) <= Schedule(owner, table)
      ensures ok ==> up
      ensures up ==> failed.None? && done == Schedule(owner, table) && IsComplete(done, owner, plan)
      ensures rolledBack ==> !up && machine.Ours() == NOTHING
    {
      hide Attempts, Safe, Run, Select, IsComplete, Intents, IsValid, Machine.Valid;
      rolledBack, done, failed := false, [], None;
      ok := SaveState(machine);
      if !ok {
        return;
      }
      ok, done, failed := StartOwned(machine);
      if !ok && created {
        rolledBack := RollBack(machine);
      }
      var saved := SaveState(machine);
      ok := ok && saved;
    }

    /** Everything planned was taken by the kernel, each exactly once, in the last start. */
    ghost predicate IsInstalled(machine: Machine)
      reads this, machine
    {
      && IsComplete(Schedule(owner, table), owner, plan)
      && EndsWith(Attempts(machine.history), Outcomes(Schedule(owner, table), None, owner.metric))
    }

    /** Asked again after every failure that leaves the interface ready to start; it stops
        early only with the interface up or marked. */
    method StartRepeatedly(machine: Machine, attempts: nat) returns (ok: bool, ghost tries: nat)
      requires Startable(machine)
      modifies this, machine
      ensures machine.Valid() && old(machine.history) <= machine.history
      ensures tries <= attempts && (tries == attempts || up || owner.cleanupDirty)
      ensures ok ==> up
      ensures up ==> IsInstalled(machine)
      ensures !up && !owner.cleanupDirty ==> Startable(machine)
    {
      hide Attempts, Safe, Run, Intents, Covered, IsIdentity, IsComplete, Schedule, Recoverable, Outcomes;
      ok := false;
      var k := 0;
      while k < attempts && !up && !owner.cleanupDirty
        invariant k <= attempts
        invariant machine.Valid() && old(machine.history) <= machine.history
        invariant !up && !owner.cleanupDirty ==> Startable(machine)
        invariant ok ==> up
        invariant up ==> IsInstalled(machine)
        decreases attempts - k
      {
        machine.Others();
        ghost var before := Attempts(machine.history);
        var started, _, done, failed := StartInterface(machine);
        EndsWithAppended(before, Outcomes(done, failed, owner.metric));
        ok := started;
        k := k + 1;
      }
      tries := k;
    }
  }

  predicate EndsWith(all: seq<Attempt>, last: seq<Attempt>) {
    |last| <= |all| && all[|all| - |last|..] == last
  }

  lemma EndsWithAppended(before: seq<Attempt>, last: seq<Attempt>)
    ensures EndsWith(before + last, last)
  {
  }

  /** The identity of an activation that has planned nothing yet. */
  predicate IsIdentity(o: Ownership) {
    IsValid(o) && o.routes == [] && o.rule == None && o.deviceIndex == None && !o.cleanupDirty
  }

  /** What every failover plan is: `FailoverPlanCovers`, with prefixes of at most 32. */
  predicate PlanShaped(plan: RoutePlan) {
    && (forall i :: 0 <= i < |plan.private| ==> plan.private[i].table == plan.rule.table)
    && (forall i :: 0 <= i < |plan.system| ==> plan.system[i].destination.prefix <= 32)
  }

  lemma {:induction false} SelectPrefix(routes: seq<OwnedRoute>, kind: Kind, table: nat, i: nat)
    requires i <= |routes|
    ensures Select(routes[..i], kind, table) <= Select(routes, kind, table)
    decreases |routes|
  {
    if i == |routes| {
      assert routes[..i] == routes;
    } else {
      var last := |routes| - 1;
      SelectPrefix(routes[..last], kind, table, i);
      assert routes[..last][..i] == routes[..i];
    }
  }

  lemma SelectStep(routes: seq<OwnedRoute>, kind: Kind, table: nat, i: nat)
    requires i < |routes|
    ensures Select(routes[..i + 1], kind, table) ==
            Select(routes[..i], kind, table) + if KindOf(routes[i], table) == kind then [Route(routes[i])] else []
    ensures Select(routes[..i + 1], kind, table) <= Select(routes, kind, table)
  {
    assert routes[..i + 1][..i] == routes[..i];
    SelectPrefix(routes, kind, table, i + 1);
  }

  /** While nothing is installed any valid record of the claim may be written. */
  lemma NothingNeedsNoRecord(s: Snapshot, saved: Saved, c: Claim)
    requires Recorded(s) && Within(Minus(s.kernel, s.foreign), NOTHING)
    requires Unclaimed(s.foreign, c) && Covered(Some(saved), c)
    ensures IsValid(saved.owner) ==> Recoverable(s.(durable := Some(saved)))
  {
  }

  lemma SameIntentsSameObjects(a: Saved, b: Saved)
    requires SameIntents(a, b)
    ensures Intents(Some(a)) == Intents(Some(b))
  {
  }

  lemma CoveredMayBeRecorded(s: Snapshot, saved: Saved, c: Claim)
    requires Recoverable(s) && Within(Minus(s.kernel, s.foreign), Intents(Some(saved)))
    requires Unclaimed(s.foreign, c) && Covered(Some(saved), c)
    ensures IsValid(saved.owner) ==> Recoverable(s.(durable := Some(saved)))
  {
    CoveredIsUnforged(s.foreign, Some(saved), c);
  }

  lemma OneOutcome(step: Install, metric: nat)
    ensures Outcomes([], None, metric) == []
    ensures Outcomes([step], None, metric) == [Attempt(ItemOf(step, metric), true)]
    ensures Outcomes([], Some(step), metric) == [Attempt(ItemOf(step, metric), false)]
  {
  }

  lemma PlanStaysCovered(device: string, was: Ownership, o: Ownership, plan: RoutePlan, index: nat)
    requires PlanShaped(plan) && Covered(Some(Saved(device, was)), ClaimOf(o, plan))
    requires o.cookie == was.cookie && o.metric == was.metric
    requires IsPlanned(o, plan, index) || o == was.(deviceIndex := Some(index))
    ensures Covered(Some(Saved(device, o)), ClaimOf(o, plan))
  {
    if IsPlanned(o, plan, index) {
      PlannedIsCovered(device, o, plan, index);
    } else {
      assert Intents(Some(Saved(device, o))).routes == Intents(Some(Saved(device, was))).routes;
    }
  }

  /** A start, however often it is repeated, that crashes at any of its system calls, and
      the daemon that comes up after it: with the record and the kernel as they were,
      recovery removes all of ours, however often it is itself made to fail, unless the
      device's name or index has meanwhile gone to somebody else. And nothing else: what
      is left is what the rest of the system made of its own, routes through a deleted
      device of ours apart. */
  method CrashAnywhere(interface: OwnedInterface, machine: Machine, attempts: nat, faults: nat, later: nat -> Move)
    returns (next: Machine, ghost moment: nat, recovered: bool)
    requires machine.Valid() && Intents(machine.durable) == NOTHING && machine.claim == None
    requires IsIdentity(interface.owner) && !interface.created && !interface.up && PlanShaped(interface.plan)
    requires forall l :: l in machine.kernel.links ==> l.alias != Alias(interface.owner.cookie)
    modifies interface, machine
    ensures machine.Valid() && |old(machine.history)| <= moment <= |machine.history|
    ensures fresh(next) && next.Valid() && next.world == later
    ensures next.start == Run(machine.start, machine.history[..moment])
    ensures next.foreign == Theirs(next.start.foreign, next.history)
    ensures if recovered then next.kernel == next.foreign
            else next.start.durable.Some? && Displaced(next.kernel, next.start.durable.value)
  {
    var calls := |machine.history|;
    machine.Reserve(interface.owner.cookie, interface.owner.metric);
    var _, _ := interface.StartRepeatedly(machine, attempts);
    var instant: nat :| calls <= instant <= |machine.history|;
    moment := instant;
    SafeAt(machine.world, machine.start, machine.history, instant);
    next := new Machine.Boot(Run(machine.start, machine.history[..instant]), faults, later);
    recovered := next.RecoverEventually();
    ForeignIsTheirs(next.world, next.start, next.history);
  }
}
