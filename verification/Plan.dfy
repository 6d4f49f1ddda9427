/** Route planning: `tun/plan.rs`. */
module Plan {
  import opened Wrappers

  /** IPv4 addresses as 32-bit numbers. */
  type Ipv4 = nat

  const MAIN_TABLE := 254
  const UPPER_HALF: Ipv4 := 0x8000_0000

  datatype Cidr = Cidr(address: Ipv4, prefix: nat)

  datatype Via = Device | Interface(index: nat) | Gateway(address: Ipv4)

  datatype RouteSpec = RouteSpec(destination: Cidr, via: Via, table: nat)

  datatype RuleSpec = RuleSpec(mark: nat, table: nat, priority: nat)

  datatype RoutePlan = RoutePlan(private: seq<RouteSpec>, system: seq<RouteSpec>, rule: RuleSpec)

  datatype RouteMode = Manual | List | Default

  datatype Connected = Connected(destination: Cidr, interface: nat)

  datatype PlanInput = PlanInput(table: nat, mark: nat, mode: RouteMode, list: seq<Cidr>, servers: seq<Ipv4>,
                                 gateway: Option<Ipv4>, connected: seq<Connected>)

  function Host(address: Ipv4): Cidr { Cidr(address, 32) }

  function Bypass(address: Ipv4, gateway: Ipv4): RouteSpec {
    RouteSpec(Host(address), Gateway(gateway), MAIN_TABLE)
  }

  function Captured(destination: Cidr): RouteSpec { RouteSpec(destination, Device, MAIN_TABLE) }

  function PrivateRoutes(input: PlanInput): seq<RouteSpec> {
    seq(|input.connected|, i requires 0 <= i < |input.connected| =>
      RouteSpec(input.connected[i].destination, Interface(input.connected[i].interface), input.table))
    + [RouteSpec(Cidr(0, 0), Device, input.table)]
  }

  function PlanRoutes(input: PlanInput): Result<RoutePlan> {
    var rule := RuleSpec(input.mark, input.table, input.mark);
    match input.mode
    case Manual => Ok(RoutePlan(PrivateRoutes(input), [], rule))
    case List =>
      if input.list == [] then Err
      else Ok(RoutePlan(PrivateRoutes(input),
                        seq(|input.list|, i requires 0 <= i < |input.list| => Captured(input.list[i])), rule))
    case Default =>
      if input.servers == [] || input.gateway.None? then Err
      else Ok(RoutePlan(PrivateRoutes(input),
                        seq(|input.servers|, i requires 0 <= i < |input.servers| =>
                          Bypass(input.servers[i], input.gateway.value))
                        + [Captured(Cidr(0, 1)), Captured(Cidr(UPPER_HALF, 1))], rule))
  }

  /** One bypass per distinct candidate, unless the capture list names one exactly. */
  function Bypasses(servers: seq<Ipv4>, list: seq<Cidr>, gateway: Ipv4): Result<seq<RouteSpec>> {
    if servers == [] then Ok([])
    else
      var last := |servers| - 1;
      var rest := Bypasses(servers[..last], list, gateway);
      if rest.Err? || Host(servers[last]) in list then Err
      else
        var bypass := Bypass(servers[last], gateway);
        if bypass in rest.value then rest else Ok(rest.value + [bypass])
  }

  function PlanFailoverRoutes(input: PlanInput): Result<RoutePlan> {
    var plan := PlanRoutes(input);
    if plan.Err? || !input.mode.List? then plan
    else if input.gateway.None? then Err
    else
      var bypasses := Bypasses(input.servers, input.list, input.gateway.value);
      if bypasses.Err? then Err else Ok(plan.value.(system := bypasses.value + plan.value.system))
  }

  /** Whether every one of the addresses leaves through a gateway of the main table. */
  ghost predicate Bypassed(addresses: seq<Ipv4>, system: seq<RouteSpec>) {
    forall address :: address in addresses ==>
      exists gateway :: Bypass(address, gateway) in system
  }

  lemma {:induction false} BypassesCover(servers: seq<Ipv4>, list: seq<Cidr>, gateway: Ipv4)
    requires Bypasses(servers, list, gateway).Ok?
    ensures forall address :: address in servers ==> Bypass(address, gateway) in Bypasses(servers, list, gateway).value
    ensures forall address :: address in servers ==> Host(address) !in list
    ensures forall route :: route in Bypasses(servers, list, gateway).value ==>
        route.table == MAIN_TABLE && route.via.Gateway?
  {
    if servers != [] {
      var last := |servers| - 1;
      BypassesCover(servers[..last], list, gateway);
      forall address | address in servers
        ensures Bypass(address, gateway) in Bypasses(servers, list, gateway).value && Host(address) !in list
      {
        assert servers == servers[..last] + [servers[last]];
      }
    }
  }

  /** A failover plan bypasses every candidate it was planned for, unless it captures
      nothing from the main table; its private routes all live in the rule's table. */
  lemma FailoverPlanCovers(input: PlanInput)
    requires PlanFailoverRoutes(input).Ok?
    ensures var plan := PlanFailoverRoutes(input).value;
            && plan.rule.table == input.table
            && (forall i :: 0 <= i < |plan.private| ==> plan.private[i].table == plan.rule.table)
            && (forall i :: 0 <= i < |plan.system| ==> plan.system[i].table == MAIN_TABLE)
            && if input.mode.Manual? then plan.system == [] else Bypassed(input.servers, plan.system)
  {
    var plan := PlanFailoverRoutes(input).value;
    match input.mode {
      case Manual =>
      case List =>
        BypassesCover(input.servers, input.list, input.gateway.value);
        var bypasses := Bypasses(input.servers, input.list, input.gateway.value).value;
        forall address | address in input.servers
          ensures Bypass(address, input.gateway.value) in plan.system
        {
          assert Bypass(address, input.gateway.value) in bypasses;
        }
        forall i | 0 <= i < |plan.system|
          ensures plan.system[i].table == MAIN_TABLE
        {
          assert i < |bypasses| ==> plan.system[i] in bypasses;
        }
      case Default =>
        forall address | address in input.servers
          ensures Bypass(address, input.gateway.value) in plan.system
        {
          var i :| 0 <= i < |input.servers| && input.servers[i] == address;
          assert plan.system[i] == Bypass(address, input.gateway.value);
        }
    }
  }
}
