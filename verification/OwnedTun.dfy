/** The exclusive TUN transaction: intents first, then the kernel, then cleanup from
    the record alone. `engine.rs` and `tun/net.rs`, over an abstract kernel. */
module OwnedTun {
  import opened Wrappers
  import opened Plan

  const OWNED_ROUTE_PROTOCOL := 242
  const MAX_ROUTES := 512

  datatype RouteRecord = RouteRecord(address: Ipv4, prefix: nat, table: nat, gateway: Option<Ipv4>,
      interface: Option<nat>)

  function FromSpec(spec: RouteSpec): RouteRecord {
    RouteRecord(spec.destination.address, spec.destination.prefix, spec.table,
                if spec.via.Gateway? then Some(spec.via.address) else None,
                if spec.via.Interface? then Some(spec.via.index) else None)
  }

  datatype OwnedRoute = OwnedRoute(route: RouteRecord, output: nat)

  /** The recovery identity of one activation and everything it intends to install. */
  datatype Ownership = Ownership(cookie: string, metric: nat, gatewayInterface: Option<nat>, deviceIndex: Option<nat>,
                                 routes: seq<OwnedRoute>, rule: Option<RuleSpec>, cleanupDirty: bool)

  function PowerOf2(n: nat): (power: nat)
    ensures power > 0
  {
    if n == 0 then 1 else 2 * PowerOf2(n - 1)
  }

  predicate IsCookie(cookie: string) {
    |cookie| == 32 && forall i :: 0 <= i < 32 ==> '0' <= cookie[i] <= '9' || 'a' <= cookie[i] <= 'f'
  }

  predicate IsRouteIntent(o: Ownership, r: OwnedRoute) {
    && o.deviceIndex.Some? && r.output != 0 && r.route.prefix <= 32
    && (r.route.prefix <= 32 ==> r.route.address % PowerOf2(32 - r.route.prefix) == 0)
    && (r.route.gateway.None? || r.route.interface.None?)
    && (if r.route.gateway.Some? then Some(r.output) == o.gatewayInterface && r.route.table == MAIN_TABLE
        else if r.route.interface.Some? then r.output == r.route.interface.value
        else Some(r.output) == o.deviceIndex)
  }

  /** `InterfaceOwnership::validate`. */
  predicate IsValid(o: Ownership) {
    && IsCookie(o.cookie) && o.metric != 0
    && o.deviceIndex != Some(0) && o.gatewayInterface != Some(0)
    && |o.routes| <= MAX_ROUTES
    && (forall i :: 0 <= i < |o.routes| ==> IsRouteIntent(o, o.routes[i]))
    && (o.rule.Some? ==>
          && o.deviceIndex.Some? && o.rule.value.mark != 0 && o.rule.value.table != 0
          && 1 <= o.rule.value.priority < 32766)
    && (o.routes == [] || o.rule.Some?)
    && (o.rule.Some? ==>
          forall i :: 0 <= i < |o.routes| ==> o.routes[i].route.table in {MAIN_TABLE, o.rule.value.table})
  }

  // -------------------------------------------------------------- the kernel

  datatype KernelRoute = KernelRoute(destination: Cidr, table: nat, output: nat, gateway: Option<Ipv4>,
                                     protocol: nat, metric: nat)

  datatype KernelRule = KernelRule(mark: nat, table: nat, priority: nat, protocol: nat)

  datatype Link = Link(name: string, index: nat, alias: string)

  /** The persistent objects of the kernel. */
  datatype Kernel = Kernel(routes: set<KernelRoute>, rules: set<KernelRule>, links: set<Link>)

  predicate Within(small: Kernel, big: Kernel) {
    small.routes <= big.routes && small.rules <= big.rules && small.links <= big.links
  }

  function Minus(k: Kernel, other: Kernel): Kernel {
    Kernel(k.routes - other.routes, k.rules - other.rules, k.links - other.links)
  }

  function Union(k: Kernel, other: Kernel): Kernel {
    Kernel(k.routes + other.routes, k.rules + other.rules, k.links + other.links)
  }

  const NOTHING := Kernel({}, {}, {})

  /** The exact selector an intent is added and deleted with. */
  function RouteMessage(r: OwnedRoute, metric: nat): KernelRoute {
    KernelRoute(Cidr(r.route.address, r.route.prefix), r.route.table, r.output, r.route.gateway,
                OWNED_ROUTE_PROTOCOL, metric)
  }

  function RuleMessage(rule: RuleSpec): KernelRule {
    KernelRule(rule.mark, rule.table, rule.priority, OWNED_ROUTE_PROTOCOL)
  }

  function Alias(cookie: string): string { "oxidom-tun-v1:" + cookie }

  /** One session's interface as the state file has it. */
  datatype Saved = Saved(device: string, owner: Ownership)

  /** Everything a record entitles recovery to remove. */
  function Intents(saved: Option<Saved>): Kernel {
    if saved.None? then NOTHING
    else
      var o := saved.value.owner;
      Kernel(set i | 0 <= i < |o.routes| :: RouteMessage(o.routes[i], o.metric),
             if o.rule.Some? then {RuleMessage(o.rule.value)} else {},
             if o.deviceIndex.Some? then {Link(saved.value.device, o.deviceIndex.value, Alias(o.cookie))} else {})
  }

  // ------------------------------------------------------------ write-ahead

  /** The machine between two system calls: the kernel, the part of it that others
      installed, and the durable record. */
  datatype Snapshot = Snapshot(kernel: Kernel, foreign: Kernel, durable: Option<Saved>)

  /** Write-ahead: what is in the kernel belongs to others or is already in the
      durable record, and everything of the others is still there. */
  predicate Recorded(s: Snapshot) {
    && Within(s.foreign, s.kernel)
    && Within(Minus(s.kernel, s.foreign), Intents(s.durable))
  }

  /** Nobody else has installed an object under the record's exact selectors. */
  predicate Unforged(foreign: Kernel, saved: Option<Saved>) {
    var intents := Intents(saved);
    && foreign.routes !! intents.routes
    && foreign.rules !! intents.rules
    && foreign.links !! intents.links
  }

  /** Recovery, given only the record, would remove all of ours and nothing else. */
  predicate Recoverable(s: Snapshot) {
    && Recorded(s)
    && Unforged(s.foreign, s.durable)
    && (s.durable.Some? ==> IsValid(s.durable.value.owner))
  }

  /** What an activation may count on: nobody else uses its random cookie and, once the
      kernel was found free of its plan, its rule or its metric and destinations. */
  datatype Claim = Claim(cookie: string, metric: nat, plan: Option<RoutePlan>)

  predicate SameDestination(r: KernelRoute, spec: RouteSpec) {
    r.table == spec.table && r.destination == spec.destination
  }

  predicate ClaimedRoute(r: KernelRoute, c: Claim) {
    && c.plan.Some? && r.protocol == OWNED_ROUTE_PROTOCOL && r.metric == c.metric
    && var plan := c.plan.value;
       r.table == plan.rule.table || exists i :: 0 <= i < |plan.system| && SameDestination(r, plan.system[i])
  }

  predicate ClaimedRule(r: KernelRule, c: Claim) { c.plan.Some? && r == RuleMessage(c.plan.value.rule) }

  predicate Unclaimed(k: Kernel, c: Claim) {
    && (forall r :: r in k.routes ==> !ClaimedRoute(r, c))
    && (forall r :: r in k.rules ==> !ClaimedRule(r, c))
    && (forall l :: l in k.links ==> l.alias != Alias(c.cookie))
  }

  /** A record that names nothing outside the claim. */
  predicate Covered(saved: Option<Saved>, c: Claim) {
    var intents := Intents(saved);
    && (forall r :: r in intents.routes ==> ClaimedRoute(r, c))
    && (forall r :: r in intents.rules ==> ClaimedRule(r, c))
    && (forall l :: l in intents.links ==> l.alias == Alias(c.cookie))
  }

  lemma CoveredIsUnforged(foreign: Kernel, saved: Option<Saved>, c: Claim)
    requires Unclaimed(foreign, c) && Covered(saved, c)
    ensures Unforged(foreign, saved)
  {
  }

  /** `ensure_plan_available`: the private table, the rule's selectors and every
      system destination are unused. */
  predicate Available(k: Kernel, plan: RoutePlan) {
    && (forall r :: r in k.routes ==>
          && r.table != plan.rule.table
          && forall i :: 0 <= i < |plan.system| ==> !Collides(r, plan.system[i]))
    && (forall r :: r in k.rules ==>
          r.table != plan.rule.table && r.priority != plan.rule.priority && r.mark != plan.rule.mark)
  }

  predicate Collides(r: KernelRoute, spec: RouteSpec) {
    && r.table == spec.table
    && r.destination.prefix == spec.destination.prefix <= 32
    && r.destination.address / PowerOf2(32 - spec.destination.prefix)
       == spec.destination.address / PowerOf2(32 - spec.destination.prefix)
  }

  // ------------------------------------------------------------- history

  /** One object of the kernel. */
  datatype Item = RouteItem(route: KernelRoute) | RuleItem(rule: KernelRule) | LinkItem(link: Link)

  function Only(item: Item): Kernel {
    match item
    case RouteItem(r) => Kernel({r}, {}, {})
    case RuleItem(r) => Kernel({}, {r}, {})
    case LinkItem(l) => Kernel({}, {}, {l})
  }

  lemma OneItem(k: Kernel, item: Item)
    ensures match item
            case RouteItem(r) =>
              && Union(k, Only(item)) == k.(routes := k.routes + {r})
                  && Minus(k, Only(item)) == k.(routes := k.routes - {r})
            case RuleItem(r) =>
              && Union(k, Only(item)) == k.(rules := k.rules + {r})
                  && Minus(k, Only(item)) == k.(rules := k.rules - {r})
            case LinkItem(l) =>
              && Union(k, Only(item)) == k.(links := k.links + {l})
                  && Minus(k, Only(item)) == k.(links := k.links - {l})
    ensures Minus(Minus(k, Only(item)), NOTHING) == Minus(k, Only(item))
  {
    var without := Minus(k, Only(item));
    assert k.routes + {} == k.routes && k.rules + {} == k.rules && k.links + {} == k.links;
    assert k.routes - {} == k.routes && k.rules - {} == k.rules && k.links - {} == k.links;
    assert Minus(without, NOTHING).routes == without.routes && Minus(without, NOTHING).rules == without.rules;
  }

  predicate Has(k: Kernel, item: Item) { Within(Only(item), k) }

  /** The routes that lead through a link; the kernel drops them with it. */
  function Through(k: Kernel, item: Item): Kernel {
    if item.LinkItem? then Kernel(set r | r in k.routes && r.output == item.link.index, {}, {}) else NOTHING
  }

  /** What the rest of the system does between two calls of the daemon. */
  datatype Move = Move(removed: Kernel, installed: Kernel)

  function Moved(k: Kernel, m: Move): Kernel { Union(Minus(k, m.removed), m.installed) }

  /** A system call of the daemon and its outcome, or a move of the rest of the system.
      A call that fails may have taken effect. */
  datatype Event =
    | World(move: Move)
    | Save(record: Option<Saved>, applied: bool, ok: bool)
    | Add(item: Item, applied: bool, ok: bool)
    | Delete(item: Item, applied: bool, ok: bool)

  /** What an event does, right or wrong: a deletion takes the object whoever it belongs to. */
  function Step(s: Snapshot, e: Event): Snapshot {
    match e
    case World(m) => Snapshot(Moved(s.kernel, m), Moved(s.foreign, m), s.durable)
    case Save(record, applied, _) => if applied then s.(durable := record) else s
    case Add(item, applied, _) => if applied then s.(kernel := Union(s.kernel, Only(item))) else s
    case Delete(item, applied, _) =>
      if !applied then s
      else
        s.(kernel := Minus(Minus(s.kernel, Only(item)), Through(s.kernel, item)),
           foreign := Minus(Minus(s.foreign, Only(item)), Through(s.foreign, item)))
  }

  function Run(start: Snapshot, history: seq<Event>): Snapshot {
    if history == [] then start else Step(Run(start, history[..|history| - 1]), history[|history| - 1])
  }

  /** A call of the daemon adds and deletes only what the record durable at that moment
      names, and takes nothing from others but routes through the link it deletes. */
  predicate Confined(s: Snapshot, e: Event) {
    var t, intents := Step(s, e), Intents(s.durable);
    e.World? ||
    (&& Within(Minus(t.kernel, s.kernel), intents)
     && Within(Minus(s.kernel, t.kernel), if e.Delete? then Union(intents, Through(s.kernel, e.item)) else NOTHING)
     && t.foreign == (if e.Delete? && e.applied then Minus(s.foreign, Through(s.foreign, e.item)) else s.foreign))
  }

  /** Success means effect, and a route or rule is never added over an existing one. */
  predicate Honest(s: Snapshot, e: Event) {
    e.World? || ((e.ok ==> e.applied) && (e.Add? && e.ok && !e.item.LinkItem? ==> !Has(s.kernel, e.item)))
  }

  /** A history in which the world moved as it does, every call was confined, and every
      state in between could have been recovered from its own record. */
  ghost predicate Safe(world: nat -> Move, start: Snapshot, history: seq<Event>) {
    if history == [] then Recoverable(start)
    else
      var n, last := |history| - 1, history[|history| - 1];
      var s := Run(start, history[..n]);
      && Safe(world, start, history[..n])
      && (last.World? ==> last.move == world(n))
      && Confined(s, last) && Honest(s, last) && Recoverable(Step(s, last))
  }

  /** What holds at every moment of a safe history. */
  lemma {:induction false} SafeAt(world: nat -> Move, start: Snapshot, history: seq<Event>, i: nat)
    requires Safe(world, start, history) && i <= |history|
    ensures Recoverable(Run(start, history[..i]))
    ensures i < |history| ==>
              var s := Run(start, history[..i]);
              Confined(s, history[i]) && Honest(s, history[i]) && (history[i].World? ==> history[i].move == world(i))
    decreases |history|
  {
    if i == |history| {
      assert history[..i] == history;
    } else {
      var init := history[..|history| - 1];
      SafeAt(world, start, init, i);
      assert init[..i] == history[..i];
    }
  }

  /** What the rest of the system makes of its own part of the kernel, left to itself but
      for routes through links that the daemon deletes. */
  function Theirs(foreign: Kernel, history: seq<Event>): Kernel {
    if history == [] then foreign
    else
      var before, last := Theirs(foreign, history[..|history| - 1]), history[|history| - 1];
      match last
      case World(m) => Moved(before, m)
      case Delete(item, true, _) => Minus(before, Through(before, item))
      case _ => before
  }

  /** Nothing else: in a safe history what belongs to others is what they made of it. */
  lemma {:induction false} ForeignIsTheirs(world: nat -> Move, start: Snapshot, history: seq<Event>)
    requires Safe(world, start, history)
    ensures Run(start, history).foreign == Theirs(start.foreign, history)
  {
    hide Recoverable;
    if history != [] {
      ForeignIsTheirs(world, start, history[..|history| - 1]);
    }
  }

  /** The exclusive adds of a history and whether they succeeded. */
  datatype Attempt = Attempt(item: Item, ok: bool)

  function Attempts(history: seq<Event>): seq<Attempt> {
    if history == [] then []
    else
      var last := history[|history| - 1];
      Attempts(history[..|history| - 1])
      + if last.Add? && !last.item.LinkItem? then [Attempt(last.item, last.ok)] else []
  }

  lemma HistoryGrows(world: nat -> Move, start: Snapshot, history: seq<Event>, e: Event)
    ensures Run(start, history + [e]) == Step(Run(start, history), e)
    ensures Attempts(history + [e]) ==
            Attempts(history) + if e.Add? && !e.item.LinkItem? then [Attempt(e.item, e.ok)] else []
    ensures var s := Run(start, history);
            && Safe(world, start, history) && (e.World? ==> e.move == world(|history|))
            && Confined(s, e) && Honest(s, e) && Recoverable(Step(s, e))
            ==> Safe(world, start, history + [e])
  {
    var longer := history + [e];
    assert longer[..|history|] == history && longer[|longer| - 1] == e;
    hide Step, Confined, Honest, Recoverable;
  }

  /** Adding what the record names is confined and stays recoverable. */
  lemma AddIsConfined(s: Snapshot, e: Event)
    requires Recoverable(s) && e.Add? && Within(Only(e.item), Intents(s.durable))
    ensures Confined(s, e) && Recoverable(Step(s, e))
  {
    hide Intents, IsValid;
  }

  /** So is deleting what the record names: it is nobody else's. */
  lemma DeleteIsConfined(s: Snapshot, e: Event)
    requires Recoverable(s) && e.Delete? && Within(Only(e.item), Intents(s.durable))
    ensures Confined(s, e) && Recoverable(Step(s, e))
    ensures e.applied ==> !Has(Step(s, e).kernel, e.item)
    ensures Within(Minus(Step(s, e).kernel, Step(s, e).foreign), Minus(s.kernel, s.foreign))
  {
    hide Intents, IsValid;
    assert Minus(s.foreign, Only(e.item)) == s.foreign;
  }

  /** Writing a record that the kernel can be recovered from. */
  lemma SaveIsConfined(s: Snapshot, e: Event)
    requires e.Save? && Recoverable(s) && (e.ok ==> e.applied)
    requires e.applied ==> Recoverable(s.(durable := e.record))
    ensures Confined(s, e) && Honest(s, e) && Recoverable(Step(s, e))
  {
    hide Recoverable;
  }

  /** A move of the world that forges nothing. */
  lemma WorldIsConfined(s: Snapshot, m: Move)
    requires Recoverable(s) && Unforged(m.installed, s.durable)
    ensures Recoverable(Step(s, World(m)))
    ensures Within(Minus(Step(s, World(m)).kernel, Step(s, World(m)).foreign), Minus(s.kernel, s.foreign))
  {
    hide Intents, IsValid;
  }

  // ------------------------------------------------------------- the machine

  /** The kernel and the state file. A call may fail as long as failures are left. What
      the rest of the system does is fixed by `world`, move by move: whatever else
      changes is the daemon's doing and in its part of the history. */
  class Machine {
    const start: Snapshot
    const world: nat -> Move
    var kernel: Kernel
    var foreign: Kernel
    var durable: Option<Saved>
    var failures: nat
    var claim: Option<Claim>
    var history: seq<Event>

    function Now(): Snapshot
      reads this
    {
      Snapshot(kernel, foreign, durable)
    }

    /** What this activation has in the kernel. */
    function Ours(): Kernel
      reads this
    {
      Minus(kernel, foreign)
    }

    ghost predicate Valid()
      reads this
    {
      && Now() == Run(start, history) && Safe(world, start, history)
      && Recoverable(Now())
      && (claim.Some? ==> Unclaimed(foreign, claim.value) && Covered(durable, claim.value))
    }

    /** The daemon starts on whatever a crash left behind. */
    constructor Boot(s: Snapshot, faults: nat, world: nat -> Move)
      requires Recoverable(s)
      ensures Valid() && start == s && Now() == s && failures == faults && claim == None && history == []
      ensures this.world == world
    {
      start, this.world := s, world;
      kernel, foreign, durable, failures, claim, history := s.kernel, s.foreign, s.durable, faults, None, [];
    }

    /** A new random identity: nobody uses it, and nothing is recorded yet. */
    method Reserve(cookie: string, metric: nat)
      requires Valid() && Intents(durable) == NOTHING
      requires forall l :: l in kernel.links ==> l.alias != Alias(cookie)
      modifies this`claim
      ensures Valid() && claim == Some(Claim(cookie, metric, None))
    {
      claim := Some(Claim(cookie, metric, None));
    }

    /** Events were only appended, and this activation lost ground if anything. */
    twostate predicate Shrinks()
      reads this
    {
      && old(history) <= history && Attempts(history) == old(Attempts(history))
      && Within(Ours(), old(Ours())) && failures <= old(failures)
    }

    method Happen(e: Event)
      requires Valid() && !e.Save? && Confined(Now(), e) && Honest(Now(), e) && Recoverable(Step(Now(), e))
      requires e.World? ==> e.move == world(|history|)
      requires claim.Some? ==> Unclaimed(Step(Now(), e).foreign, claim.value)
      modifies this`kernel, this`foreign, this`history
      ensures Valid() && Now() == Step(old(Now()), e) && history == old(history) + [e]
      ensures Attempts(history) ==
              old(Attempts(history)) + if e.Add? && !e.item.LinkItem? then [Attempt(e.item, e.ok)] else []
    {
      HistoryGrows(world, start, history, e);
      var next := Step(Now(), e);
      kernel, foreign, history := next.kernel, next.foreign, history + [e];
    }

    method Fails() returns (fails: bool)
      modifies this`failures
      ensures failures <= old(failures) && (fails <==> failures < old(failures))
    {
      var unlucky: bool := *;
      fails := unlucky && failures > 0;
      if fails {
        failures := failures - 1;
      }
    }

    /** The rest of the system moves: it may install and remove what it likes, ours
        included, short of forging this activation's selectors. */
    method Others()
      requires Valid()
      modifies this`kernel, this`foreign, this`history
      ensures Valid() && Shrinks()
      ensures forall i :: |old(history)| <= i < |history| ==> history[i].World?
    {
      var m := world(|history|);
      if Unforged(m.installed, durable) && (claim.Some? ==> Unclaimed(m.installed, claim.value)) {
        WorldIsConfined(Now(), m);
        Happen(World(m));
      }
    }

    /** `State::save`: refuses an invalid record; otherwise atomic, but an error may
        still have replaced the file. */
    method Persist(saved: Saved) returns (ok: bool)
      requires Valid()
      requires IsValid(saved.owner) ==>
                 Recoverable(Now().(durable := Some(saved))) && (claim.Some? ==> Covered(Some(saved), claim.value))
      modifies this`durable, this`failures, this`history
      ensures Valid() && Shrinks()
      ensures ok ==> durable == Some(saved)
      ensures !ok ==> durable in {old(durable), Some(saved)} && (failures < old(failures) || !IsValid(saved.owner))
    {
      hide Safe, Run, Attempts, Theirs, Confined, Honest, Recoverable, Covered, IsValid;
      if !IsValid(saved.owner) {
        return false;
      }
      var fails := Fails();
      var written: bool := *;
      var e := Save(Some(saved), !fails || written, !fails);
      SaveIsConfined(Now(), e);
      HistoryGrows(world, start, history, e);
      durable, history := Step(Now(), e).durable, history + [e];
      ok := !fails;
    }

    /** Adding an object that is already a durable intent. */
    method AddItem(item: Item) returns (ok: bool)
      requires Valid() && Within(Only(item), Intents(durable))
      modifies this`kernel, this`foreign, this`failures, this`history
      ensures Valid() && old(history) <= history && failures <= old(failures) && foreign == old(foreign)
      ensures Attempts(history) == old(Attempts(history)) + if item.LinkItem? then [] else [Attempt(item, ok)]
      ensures ok ==> kernel == Union(old(kernel), Only(item)) && (item.LinkItem? || !Has(old(kernel), item))
      ensures !ok ==> kernel in {old(kernel), Union(old(kernel), Only(item))}
      ensures failures == old(failures) && !ok ==> !item.LinkItem? && Has(old(kernel), item)
    {
      hide Safe, Run, Attempts, Theirs, Confined, Recoverable, Covered;
      var present := Has(kernel, item) && !item.LinkItem?;
      var fails := Fails();
      var applied: bool := *;
      ok := !fails && !present;
      var e := Add(item, ok || (applied && !present), ok);
      AddIsConfined(Now(), e);
      Happen(e);
    }

    /** `owned_route_add`: exclusive, an existing route is never adopted. */
    method RouteAdd(r: KernelRoute) returns (ok: bool)
      requires Valid() && r in Intents(durable).routes
      modifies this`kernel, this`foreign, this`failures, this`history
      ensures Valid() && old(history) <= history && failures <= old(failures) && foreign == old(foreign)
      ensures Attempts(history) == old(Attempts(history)) + [Attempt(RouteItem(r), ok)]
      ensures ok ==> r !in old(kernel).routes && kernel == old(kernel).(routes := old(kernel).routes + {r})
      ensures !ok ==> kernel in {old(kernel), old(kernel).(routes := old(kernel).routes + {r})}
    {
      OneItem(kernel, RouteItem(r));
      ok := AddItem(RouteItem(r));
    }

    method RuleAdd(r: KernelRule) returns (ok: bool)
      requires Valid() && r in Intents(durable).rules
      modifies this`kernel, this`foreign, this`failures, this`history
      ensures Valid() && old(history) <= history && failures <= old(failures) && foreign == old(foreign)
      ensures Attempts(history) == old(Attempts(history)) + [Attempt(RuleItem(r), ok)]
      ensures ok ==> r !in old(kernel).rules && kernel == old(kernel).(rules := old(kernel).rules + {r})
      ensures !ok ==> kernel in {old(kernel), old(kernel).(rules := old(kernel).rules + {r})}
    {
      OneItem(kernel, RuleItem(r));
      ok := AddItem(RuleItem(r));
    }

    /** Setting the persist flag of the transient device this activation created. */
    method MakePersistent(link: Link) returns (ok: bool)
      requires Valid() && link in Intents(durable).links
      modifies this`kernel, this`foreign, this`failures, this`history
      ensures Valid() && old(history) <= history && failures <= old(failures) && foreign == old(foreign)
      ensures Attempts(history) == old(Attempts(history))
      ensures kernel in {old(kernel), old(kernel).(links := old(kernel).links + {link})}
      ensures ok ==> link in kernel.links
    {
      OneItem(kernel, LinkItem(link));
      ok := AddItem(LinkItem(link));
    }

    /** Deleting an object of the record, by exact selector. */
    method DeleteItem(item: Item) returns (ok: bool)
      requires Valid() && Within(Only(item), Intents(durable))
      modifies this`kernel, this`foreign, this`failures, this`history
      ensures Valid() && Shrinks()
      ensures |history| == |old(history)| + 1 && history[|old(history)|].Delete? && history[|old(history)|].item == item
      ensures if ok then !Has(kernel, item) && failures == old(failures) else failures < old(failures)
      ensures Now() in {old(Now()), Step(old(Now()), Delete(item, true, ok))}
      ensures ok ==> Now() == Step(old(Now()), Delete(item, true, ok))
    {
      var fails := Fails();
      var applied: bool := *;
      ok := !fails;
      var e := Delete(item, ok || applied, ok);
      DeleteIsConfined(Now(), e);
      Happen(e);
    }

    /** `owned_route_del`: an absent route is no error. */
    method RouteDel(r: KernelRoute) returns (ok: bool)
      requires Valid() && r in Intents(durable).routes
      modifies this`kernel, this`foreign, this`failures, this`history
      ensures Valid() && Shrinks() && foreign == old(foreign)
      ensures |history| == |old(history)| + 1 && history[|old(history)|].Delete?
      ensures history[|old(history)|].item == RouteItem(r)
      ensures ok ==> kernel == old(kernel).(routes := old(kernel).routes - {r}) && failures == old(failures)
      ensures !ok ==> failures < old(failures)
      ensures !ok ==> kernel in {old(kernel), old(kernel).(routes := old(kernel).routes - {r})}
    {
      OneItem(kernel, RouteItem(r));
      ok := DeleteItem(RouteItem(r));
      SelectorIsOurs(old(foreign), RouteItem(r), durable);
    }

    method RuleDel(r: KernelRule) returns (ok: bool)
      requires Valid() && r in Intents(durable).rules
      modifies this`kernel, this`foreign, this`failures, this`history
      ensures Valid() && Shrinks() && foreign == old(foreign)
      ensures |history| == |old(history)| + 1 && history[|old(history)|].Delete?
      ensures history[|old(history)|].item == RuleItem(r)
      ensures ok ==> kernel == old(kernel).(rules := old(kernel).rules - {r}) && failures == old(failures)
      ensures !ok ==> failures < old(failures)
      ensures !ok ==> kernel in {old(kernel), old(kernel).(rules := old(kernel).rules - {r})}
    {
      OneItem(kernel, RuleItem(r));
      ok := DeleteItem(RuleItem(r));
      SelectorIsOurs(old(foreign), RuleItem(r), durable);
    }

    /** Removing a link of ours; the kernel drops every route through it as well. */
    method LinkDel(link: Link) returns (ok: bool)
      requires Valid() && link in Intents(durable).links
      modifies this`kernel, this`foreign, this`failures, this`history
      ensures Valid() && Shrinks()
      ensures |history| == |old(history)| + 1 && history[|old(history)|].Delete?
      ensures history[|old(history)|].item == LinkItem(link)
      ensures foreign in {old(foreign), Minus(old(foreign), Through(old(foreign), LinkItem(link)))}
      ensures if ok then link !in kernel.links else failures < old(failures)
    {
      OneItem(kernel, LinkItem(link));
      ok := DeleteItem(LinkItem(link));
      SelectorIsOurs(old(foreign), LinkItem(link), durable);
    }

    /** `owned_device_index`: any link with the recorded name or index must carry the
        recorded identity, or nothing is touched. */
    method OwnedLink(saved: Saved) returns (ok: bool, found: Option<Link>)
      requires durable.Some? && SameIntents(durable.value, saved)
      modifies this`failures
      ensures failures <= old(failures)
      ensures ok && found.Some? ==> found.value in kernel.links && found.value in Intents(Some(saved)).links
      ensures ok && found.None? ==> kernel.links !! Intents(Some(saved)).links
      ensures !ok ==> failures < old(failures) || !IsValid(saved.owner) || Displaced(kernel, saved)
    {
      ok, found := false, None;
      if !IsValid(saved.owner) {
        return;
      }
      var fails := Fails();
      if fails {
        return;
      }
      if l :| l in kernel.links && (Some(l.index) == saved.owner.deviceIndex || l.name == saved.device) {
        if Some(l.index) == saved.owner.deviceIndex && l.name == saved.device && l.alias == Alias(saved.owner.cookie) {
          return true, Some(l);
        }
        return;
      }
      ok := true;
    }

    /** The route loop of the cleanup, newest first: its only calls delete recorded routes. */
    method RemoveRoutes(saved: Saved) returns (ok: bool)
      requires Valid() && durable.Some? && SameIntents(durable.value, saved)
      modifies this`kernel, this`foreign, this`failures, this`history
      ensures Valid() && Shrinks()
      ensures forall i :: |old(history)| <= i < |history| && !history[i].World? ==>
                history[i].Delete? && history[i].item.RouteItem? && history[i].item.route in Intents(durable).routes
      ensures if ok then Ours().routes == {} && failures == old(failures) else failures < old(failures)
    {
      hide Safe, Run, Attempts, Step, Confined, Theirs;
      var o := saved.owner;
      for i := |o.routes| downto 0
        invariant Valid() && Shrinks() && failures == old(failures)
        invariant forall i :: |old(history)| <= i < |history| && !history[i].World? ==>
                    history[i].Delete? && history[i].item.RouteItem? && history[i].item.route in Intents(durable).routes
        invariant forall j :: i <= j < |o.routes| ==> RouteMessage(o.routes[j], o.metric) !in Ours().routes
      {
        Others();
        ok := RouteDel(RouteMessage(o.routes[i], o.metric));
        if !ok {
          return;
        }
      }
      ok := true;
    }

    /** Then the rule. */
    method RemoveRule(saved: Saved) returns (ok: bool)
      requires Valid() && durable.Some? && SameIntents(durable.value, saved)
      modifies this`kernel, this`foreign, this`failures, this`history
      ensures Valid() && Shrinks()
      ensures forall i :: |old(history)| <= i < |history| && !history[i].World? ==>
                history[i].Delete? && history[i].item.RuleItem? && history[i].item.rule in Intents(durable).rules
      ensures if ok then Ours().rules == {} && failures == old(failures) else failures < old(failures)
    {
      hide Safe, Run, Attempts, Step, Confined, Theirs;
      ok := true;
      if saved.owner.rule.Some? {
        Others();
        ok := RuleDel(RuleMessage(saved.owner.rule.value));
      }
    }

    /** And last the device, identified again. */
    method RemoveDevice(saved: Saved) returns (ok: bool)
      requires Valid() && durable.Some? && SameIntents(durable.value, saved)
      modifies this`kernel, this`foreign, this`failures, this`history
      ensures Valid() && Shrinks()
      ensures forall i :: |old(history)| <= i < |history| && !history[i].World? ==>
                history[i].Delete? && history[i].item.LinkItem? && history[i].item.link in Intents(durable).links
      ensures ok ==> Ours().links == {}
      ensures !ok ==> failures < old(failures) || !IsValid(saved.owner) || Displaced(kernel, saved)
    {
      hide Safe, Run, Attempts, Step, Confined, Theirs;
      Others();
      var known, link := OwnedLink(saved);
      ok := known;
      if known && link.Some? {
        ok := LinkDel(link.value);
      }
    }

    /** `cleanup_owned_resources`, deleting the device too: all of ours and nothing else. */
    method CleanupOwned(saved: Saved) returns (ok: bool)
      requires Valid() && durable.Some? && SameIntents(durable.value, saved)
      modifies this`kernel, this`foreign, this`failures, this`history
      ensures Valid() && Shrinks()
      ensures forall i :: |old(history)| <= i < |history| ==> history[i].World? || history[i].Delete?
      ensures foreign == Theirs(start.foreign, history)
      ensures ok ==> Ours() == NOTHING
      ensures !ok ==> failures < old(failures) || !IsValid(saved.owner) || Displaced(kernel, saved)
    {
      hide Safe, Run, Attempts, Step, Confined, Theirs;
      ForeignIsTheirs(world, start, history);
      if !IsValid(saved.owner) {
        return false;
      }
      Others();
      var known, _ := OwnedLink(saved);
      ok := known;
      if ok {
        ok := RemoveRoutes(saved);
      }
      if ok {
        ok := RemoveRule(saved);
      }
      if ok {
        ok := RemoveDevice(saved);
      }
      ForeignIsTheirs(world, start, history);
    }

    /** Dropping the record of what has been removed; the save may fail. */
    method Forget()
      requires Valid() && Ours() == NOTHING
      modifies this`durable, this`failures, this`history
      ensures Valid() && Shrinks()
      ensures durable in {None, old(durable)}
    {
      hide Safe, Run, Attempts, Theirs;
      var fails := Fails();
      var written: bool := *;
      var e := Save(None, !fails || written, !fails);
      SaveIsConfined(Now(), e);
      HistoryGrows(world, start, history, e);
      durable, history := Step(Now(), e).durable, history + [e];
    }

    /** `recover_interface`, owned branch, as `recover` runs it: mark the record, clean
        up from it, and only then drop it. Nothing but the record and the kernel is
        consulted. */
    method Recover() returns (ok: bool)
      requires Valid()
      modifies this`kernel, this`foreign, this`durable, this`failures, this`history
      ensures Valid() && Shrinks()
      ensures foreign == Theirs(start.foreign, history)
      ensures ok ==> Ours() == NOTHING
      ensures old(durable).None? ==> ok
      ensures !ok ==> failures < old(failures) || Displaced(kernel, old(durable).value)
      ensures !ok ==> durable.Some?
      ensures durable.Some? ==> old(durable).Some? && SameIntents(durable.value, old(durable).value)
    {
      hide Safe, Run, Attempts, Theirs, Confined;
      ForeignIsTheirs(world, start, history);
      if durable.None? {
        return true;
      }
      var saved := durable.value;
      ok := Persist(saved.(owner := saved.owner.(cleanupDirty := true)));
      if ok {
        ok := CleanupOwned(saved);
      }
      if ok {
        Forget();
      }
      ForeignIsTheirs(world, start, history);
    }

    /** Starting over until recovery succeeds: it does, once nothing fails any more,
        unless somebody else has taken the device's name or index. What is left then is
        what the rest of the system made of its own. */
    method RecoverEventually() returns (ok: bool)
      requires Valid()
      modifies this`kernel, this`foreign, this`durable, this`failures, this`history
      ensures Valid() && Shrinks()
      ensures if ok then kernel == foreign == Theirs(start.foreign, history)
              else old(durable).Some? && Displaced(kernel, old(durable).value)
    {
      ok := false;
      ghost var was := durable;
      while true
        invariant Valid() && Shrinks()
        invariant durable.Some? <==> was.Some?
        invariant durable.Some? ==> SameIntents(durable.value, was.value)
        decreases failures
      {
        var budget := failures;
        ok := Recover();
        if ok {
          Reunited(kernel, foreign);
          return;
        }
        if failures == budget {
          return;
        }
      }
    }
  }

  /** What the record names by exact selector is no object of others. */
  lemma SelectorIsOurs(foreign: Kernel, item: Item, saved: Option<Saved>)
    requires Unforged(foreign, saved) && Within(Only(item), Intents(saved))
    ensures Minus(foreign, Only(item)) == foreign
  {
  }

  /** Somebody else's link has the recorded name or index. */
  predicate Displaced(k: Kernel, saved: Saved) {
    exists l :: l in k.links && l !in Intents(Some(saved)).links
             && (Some(l.index) == saved.owner.deviceIndex || l.name == saved.device)
  }

  /** Records that differ in nothing recovery acts on. */
  predicate SameIntents(a: Saved, b: Saved) {
    a.device == b.device && a.owner.(cleanupDirty := false) == b.owner.(cleanupDirty := false)
  }

  lemma Reunited(kernel: Kernel, foreign: Kernel)
    requires Within(foreign, kernel) && Minus(kernel, foreign) == NOTHING
    ensures kernel == foreign
  {
    assert kernel.routes == foreign.routes + (kernel.routes - foreign.routes);
    assert kernel.rules == foreign.rules + (kernel.rules - foreign.rules);
    assert kernel.links == foreign.links + (kernel.links - foreign.links);
  }
}
