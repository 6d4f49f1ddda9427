/** Sessions, their interfaces and the traffic hold: the session half of `engine.rs`.
    Processes, netlink and the disk may fail at every call that reaches them. */
module Engine {
  import opened Wrappers
  import opened Plan
  import opened Envelope

  datatype Status = Disconnected | Running | Failed

  /** The Xray core: its status, and the single server it was started for. */
  datatype Core = Core(status: Status, active: Option<Server>)

  const STOPPED := Core(Disconnected, None)
  const BROKEN := Core(Failed, None)

  datatype Selection = Single(id: string) | Pool(members: seq<string>)

  /** A profile interface. One with an envelope carries an ownership record, which
      `dirty` marks as due for cleanup. */
  datatype Interface = Interface(plan: RoutePlan, envelope: Option<TunEnvelope>, up: bool, helper: bool, dirty: bool) {
    predicate Owned() { envelope.Some? }
  }

  datatype Session = Session(holdsTraffic: bool, holding: bool, pending: bool, customRouting: bool,
                             selection: Option<Selection>, core: Core, interface: Option<Interface>) {
    predicate Enveloped() { interface.Some? && interface.value.Owned() }

    predicate IsUp() { interface.Some? && interface.value.up }

    predicate Dirty() { Enveloped() && interface.value.dirty }

    predicate HoldPolicy() { holdsTraffic || Enveloped() }
  }

  const NEW_SESSION := Session(true, false, false, false, None, STOPPED, None)

  type Sessions = map<string, Session>

  /** A start of a single-server core, and the session it was started in. */
  datatype Start = Start(profile: string, server: Server, under: Session)

  // ------------------------------------------------------- what calls may do

  /** `stop_interface`: an owned interface goes away once cleaned up, any other stays,
      down. A failure may leave either in place, the owned one marked; or it comes after
      the cleanup, from forgetting a bound cgroup, and the interface is gone. */
  predicate StoppedInterface(i: Option<Interface>, j: Option<Interface>, ok: bool) {
    if i.None? then j == i
    else if i.value.Owned() then
      if ok || j.None? then j.None?
      else j.value == i.value.(dirty := true, up := j.value.up, helper := j.value.helper) && (j.value.up ==> i.value.up)
    else
      && j.Some? && j.value == i.value.(up := j.value.up, helper := j.value.helper)
      && (j.value.up ==> i.value.up)
      && (ok ==> !j.value.up && !j.value.helper)
  }

  predicate MayStop(i: Option<Interface>, j: Option<Interface>) {
    StoppedInterface(i, j, true) || StoppedInterface(i, j, false) || i == j
  }

  predicate SameButHelper(i: Option<Interface>, j: Option<Interface>) {
    i == j || (i.Some? && j.Some? && j.value == i.value.(helper := j.value.helper))
  }

  /** The hold that nothing but a confirmation or an explicit request may end. */
  predicate Held(s: Session) {
    s.HoldPolicy() && s.holding && s.IsUp()
  }

  predicate HoldKept(s: Session, t: Session) {
    && Held(t) && s.interface.Some?
    && t.holdsTraffic == s.holdsTraffic
    && t.interface.value.plan == s.interface.value.plan
    && t.interface.value.envelope == s.interface.value.envelope
  }

  predicate KeepsRoutes(s: Session) {
    s.holding || s.Enveloped() || s.interface.None? || !(s.interface.value.up || s.interface.value.helper)
  }

  /** What one connection attempt adds to the log of starts: nothing, and then the core is
      as it was, or one start of the server asked for. */
  ghost predicate Dialled(profile: string, id: string, catalog: seq<Server>, s: Session, t: Session,
                          before: seq<Start>, after: seq<Start>, ok: bool) {
    if after == before then !ok && t == s.(interface := t.interface)
    else
      && |after| == |before| + 1 && before <= after
      && var start := after[|before|];
         && start.profile == profile && start.server.id == id && start.server in catalog
         && start.under == s.(interface := t.interface)
         && StartOk(start)
         && (s.Enveloped() ==> ValidCandidates(s.interface.value.envelope.value, catalog))
         && (ok ==> t.core == Core(Running, Some(start.server)))
  }

  /** A connection attempt: the hold is untouched, the routes too unless nothing
      holds them, and the core is left alone, started, or broken. */
  predicate Reconnected(s: Session, t: Session, ok: bool, chosen: Selection, active: Option<Server>) {
    && t.holdsTraffic == s.holdsTraffic && t.holding == s.holding && t.customRouting == s.customRouting
    && (if KeepsRoutes(s) then SameButHelper(s.interface, t.interface) else MayStop(s.interface, t.interface))
    && if ok then t.pending && t.selection == Some(chosen) && t.core == Core(Running, active)
       else || (t.pending == s.pending && t.selection == s.selection && t.core == s.core)
            || (t.pending && t.selection.None? && t.core == BROKEN)
  }

  /** One start of a single-server core, below the engine. */
  predicate CoreTried(s: Session, t: Session, ok: bool, server: Server) {
    && SameButHelper(s.interface, t.interface) && (!s.Enveloped() ==> t.interface == s.interface)
    && var u := s.(interface := t.interface);
       if ok then t == u.(pending := true, selection := Some(Single(server.id)), core := Core(Running, Some(server)))
       else t == u || t == u.(pending := true, selection := None, core := BROKEN)
  }

  lemma ReconnectComposes(s: Session, m: Session, t: Session, ok: bool, server: Server)
    requires m == s.(interface := m.interface)
    requires if KeepsRoutes(s) then m == s else MayStop(s.interface, m.interface)
    requires CoreTried(m, t, ok, server)
    ensures Reconnected(s, t, ok, Single(server.id), t.core.active)
  {
  }

  /** The core went away by itself. */
  predicate Exited(s: Session, t: Session, held: bool) {
    && held == s.HoldPolicy()
    && if held then t == s.(holding := true)
       else t == s.(interface := t.interface) && MayStop(s.interface, t.interface)
  }

  /** `stop_session`: asked for, so released. */
  predicate Stopped(s: Session, t: Session) {
    && t == s.(interface := t.interface, core := STOPPED, pending := false, selection := None, holding := false)
    && MayStop(s.interface, t.interface)
  }

  /** `confirmation_failed`. */
  predicate Unconfirmed(s: Session, t: Session, held: bool) {
    if s.Enveloped() && !s.IsUp() then
      !held && t == s.(core := BROKEN, holding := false)
    else
      && held == (s.HoldPolicy() && s.IsUp())
      && if held then t == s.(core := BROKEN, holding := true) else Stopped(s, t)
  }

  /** `start_interface`: an interface that is up at most gets its helper back. One that
      was down is up after a success; also after a failure of the very last save. */
  predicate Started(s: Session, t: Session, ok: bool) {
    && t == s.(interface := t.interface)
    && if s.interface.None? || s.interface.value.up then SameButHelper(s.interface, t.interface)
       else
         && t.interface.Some?
         && t.interface.value == s.interface.value.(up := t.interface.value.up, helper := t.interface.value.helper,
                                                    dirty := t.interface.value.dirty)
         && (ok ==> t.interface.value.up)
         && (t.interface.value.up ==> t.interface.value.helper && t.interface.value.dirty == s.interface.value.dirty)
  }

  predicate Uses(s: Session, gone: string -> bool) {
    && s.core.status != Disconnected && s.selection.Some?
    && match s.selection.value
       case Single(id) => gone(id)
       case Pool(members) => exists i :: 0 <= i < |members| && gone(members[i])
  }

  /** The catalogue lost servers this session may be using. */
  predicate Bereaved(s: Session, t: Session, gone: string -> bool) {
    if !Uses(s, gone) then t == s
    else if s.Enveloped() then t == s.(core := BROKEN, pending := false, selection := None, holding := true)
    else Stopped(s, t)
  }

  // -------------------------------------------------------------- invariants

  /** The bypasses an enveloped interface was planned with cover every address its
      candidates dial; in manual mode the main table captures nothing. */
  ghost predicate PlanOk(plan: RoutePlan, envelope: Option<TunEnvelope>) {
    envelope.Some? ==>
      if envelope.value.interface.routes.Manual? then plan.system == []
      else Bypassed(Addresses(envelope.value), plan.system)
  }

  ghost predicate InterfaceOk(i: Interface) { PlanOk(i.plan, i.envelope) }

  /** Under an envelope a core is started only for a server that is a member still as it
      was authorized, with hold, without custom routing, while no cleanup is due; and so
      it dials an address the bypasses cover. */
  ghost predicate StartOk(start: Start) {
    start.under.Enveloped() ==>
      var i := start.under.interface.value;
      && start.under.holdsTraffic && !start.under.customRouting && !i.dirty
      && ValidCandidate(i.envelope.value, start.server)
      && start.server.address.Some? && start.server.address.value in Addresses(i.envelope.value)
      && InterfaceOk(i)
  }

  /** A running single-server core has a logged start. */
  ghost predicate IsLogged(starts: seq<Start>, profile: string, core: Core) {
    core.status.Running? && core.active.Some? ==>
      exists i :: 0 <= i < |starts| && starts[i].profile == profile && starts[i].server == core.active.value
  }

  ghost predicate StartsOk(starts: seq<Start>, sessions: Sessions) {
    && (forall i :: 0 <= i < |starts| ==> StartOk(starts[i]))
    && (forall p :: p in sessions ==> IsLogged(starts, p, sessions[p].core))
  }

  lemma LoggedLater(starts: seq<Start>, more: seq<Start>, profile: string, core: Core)
    requires starts <= more && IsLogged(starts, profile, core)
    ensures IsLogged(more, profile, core)
  {
  }

  lemma StartsGrow(starts: seq<Start>, sessions: Sessions, start: Start)
    requires StartsOk(starts, sessions) && StartOk(start)
    ensures StartsOk(starts + [start], sessions)
    ensures IsLogged(starts + [start], start.profile, Core(Running, Some(start.server)))
  {
    hide StartOk, IsLogged;
    var more := starts + [start];
    forall p | p in sessions
      ensures IsLogged(more, p, sessions[p].core)
    {
      LoggedLater(starts, more, p, sessions[p].core);
    }
    LastIsLogged(starts, start);
  }

  lemma LastIsLogged(starts: seq<Start>, start: Start)
    ensures IsLogged(starts + [start], start.profile, Core(Running, Some(start.server)))
  {
    assert (starts + [start])[|starts|] == start;
  }

  ghost predicate Exclusive(sessions: Sessions) {
    forall p, q :: p in sessions && q in sessions && p != q && sessions[p].Enveloped() ==> sessions[q].interface.None?
  }

  ghost predicate SessionsOk(sessions: Sessions) {
    && Exclusive(sessions)
    && forall p :: p in sessions && sessions[p].interface.Some? ==> InterfaceOk(sessions[p].interface.value)
  }

  lemma LessInterfaceIsOk(sessions: Sessions, profile: string, t: Session)
    requires SessionsOk(sessions) && profile in sessions && NoNewInterface(sessions[profile], t)
    ensures SessionsOk(sessions[profile := t])
  {
  }

  lemma NewInterfaceIsOk(sessions: Sessions, profile: string, t: Session)
    requires SessionsOk(sessions) && profile in sessions
    requires t.interface.Some? && InterfaceOk(t.interface.value)
    requires forall q :: q in sessions && q != profile ==>
               !sessions[q].Enveloped() && (t.Enveloped() ==> sessions[q].interface.None?)
    ensures SessionsOk(sessions[profile := t])
  {
  }

  lemma UpdateElsewhere<V>(m: map<string, V>, key: string, value: V)
    ensures m[key := value] - {key} == m - {key}
  {
  }

  /** Maps that agree but at one key agree at every other. */
  lemma AgreeElsewhere<V>(key: string, other: string, was: map<string, V>, now: map<string, V>)
    requires was - {key} == now - {key} && other != key
    ensures other in was <==> other in now
    ensures other in was ==> now[other] == was[other]
  {
    assert other in was <==> other in was - {key};
    assert other in now <==> other in now - {key};
    if other in was {
      assert (now - {key})[other] == (was - {key})[other];
    }
  }

  predicate OthersSame(profile: string, was: Sessions, now: Sessions) {
    was - {profile} == now - {profile}
  }

  /** A session whose interface is, if anything, the one it had. */
  predicate NoNewInterface(s: Session, t: Session) {
    t.interface.Some? ==>
      s.interface.Some? && t.interface.value.envelope == s.interface.value.envelope
          && t.interface.value.plan == s.interface.value.plan
  }

  /** The guards of `Session::connect`. */
  predicate Permitted(s: Session, server: Server) {
    && !s.Dirty()
    && (s.Enveloped() ==>
          s.holdsTraffic && !s.customRouting && ValidCandidate(s.interface.value.envelope.value, server))
  }

  lemma PermittedIsOk(sessions: Sessions, profile: string, s: Session, server: Server)
    requires SessionsOk(sessions) && profile in sessions && Permitted(sessions[profile], server)
    requires s == sessions[profile].(interface := s.interface)
    requires SameButHelper(sessions[profile].interface, s.interface)
    ensures StartOk(Start(profile, server, s))
  {
    if s.Enveloped() {
      assert InterfaceOk(sessions[profile].interface.value);
      AcceptedDialsPlanned(s.interface.value.envelope.value, server);
    }
  }

  lemma BrokenIsLogged(starts: seq<Start>, profile: string)
    ensures IsLogged(starts, profile, BROKEN) && IsLogged(starts, profile, STOPPED)
    ensures IsLogged(starts, profile, Core(Running, None))
  {
  }

  /** The daemon's engine. `saved` is the in-memory state file: which profiles it
      names, and whether it records an owned interface for them. */
  class Engine {
    var catalog: seq<Server>
    var sessions: Sessions
    var saved: map<string, bool>
    ghost var starts: seq<Start>

    constructor (catalog: seq<Server>, saved: map<string, bool>)
      ensures Valid() && sessions == map[] && starts == [] && this.saved == saved && this.catalog == catalog
    {
      this.catalog, this.saved := catalog, saved;
      sessions, starts := map[], [];
    }

    ghost predicate Valid()
      reads this
    {
      SessionsOk(sessions) && StartsOk(starts, sessions)
    }

    ghost function Now(): State
      reads this
    {
      State(catalog, sessions, saved, starts)
    }

    /** A recorded owned interface that no live one answers for: recovery failed. */
    predicate Unresolved(profile: string)
      reads this`sessions, this`saved
    {
      profile in saved && saved[profile] && (profile in sessions ==> sessions[profile].interface.None?)
    }

    /** Only this profile's record may have changed, and not while it is unresolved:
        nothing but recovery itself drops what a failed recovery left recorded. */
    twostate predicate RecordKept(profile: string)
      reads this`sessions, this`saved
    {
      && saved - {profile} == old(saved) - {profile}
      && (old(Unresolved(profile)) ==> Unresolved(profile))
    }

    predicate Ready(profile: string)
      reads this
    {
      !Unresolved(profile) && (profile in sessions ==> !sessions[profile].Dirty())
    }

    /** Replacing one session's value, its interface at most stopped or dropped. */
    method Put(profile: string, t: Session)
      requires Valid() && profile in sessions && NoNewInterface(sessions[profile], t)
      requires t.core == sessions[profile].core || IsLogged(starts, profile, t.core)
      modifies this`sessions
      ensures Valid() && sessions == old(sessions)[profile := t] && OthersSame(profile, old(sessions), sessions)
    {
      LessInterfaceIsOk(sessions, profile, t);
      ghost var was := sessions;
      sessions := sessions[profile := t];
      assert sessions - {profile} == was - {profile};
    }

    /** `sync_session`: the record of a failed recovery is left alone. */
    method SyncSession(profile: string)
      modifies this`saved
      ensures RecordKept(profile)
      ensures saved == if old(Unresolved(profile)) || profile !in sessions then old(saved)
                       else old(saved)[profile := sessions[profile].Enveloped()]
    {
      if !Unresolved(profile) && profile in sessions {
        saved := saved[profile := sessions[profile].Enveloped()];
      }
    }

    /** `cleanup_live_interface` and the deletion of its record. */
    method StopOwned(profile: string) returns (ok: bool)
      requires Valid() && profile in sessions && sessions[profile].Enveloped()
      modifies this`sessions, this`saved
      ensures Valid() && OthersSame(profile, old(sessions), sessions) && RecordKept(profile)
      ensures profile in sessions
      ensures var s, t := old(sessions)[profile], sessions[profile];
              t == s.(interface := t.interface) && StoppedInterface(s.interface, t.interface, ok)
      ensures saved == if profile in old(saved) then old(saved)[profile := sessions[profile].interface.Some?]
          else old(saved)
      ensures sessions[profile].interface.None? ==> profile in saved
    {
      hide SessionsOk, StartsOk, StartOk, IsLogged, PlanOk;
      var s := sessions[profile];
      var i := s.interface.value;
      var stillUp: bool, stillHelped: bool;
      var cleaned: bool;
      cleaned, ok, stillUp, stillHelped := *, *, *, *;
      // The mark is recorded first, which a profile the state file lacks cannot be.
      cleaned := cleaned && profile in saved;
      ok := ok && cleaned;  // the binding of a cgroup is forgotten last
      UpdateElsewhere(saved, profile, !cleaned);
      saved := if profile in saved then saved[profile := !cleaned] else saved;
      Put(profile, s.(interface := if cleaned then None
                                   else Some(i.(dirty := true, up := i.up && stillUp, helper := stillHelped))));
    }

    /** `cleanup_live_interface` for an interface without an envelope. */
    method StopLegacy(profile: string) returns (ok: bool)
      requires Valid() && profile in sessions && sessions[profile].interface.Some? && !sessions[profile].Enveloped()
      modifies this`sessions
      ensures Valid() && OthersSame(profile, old(sessions), sessions) && RecordKept(profile)
      ensures profile in sessions
      ensures var s, t := old(sessions)[profile], sessions[profile];
              t == s.(interface := t.interface) && StoppedInterface(s.interface, t.interface, ok)
    {
      hide SessionsOk, StartsOk, StartOk, IsLogged, PlanOk;
      var s := sessions[profile];
      var i := s.interface.value;
      var stillUp: bool, stillHelped: bool;
      ok, stillUp, stillHelped := *, *, *;
      Put(profile, s.(interface := Some(i.(up := !ok && i.up && stillUp, helper := !ok && stillHelped))));
    }

    /** `stop_interface`. */
    method StopInterface(profile: string) returns (ok: bool)
      requires Valid()
      modifies this`sessions, this`saved
      ensures Valid() && OthersSame(profile, old(sessions), sessions) && RecordKept(profile)
      ensures profile in sessions <==> profile in old(sessions)
      ensures profile in sessions ==>
                var s, t := old(sessions)[profile], sessions[profile];
                t == s.(interface := t.interface) && StoppedInterface(s.interface, t.interface, ok)
      ensures old(Unresolved(profile)) ==> !ok
      ensures ok ==> !Unresolved(profile)
      ensures ok && profile in sessions && profile in saved ==> !saved[profile]
    {
      if Unresolved(profile) {
        return false;
      }
      if profile !in sessions || sessions[profile].interface.None? {
        return true;
      }
      if sessions[profile].Enveloped() {
        ok := StopOwned(profile);
      } else {
        ok := StopLegacy(profile);
        SyncSession(profile);
      }
    }

    /** `ensure_interface_helper`: restarting the helper never removes a route. */
    method EnsureHelper(profile: string) returns (ok: bool)
      requires Valid()
      modifies this`sessions
      ensures Valid() && OthersSame(profile, old(sessions), sessions) && RecordKept(profile)
      ensures profile in sessions <==> profile in old(sessions)
      ensures profile in sessions ==>
                var s, t := old(sessions)[profile], sessions[profile];
                t == s.(interface := t.interface) && SameButHelper(s.interface, t.interface)
      ensures ok ==> old(Ready(profile)) && profile in sessions
    {
      if !Ready(profile) || profile !in sessions {
        return false;
      }
      ok := true;
      var s := sessions[profile];
      if s.IsUp() {
        var alive: bool;
        alive, ok := *, *;
        Put(profile, s.(interface := Some(s.interface.value.(helper := alive))));
      }
    }

    /** `note_core_exit`. */
    method NoteCoreExit(profile: string) returns (held: bool)
      requires Valid()
      modifies this`sessions, this`saved
      ensures Valid() && OthersSame(profile, old(sessions), sessions) && RecordKept(profile)
      ensures profile in sessions <==> profile in old(sessions)
      ensures profile in sessions ==> Exited(old(sessions)[profile], sessions[profile], held)
    {
      held := profile in sessions && sessions[profile].HoldPolicy();
      if !held {
        var _ := StopInterface(profile);
        return;
      }
      Put(profile, sessions[profile].(holding := true));
    }

    /** `confirm_traffic`. */
    method ConfirmTraffic(profile: string)
      requires Valid()
      modifies this`sessions
      ensures Valid() && OthersSame(profile, old(sessions), sessions) && RecordKept(profile)
      ensures profile in sessions <==> profile in old(sessions)
      ensures profile in sessions ==> sessions[profile] == old(sessions)[profile].(pending := false, holding := false)
    {
      if profile in sessions {
        Put(profile, sessions[profile].(pending := false, holding := false));
      }
    }

    /** `stop_session`. */
    method StopSession(profile: string)
      requires Valid()
      modifies this`sessions, this`saved
      ensures Valid() && OthersSame(profile, old(sessions), sessions) && RecordKept(profile)
      ensures profile in sessions <==> profile in old(sessions)
      ensures profile in sessions ==> Stopped(old(sessions)[profile], sessions[profile])
    {
      var _ := StopInterface(profile);
      if profile in sessions {
        var s := sessions[profile];
        Put(profile, s.(core := STOPPED, pending := false, selection := None, holding := false));
      }
      SyncSession(profile);
    }

    /** `confirmation_failed`. */
    method ConfirmationFailed(profile: string) returns (held: bool)
      requires Valid()
      modifies this`sessions, this`saved
      ensures Valid() && OthersSame(profile, old(sessions), sessions) && RecordKept(profile)
      ensures profile in sessions <==> profile in old(sessions)
      ensures profile in sessions ==> Unconfirmed(old(sessions)[profile], sessions[profile], held)
    {
      if profile in sessions && sessions[profile].Enveloped() && !sessions[profile].IsUp() {
        Put(profile, sessions[profile].(core := BROKEN, holding := false));
        SyncSession(profile);
        return false;
      }
      if !(profile in sessions && sessions[profile].HoldPolicy() && sessions[profile].IsUp()) {
        StopSession(profile);
        return false;
      }
      Put(profile, sessions[profile].(core := BROKEN));
      var _ := NoteCoreExit(profile);
      held := true;
    }

    /** `Session::connect`, once the engine has let it through. */
    method StartCore(profile: string, server: Server) returns (ok: bool)
      requires Valid() && profile in sessions
      modifies this`sessions, this`starts
      ensures Valid() && OthersSame(profile, old(sessions), sessions)
      ensures profile in sessions
      ensures CoreTried(old(sessions)[profile], sessions[profile], ok, server)
      ensures var s, t := old(sessions)[profile], sessions[profile];
              if starts == old(starts) then !ok && t == s.(interface := t.interface)
              else
                var start := Start(profile, server, s.(interface := t.interface));
                starts == old(starts) + [start] && StartOk(start)
    {
      hide SessionsOk, StartsOk, IsLogged;
      var s := sessions[profile];
      var alive: bool := *;
      if !Permitted(s, server) {
        return false;
      }
      if s.Enveloped() && s.IsUp() {
        s := s.(interface := Some(s.interface.value.(helper := alive)));
        if !alive {
          Put(profile, s);
          return false;
        }
      }
      PermittedIsOk(sessions, profile, s, server);
      LogStart(Start(profile, server, s));
      ok := *;
      s := if ok then s.(pending := true, selection := Some(Single(server.id)), core := Core(Running, Some(server)))
           else s.(pending := true, selection := None, core := BROKEN);
      BrokenIsLogged(starts, profile);
      Put(profile, s);
    }

    /** The core is launched. */
    ghost method LogStart(start: Start)
      requires Valid() && StartOk(start)
      modifies this`starts
      ensures Valid() && starts == old(starts) + [start]
      ensures IsLogged(starts, start.profile, Core(Running, Some(start.server)))
    {
      hide SessionsOk, StartOk, IsLogged;
      StartsGrow(starts, sessions, start);
      starts := starts + [start];
    }

    function Lookup(id: string, from: nat := 0): (found: Option<Server>)
      requires from <= |catalog|
      reads this`catalog
      ensures found.Some? ==> found.value.id == id && found.value in catalog
      decreases |catalog| - from
    {
      if from == |catalog| then None
      else if catalog[from].id == id then Some(catalog[from]) else Lookup(id, from + 1)
    }

    /** The envelope's part of `connect_session`. */
    method CheckEnvelope(profile: string, id: string) returns (ok: bool)
      requires Valid()
      modifies this`sessions
      ensures Valid() && OthersSame(profile, old(sessions), sessions) && RecordKept(profile)
      ensures profile in sessions <==> profile in old(sessions)
      ensures profile in sessions ==>
                var s, t := old(sessions)[profile], sessions[profile];
                && t == s.(interface := t.interface) && SameButHelper(s.interface, t.interface)
                && (!s.Enveloped() ==> t == s)
      ensures ok && profile in sessions && old(sessions)[profile].Enveloped() ==>
                var e := old(sessions)[profile].interface.value.envelope.value;
                Contains(e, id) && ValidCandidates(e, catalog)
    {
      ok := true;
      if profile in sessions && sessions[profile].Enveloped() {
        var e := sessions[profile].interface.value.envelope.value;
        ok := Contains(e, id) && ValidCandidates(e, catalog);
        if ok && sessions[profile].IsUp() {
          ok := EnsureHelper(profile);
        }
      }
    }

    /** Before a new core: routes nothing holds are taken down, held ones are not. */
    method ReleaseRoutes(profile: string) returns (ok: bool)
      requires Valid()
      modifies this`sessions, this`saved
      ensures Valid() && OthersSame(profile, old(sessions), sessions) && RecordKept(profile)
      ensures profile in sessions <==> profile in old(sessions)
      ensures profile in sessions ==>
                var s, t := old(sessions)[profile], sessions[profile];
                && t == s.(interface := t.interface)
                && (if KeepsRoutes(s) then t == s else MayStop(s.interface, t.interface))
    {
      ok := true;
      if profile in sessions && !KeepsRoutes(sessions[profile]) {
        ok := StopInterface(profile);
      }
    }

    /** The rest of `connect_session`, for a server of the catalogue. */
    method Dial(profile: string, server: Server) returns (ok: bool)
      requires Valid() && server in catalog
      requires profile in sessions && sessions[profile].Enveloped() ==>
                 ValidCandidates(sessions[profile].interface.value.envelope.value, catalog)
      modifies this`sessions, this`saved, this`starts
      ensures Valid() && OthersSame(profile, old(sessions), sessions) && RecordKept(profile)
      ensures profile in sessions <==> profile in old(sessions)
      ensures profile in sessions ==>
                var s, t := old(sessions)[profile], sessions[profile];
                && Reconnected(s, t, ok, Single(server.id), t.core.active)
                && Dialled(profile, server.id, catalog, s, t, old(starts), starts, ok)
      ensures profile !in sessions ==> !ok && starts == old(starts)
    {
      hide SessionsOk, StartsOk, StartOk, IsLogged;
      ok := ReleaseRoutes(profile);
      if !ok || profile !in sessions {
        return false;
      }
      ghost var s, m := old(sessions)[profile], sessions[profile];
      ok := StartCore(profile, server);
      ReconnectComposes(s, m, sessions[profile], ok, server);
      if ok {
        SyncSession(profile);
      }
    }

    /** `connect_session`: a reconnect under a hold leaves the interface in place. */
    method ConnectSession(profile: string, id: string) returns (ok: bool)
      requires Valid()
      modifies this`sessions, this`saved, this`starts
      ensures Valid() && OthersSame(profile, old(sessions), sessions) && RecordKept(profile)
      ensures profile in sessions <==> profile in old(sessions)
      ensures profile in sessions ==>
                var s, t := old(sessions)[profile], sessions[profile];
                && Reconnected(s, t, ok, Single(id), t.core.active)
                && Dialled(profile, id, catalog, s, t, old(starts), starts, ok)
      ensures profile !in sessions ==> !ok && starts == old(starts)
    {
      hide SessionsOk, StartsOk, StartOk, IsLogged;
      if !Ready(profile) {
        return false;
      }
      ok := CheckEnvelope(profile, id);
      var server := Lookup(id);
      if !ok || server.None? {
        return false;
      }
      ok := Dial(profile, server.value);
    }

    /** `connect_pool_session`: never under an envelope. */
    method ConnectPool(profile: string, members: seq<string>) returns (ok: bool)
      requires Valid()
      modifies this`sessions, this`saved
      ensures Valid() && OthersSame(profile, old(sessions), sessions) && RecordKept(profile)
      ensures profile in sessions <==> profile in old(sessions)
      ensures profile in sessions ==> Reconnected(old(sessions)[profile], sessions[profile], ok, Pool(members), None)
      ensures ok ==> profile in sessions && !old(sessions)[profile].Enveloped()
      ensures ok ==> forall i :: 0 <= i < |members| ==> Lookup(members[i]).Some?
      ensures profile in sessions && old(sessions)[profile].Enveloped() ==> !ok && sessions == old(sessions)
      ensures profile !in sessions ==> !ok
    {
      hide SessionsOk, StartsOk, StartOk, IsLogged;
      if !Ready(profile) || (profile in sessions && sessions[profile].Enveloped()) {
        return false;
      }
      if exists i :: 0 <= i < |members| && Lookup(members[i]).None? {
        return false;
      }
      ok := ReleaseRoutes(profile);
      if !ok || profile !in sessions {
        return false;
      }
      var s := sessions[profile];
      ok := *;
      BrokenIsLogged(starts, profile);
      Put(profile, if ok then s.(pending := true, selection := Some(Pool(members)), core := Core(Running, None))
                   else s.(pending := true, selection := None, core := BROKEN));
      if ok {
        SyncSession(profile);
      }
    }

    /** Installing an interface that is down. */
    method Install(profile: string) returns (ok: bool)
      requires Valid() && profile in sessions && sessions[profile].interface.Some? && !sessions[profile].IsUp()
      requires !Unresolved(profile)
      modifies this`sessions, this`saved
      ensures Valid() && OthersSame(profile, old(sessions), sessions) && RecordKept(profile)
      ensures profile in sessions
      ensures Started(old(sessions)[profile], sessions[profile], ok)
    {
      hide SessionsOk, StartsOk, StartOk, IsLogged, PlanOk;
      var permitted: bool := *;
      if !permitted || profile !in saved {
        return false;
      }
      var s := sessions[profile];
      saved := saved[profile := s.Enveloped()];
      var installed: bool, dirty: bool, helper: bool;
      installed, dirty, helper := *, *, *;
      var i := s.interface.value;
      Put(profile, s.(interface := Some(if installed then i.(up := true, helper := true)
                                        else i.(up := false, helper := helper,
                                                dirty := i.dirty || (i.Owned() && dirty)))));
      SyncSession(profile);
      ok := *;  // the save that follows
      ok := ok && installed;
    }

    /** `start_interface`. */
    method StartInterface(profile: string) returns (ok: bool)
      requires Valid()
      modifies this`sessions, this`saved
      ensures Valid() && OthersSame(profile, old(sessions), sessions) && RecordKept(profile)
      ensures profile in sessions <==> profile in old(sessions)
      ensures profile in sessions ==> Started(old(sessions)[profile], sessions[profile], ok)
      ensures ok && profile in sessions && old(sessions)[profile].Enveloped() ==>
                var s := old(sessions)[profile];
                s.holdsTraffic && !s.customRouting && ValidCandidates(s.interface.value.envelope.value, catalog)
    {
      if !Ready(profile) {
        return false;
      }
      if profile in sessions && sessions[profile].Enveloped() {
        var s := sessions[profile];
        if !s.holdsTraffic || s.customRouting || !ValidCandidates(s.interface.value.envelope.value, catalog) {
          return false;
        }
      }
      if profile in sessions && sessions[profile].IsUp() {
        ok := EnsureHelper(profile);
      } else if profile in sessions && sessions[profile].interface.Some? {
        ok := Install(profile);
      } else {
        ok := true;
      }
    }

    /** `delete_interface`. */
    method DeleteInterface(profile: string) returns (ok: bool)
      requires Valid()
      modifies this`sessions, this`saved
      ensures Valid() && OthersSame(profile, old(sessions), sessions) && RecordKept(profile)
      ensures profile in sessions <==> profile in old(sessions)
      ensures profile in sessions ==>
                var s, t := old(sessions)[profile], sessions[profile];
                && t == s.(interface := t.interface)
                && (ok ==> t.interface.None?)
                && (t.interface.Some? ==> MayStop(s.interface, t.interface))
                && (s.interface.Some? && t.interface.None? ==> !Unresolved(profile))
      ensures ok ==> !Unresolved(profile)
    {
      hide SessionsOk, StartsOk, StartOk, IsLogged, PlanOk;
      if Unresolved(profile) {
        return false;
      }
      if profile !in sessions || sessions[profile].interface.None? {
        return true;
      }
      if sessions[profile].Enveloped() {
        ok := StopOwned(profile);
        return;
      }
      ok := StopLegacy(profile);
      var forgotten: bool := *;  // the save without the record may fail
      ok := ok && forgotten;
      if ok {
        Put(profile, sessions[profile].(interface := None));
        saved := if profile in saved then saved[profile := false] else saved;
        ok := *;  // the binding of a cgroup is forgotten last
      }
    }

    /** `remove_session`. */
    method RemoveSession(profile: string) returns (ok: bool)
      requires Valid()
      modifies this`sessions, this`saved
      ensures Valid() && OthersSame(profile, old(sessions), sessions) && RecordKept(profile)
      ensures ok ==> profile !in sessions
      ensures profile in sessions ==> profile in old(sessions)
      ensures profile in sessions ==>
                var s, t := old(sessions)[profile], sessions[profile];
                t == s.(interface := t.interface) && MayStop(s.interface, t.interface)
      ensures ok && profile in old(sessions) ==> profile !in saved
      ensures !ok && profile !in sessions ==> saved - {profile} == old(saved) - {profile} && !Unresolved(profile)
    {
      if profile !in sessions {
        return true;
      }
      ok := StopInterface(profile);
      if ok {
        sessions := sessions - {profile};
        ok := *;  // a failed save keeps the record, but the session is gone
        saved := if ok then saved - {profile} else saved;
      }
    }

    /** `prepare_session`. */
    method PrepareSession(profile: string) returns (ok: bool)
      requires Valid()
      modifies this`sessions
      ensures Valid() && OthersSame(profile, old(sessions), sessions) && RecordKept(profile)
      ensures profile in old(sessions) ==> sessions == old(sessions) && (ok ==> !sessions[profile].Enveloped())
      ensures profile !in old(sessions) ==> sessions == if ok then old(sessions)[profile := NEW_SESSION]
          else old(sessions)
    {
      ok := *;  // the profile's name may be invalid
      if !Ready(profile) || (profile in sessions && sessions[profile].Enveloped()) {
        return false;
      }
      if ok && profile !in sessions {
        ghost var was := sessions;
        sessions := sessions[profile := NEW_SESSION];
        assert sessions - {profile} == was - {profile};
      }
    }

    /** `configure_hold_traffic` and `configure_core`: settings snapshotted at `up`. */
    method ConfigureSession(profile: string, holdsTraffic: bool, customRouting: bool)
      requires Valid()
      modifies this`sessions
      ensures Valid() && OthersSame(profile, old(sessions), sessions) && RecordKept(profile)
      ensures profile in sessions <==> profile in old(sessions)
      ensures profile in sessions ==>
                sessions[profile] == old(sessions)[profile].(holdsTraffic := holdsTraffic,
                    customRouting := customRouting)
    {
      if profile in sessions {
        Put(profile, sessions[profile].(holdsTraffic := holdsTraffic, customRouting := customRouting));
      }
    }

    /** `check_interface_admission`. */
    predicate Admitted(profile: string, enabled: bool, failover: bool)
      reads this`sessions, this`saved
    {
      && (enabled ==>
            && (forall p :: p in sessions ==> !sessions[p].Dirty())
            && (forall p :: p in saved ==> !Unresolved(p)))
      && (profile in sessions ==> !sessions[profile].Enveloped())
      && (enabled ==> forall q :: q in sessions && q != profile && sessions[q].interface.Some? ==>
                        !failover && !sessions[q].Enveloped())
      && (failover ==> profile in sessions && sessions[profile].interface.None?)
    }

    /** The planning half of `configure_interface_plan`; the network decides the rest. */
    method PlanFor(requested: Requested, addresses: seq<Ipv4>, envelope: Option<TunEnvelope>)
        returns (plan: Result<RoutePlan>)
      requires envelope.Some? ==> envelope.value.interface == requested && addresses == Addresses(envelope.value)
      ensures plan.Ok? ==> PlanOk(plan.value, envelope)
    {
      var list := ParsedList(requested.list);
      var gateway: Option<Ipv4>, connected: seq<Connected>, mark: nat;
      gateway, connected := *, *;
      mark :| 0 <= mark;
      if list.Err? {
        return Err;
      }
      var input := PlanInput(mark, mark, requested.routes, list.value, addresses, gateway, connected);
      if envelope.None? {
        return PlanRoutes(input);
      }
      plan := PlanFailoverRoutes(input);
      if plan.Ok? {
        FailoverPlanCovers(input);
        plan := Ok(plan.value.(rule := plan.value.rule.(priority := 10000 + mark % 20000)));
      }
    }

    /** A new interface for a session, down until it is started. */
    method Attach(profile: string, plan: RoutePlan, envelope: Option<TunEnvelope>)
      requires Valid() && profile in sessions && PlanOk(plan, envelope)
      requires forall q :: q in sessions && q != profile ==>
                 !sessions[q].Enveloped() && (envelope.Some? ==> sessions[q].interface.None?)
      modifies this`sessions
      ensures Valid() && OthersSame(profile, old(sessions), sessions)
      ensures sessions == old(sessions)[profile :=
                old(sessions)[profile].(interface := Some(Interface.Interface(plan, envelope, false, false, false)))]
    {
      var t := sessions[profile].(interface := Some(Interface.Interface(plan, envelope, false, false, false)));
      NewInterfaceIsOk(sessions, profile, t);
      ghost var was := sessions;
      sessions := sessions[profile := t];
      assert sessions - {profile} == was - {profile};
    }

    /** `configure_interface`: never over an envelope, never beside one. */
    method ConfigureInterface(profile: string, requested: Requested, resolved: seq<Ipv4>) returns (ok: bool)
      requires Valid()
      modifies this`sessions, this`saved
      ensures Valid() && OthersSame(profile, old(sessions), sessions) && RecordKept(profile)
      ensures profile in sessions <==> profile in old(sessions)
      ensures profile in sessions ==>
                var s, t := old(sessions)[profile], sessions[profile];
                && t == s.(interface := t.interface)
                && (s.Enveloped() ==> !ok && t == s)
                && (!ok ==> MayStop(s.interface, t.interface))
                && (ok && requested.enable ==> t.interface.Some? && !t.Enveloped() && !t.IsUp())
                && (ok && !requested.enable ==> t.interface.None?)
      ensures ok && requested.enable ==>
                forall q :: q in sessions ==> !sessions[q].Enveloped()
    {
      hide SessionsOk, StartsOk, StartOk, IsLogged, PlanOk;
      if !Admitted(profile, requested.enable, false) {
        return false;
      }
      ghost var was := sessions;
      var possible: bool := *;  // capability, device, address, mark, a list that parses
      if requested.enable && !possible {
        return false;
      }
      ok := true;
      if profile in sessions && sessions[profile].interface.Some? {
        ok := StopInterface(profile);
      }
      if !ok {
        return;
      }
      if !requested.enable {
        if profile in sessions {
          Put(profile, sessions[profile].(interface := None));
        }
        return;
      }
      var plan := PlanFor(requested, resolved, None);
      possible := *;  // the network and the helper's binary
      if plan.Err? || !possible || profile !in sessions {
        return false;
      }
      forall q | q in sessions && q != profile
        ensures !sessions[q].Enveloped()
      {
        AgreeElsewhere(profile, q, was, sessions);
      }
      Attach(profile, plan.value, None);
    }

    /** `configure_failover_interface`: only where no session has an interface. */
    method ConfigureFailover(profile: string, requested: Requested, servers: seq<Server>) returns (ok: bool)
      requires Valid()
      modifies this`sessions
      ensures Valid() && OthersSame(profile, old(sessions), sessions) && RecordKept(profile)
      ensures !ok ==> sessions == old(sessions)
      ensures ok ==>
                && profile in old(sessions) && profile in sessions
                && var s, t := old(sessions)[profile], sessions[profile];
                   && t == s.(interface := t.interface) && t.Enveloped() && !t.IsUp() && s.interface.None?
                   && s.holdsTraffic && !s.customRouting
                   && InterfaceOk(t.interface.value)
                   && CandidatesOf(servers, t.interface.value.envelope.value.candidates)
                   && ValidCandidates(t.interface.value.envelope.value, catalog)
      ensures ok ==> forall q :: q in sessions && q != profile ==> sessions[q].interface.None?
    {
      if !Admitted(profile, requested.enable, true) || sessions[profile].customRouting {
        return false;
      }
      var s := sessions[profile];
      var envelope := Envelope.New(servers, requested, if s.holdsTraffic then Hold else Release);
      if envelope.Err? || !ValidCandidates(envelope.value, catalog) {
        return false;
      }
      var addresses := CollectAddresses(envelope.value);
      var plan := PlanFor(requested, addresses, Some(envelope.value));
      var possible: bool := *;  // capability, exclusive device, identity, available tables
      if plan.Err? || !possible {
        return false;
      }
      Attach(profile, plan.value, Some(envelope.value));
      ok := true;
    }

    /** One session of `disconnect_if_active_within`. */
    method Bereave(profile: string, gone: string -> bool)
      requires Valid() && profile in sessions
      modifies this`sessions, this`saved
      ensures Valid() && OthersSame(profile, old(sessions), sessions) && RecordKept(profile)
      ensures profile in sessions && Bereaved(old(sessions)[profile], sessions[profile], gone)
    {
      var s := sessions[profile];
      if !Uses(s, gone) {
        return;
      }
      if s.Enveloped() {
        Put(profile, s.(core := BROKEN, pending := false, selection := None, holding := true));
        SyncSession(profile);
      } else {
        StopSession(profile);
      }
    }

    /** `disconnect_if_active_within`: under an envelope the hold outlives the server. */
    method DisconnectIfActive(gone: string -> bool)
      requires Valid()
      modifies this`sessions, this`saved
      ensures Valid() && sessions.Keys == old(sessions).Keys
      ensures forall p :: p in sessions ==> Bereaved(old(sessions)[p], sessions[p], gone)
      ensures forall p :: old(Unresolved(p)) ==> Unresolved(p)
    {
      hide SessionsOk, StartsOk, StartOk, IsLogged, Bereaved;
      var todo := sessions.Keys;
      while todo != {}
        invariant Valid() && sessions.Keys == old(sessions).Keys && todo <= sessions.Keys
        invariant forall p :: p in todo ==> sessions[p] == old(sessions)[p]
        invariant forall p :: p in sessions && p !in todo ==> Bereaved(old(sessions)[p], sessions[p], gone)
        invariant forall p :: old(Unresolved(p)) ==> Unresolved(p)
        decreases todo
      {
        var p :| p in todo;
        ghost var was, wasSaved := sessions, saved;
        Bereave(p, gone);
        todo := todo - {p};
        forall q | q != p
          ensures q in sessions <==> q in was
          ensures q in was ==> sessions[q] == was[q]
          ensures q in saved <==> q in wasSaved
          ensures q in wasSaved ==> saved[q] == wasSaved[q]
        {
          AgreeElsewhere(p, q, was, sessions);
          AgreeElsewhere(p, q, wasSaved, saved);
        }
      }
    }

    /** `disconnect_if_active_gone`: a refresh replaced the catalogue. */
    method ReplaceCatalog(servers: seq<Server>)
      requires Valid()
      modifies this`catalog, this`sessions, this`saved
      ensures Valid() && catalog == servers && sessions.Keys == old(sessions).Keys
      ensures forall p :: p in sessions ==> Bereaved(old(sessions)[p], sessions[p], GoneFrom(servers))
      ensures forall p :: old(Unresolved(p)) ==> Unresolved(p)
    {
      catalog := servers;
      DisconnectIfActive(GoneFrom(servers));
    }

    /** `remove_subscription` and `remove_server`: whoever uses what goes is told first. */
    method RemoveServers(gone: string -> bool, servers: seq<Server>)
      requires Valid()
      modifies this`catalog, this`sessions, this`saved
      ensures Valid() && catalog == servers && sessions.Keys == old(sessions).Keys
      ensures forall p :: p in sessions ==> Bereaved(old(sessions)[p], sessions[p], gone)
      ensures forall p :: old(Unresolved(p)) ==> Unresolved(p)
    {
      DisconnectIfActive(gone);
      catalog := servers;
    }
  }

  function GoneFrom(servers: seq<Server>): string -> bool {
    (id: string) => !exists i :: 0 <= i < |servers| && servers[i].id == id
  }

  // -------------------------------------------------------------------- runs

  /** Everything a client, a supervisor or a refresh may ask of the engine. */
  datatype Call =
    | CoreExit
    | ConfirmationFailure
    | Confirmation
    | Reconnect(id: string)
    | ReconnectPool(members: seq<string>)
    | StartInterface
    | StopInterface
    | DeleteInterface
    | StopSession
    | RemoveSession
    | PrepareSession
    | Configure(holdsTraffic: bool, customRouting: bool)
    | ConfigurePlain(requested: Requested, resolved: seq<Ipv4>)
    | ConfigureEnvelope(requested: Requested, servers: seq<Server>)

  datatype Event =
    | On(profile: string, call: Call)
    | Catalog(servers: seq<Server>)
    | Removal(gone: string -> bool, servers: seq<Server>)

  /** The calls that are neither a confirmation nor an explicit teardown or change. */
  predicate Unattended(c: Call) {
    c.CoreExit? || c.ConfirmationFailure? || c.Reconnect? || c.ReconnectPool? || c.StartInterface?
  }

  /** Events that must not end this profile's hold. */
  predicate MustKeep(e: Event, profile: string, enveloped: bool) {
    match e
    case On(p, call) => p != profile || Unattended(call)
    case Catalog(_) => enveloped
    case Removal(_, _) => enveloped
  }

  /** All that the engine has, with every start of a single-server core so far. */
  datatype State = State(catalog: seq<Server>, sessions: Sessions, saved: map<string, bool>, starts: seq<Start>)

  ghost predicate StateOk(s: State) { SessionsOk(s.sessions) && StartsOk(s.starts, s.sessions) }

  predicate IsUnresolved(s: State, profile: string) {
    profile in s.saved && s.saved[profile] && (profile in s.sessions ==> s.sessions[profile].interface.None?)
  }

  /** A call on one profile leaves the catalogue and all others alone, and the record of
      a failed recovery in place. */
  predicate Frame(profile: string, s: State, t: State) {
    && t.catalog == s.catalog && OthersSame(profile, s.sessions, t.sessions)
    && s.saved - {profile} == t.saved - {profile}
    && (IsUnresolved(s, profile) ==> IsUnresolved(t, profile))
  }

  /** What a call does to the session it is for. */
  predicate Changed(call: Call, ok: bool, a: Session, b: Session) {
    match call
    case CoreExit => Exited(a, b, ok)
    case ConfirmationFailure => Unconfirmed(a, b, ok)
    case Confirmation => b == a.(pending := false, holding := false)
    case Reconnect(id) => Reconnected(a, b, ok, Single(id), b.core.active)
    case ReconnectPool(members) => Reconnected(a, b, ok, Pool(members), None) && (a.Enveloped() ==> !ok && b == a)
    case StartInterface => Started(a, b, ok)
    case StopInterface => b == a.(interface := b.interface) && StoppedInterface(a.interface, b.interface, ok)
    case DeleteInterface =>
      && b == a.(interface := b.interface) && (ok ==> b.interface.None?)
      && (b.interface.Some? ==> MayStop(a.interface, b.interface))
    case StopSession => Stopped(a, b)
    case RemoveSession => !ok && b == a.(interface := b.interface) && MayStop(a.interface, b.interface)
    case PrepareSession => b == a && (ok ==> !a.Enveloped())
    case Configure(holds, routing) => b == a.(holdsTraffic := holds, customRouting := routing)
    case ConfigurePlain(requested, _) =>
      && b == a.(interface := b.interface) && (a.Enveloped() ==> !ok && b == a)
      && (!ok ==> MayStop(a.interface, b.interface))
      && (ok ==> if requested.enable then b.interface.Some? && !b.Enveloped() && !b.IsUp() else b.interface.None?)
    case ConfigureEnvelope(_, _) =>
      && b == a.(interface := b.interface) && (!ok ==> b == a)
      && (ok ==> a.interface.None? && b.Enveloped() && !b.IsUp() && a.holdsTraffic && !a.customRouting)
  }

  /** What a call does to the whole state. */
  ghost predicate Served(profile: string, call: Call, ok: bool, s: State, t: State) {
    && Frame(profile, s, t)
    && (profile in s.sessions && profile in t.sessions ==>
          Changed(call, ok, s.sessions[profile], t.sessions[profile]))
    && (profile in t.sessions && profile !in s.sessions ==>
          call.PrepareSession? && t.sessions[profile] == NEW_SESSION)
    && (profile in s.sessions && profile !in t.sessions ==> call.RemoveSession?)
    && (match call
        case Reconnect(id) =>
          if profile in s.sessions && profile in t.sessions then
            Dialled(profile, id, s.catalog, s.sessions[profile], t.sessions[profile], s.starts, t.starts, ok)
          else !ok && t.starts == s.starts
        case _ => t.starts == s.starts)
    && (call.ConfigurePlain? && ok && call.requested.enable ==>
          forall q :: q in t.sessions ==> !t.sessions[q].Enveloped())
    && (call.ConfigureEnvelope? && ok ==>
          && profile in s.sessions && profile in t.sessions && t.sessions[profile].interface.Some?
          && InterfaceOk(t.sessions[profile].interface.value)
          && forall q :: q in t.sessions && q != profile ==> t.sessions[q].interface.None?)
  }

  /** What a change of the catalogue does. */
  predicate Lost(servers: seq<Server>, gone: string -> bool, s: State, t: State) {
    && t.catalog == servers && t.starts == s.starts && t.sessions.Keys == s.sessions.Keys
    && (forall p :: p in s.sessions ==> Bereaved(s.sessions[p], t.sessions[p], gone))
    && (forall p :: p in s.saved && IsUnresolved(s, p) ==> IsUnresolved(t, p))
  }

  ghost predicate Did(e: Event, ok: bool, s: State, t: State) {
    match e
    case On(profile, call) => Served(profile, call, ok, s, t)
    case Catalog(servers) => Lost(servers, GoneFrom(servers), s, t)
    case Removal(gone, servers) => Lost(servers, gone, s, t)
  }

  /** Any sequence of events, each with any outcome its faults allow. */
  ghost predicate IsRun(states: seq<State>, events: seq<Event>, oks: seq<bool>) {
    && |states| == |events| + 1 && |oks| == |events|
    && forall i :: 0 <= i < |events| ==> Did(events[i], oks[i], states[i], states[i + 1])
  }

  /** A reconnect, exit, failed confirmation or start keeps a hold, whatever its outcome. */
  lemma UnattendedKeepsHold(call: Call, ok: bool, a: Session, b: Session)
    requires Changed(call, ok, a, b) && Unattended(call) && Held(a)
    ensures HoldKept(a, b)
  {
  }

  lemma StepKeepsHold(e: Event, ok: bool, s: State, t: State, profile: string)
    requires Did(e, ok, s, t) && profile in s.sessions && Held(s.sessions[profile])
    requires MustKeep(e, profile, s.sessions[profile].Enveloped())
    ensures profile in t.sessions && HoldKept(s.sessions[profile], t.sessions[profile])
  {
    if e.On? {
      hide Changed, Dialled, StartOk;
      if e.profile == profile {
        UnattendedKeepsHold(e.call, ok, s.sessions[profile], t.sessions[profile]);
      } else {
        AgreeElsewhere(e.profile, profile, s.sessions, t.sessions);
      }
    }
  }

  /** A hold in force survives any run of core exits, failed confirmations, server and
      pool reconnects and interface starts of its profile, succeeding or failing, with
      anything at all asked of the other profiles in between, and, under an envelope,
      any change of the catalogue: the interface stays up, its plan unchanged. */
  lemma {:induction false} RunUnderHold(states: seq<State>, events: seq<Event>, oks: seq<bool>, profile: string, n: nat)
    requires IsRun(states, events, oks) && n <= |events|
    requires profile in states[0].sessions && Held(states[0].sessions[profile])
    requires forall i :: 0 <= i < n ==> MustKeep(events[i], profile, states[0].sessions[profile].Enveloped())
    ensures profile in states[n].sessions && HoldKept(states[0].sessions[profile], states[n].sessions[profile])
    decreases n
  {
    if n > 0 {
      hide Did, MustKeep;
      RunUnderHold(states, events, oks, profile, n - 1);
      StepKeepsHold(events[n - 1], oks[n - 1], states[n - 1], states[n], profile);
    }
  }

  /** A call that configures nothing leaves at most the interface there was, and a core
      that is the old one, none, a pool, or the one just started. */
  lemma ChangedIsPlain(call: Call, ok: bool, a: Session, b: Session)
    requires Changed(call, ok, a, b)
    ensures !(ok && (call.ConfigurePlain? || call.ConfigureEnvelope?)) ==> NoNewInterface(a, b)
    ensures b.core == a.core || b.core == BROKEN || b.core == STOPPED || b.core == Core(Running, None)
         || (ok && call.Reconnect? && b.core.status.Running?)
  {
  }

  lemma ServedKeepsStarts(profile: string, call: Call, ok: bool, s: State, t: State)
    requires StateOk(s) && Served(profile, call, ok, s, t)
    ensures StartsOk(t.starts, t.sessions) && s.starts <= t.starts
  {
    hide Changed, SessionsOk, StartOk, IsLogged, Frame;
    if t.starts != s.starts {
      assert t.starts == s.starts + [t.starts[|s.starts|]];
      LastIsLogged(s.starts, t.starts[|s.starts|]);
    }
    forall p | p in t.sessions
      ensures IsLogged(t.starts, p, t.sessions[p].core)
    {
      BrokenIsLogged(t.starts, p);
      if p != profile {
        FrameAgrees(profile, p, s, t);
      } else if p in s.sessions {
        ChangedIsPlain(call, ok, s.sessions[p], t.sessions[p]);
      }
      if p in s.sessions {
        LoggedLater(s.starts, t.starts, p, s.sessions[p].core);
      }
    }
  }

  lemma FrameAgrees(profile: string, p: string, s: State, t: State)
    requires Frame(profile, s, t) && p != profile
    ensures p in s.sessions <==> p in t.sessions
    ensures p in s.sessions ==> t.sessions[p] == s.sessions[p]
    ensures IsUnresolved(s, p) ==> IsUnresolved(t, p)
  {
    AgreeElsewhere(profile, p, s.sessions, t.sessions);
    AgreeElsewhere(profile, p, s.saved, t.saved);
  }

  lemma ServedKeepsSessions(profile: string, call: Call, ok: bool, s: State, t: State)
    requires SessionsOk(s.sessions) && Served(profile, call, ok, s, t)
    ensures SessionsOk(t.sessions)
  {
    hide Changed, Dialled, StartOk, Frame, InterfaceOk;
    forall p | p in t.sessions && p != profile
      ensures p in s.sessions && t.sessions[p] == s.sessions[p]
    {
      FrameAgrees(profile, p, s, t);
    }
    if profile in s.sessions && profile in t.sessions {
      ChangedIsPlain(call, ok, s.sessions[profile], t.sessions[profile]);
      PlainIsOk(call, ok, s.sessions[profile], t.sessions[profile]);
    }
    forall p, q | p in t.sessions && q in t.sessions && p != q && t.sessions[p].Enveloped()
      ensures t.sessions[q].interface.None?
    {
      if !(call.ConfigureEnvelope? && ok && p == profile) {
        assert p in s.sessions && s.sessions[p].Enveloped();
        assert q in s.sessions ==> s.sessions[q].interface.None?;
      }
    }
  }

  /** Whatever interface a call leaves, its plan is in order if it has an envelope. */
  lemma PlainIsOk(call: Call, ok: bool, a: Session, b: Session)
    requires Changed(call, ok, a, b)
    ensures NoNewInterface(a, b) && a.interface.Some? && b.interface.Some? && InterfaceOk(a.interface.value) ==>
              InterfaceOk(b.interface.value)
    ensures b.interface.Some? && !b.Enveloped() ==> InterfaceOk(b.interface.value)
    ensures NoNewInterface(a, b) && b.Enveloped() ==> a.Enveloped()
    ensures ok && call.ConfigurePlain? && !call.requested.enable ==> b.interface.None?
  {
  }

  lemma LostKeepsOk(servers: seq<Server>, gone: string -> bool, s: State, t: State)
    requires StateOk(s) && Lost(servers, gone, s, t)
    ensures StateOk(t)
  {
    hide InterfaceOk, StartOk, IsLogged;
    forall p | p in t.sessions
      ensures NoNewInterface(s.sessions[p], t.sessions[p])
      ensures IsLogged(t.starts, p, t.sessions[p].core)
      ensures t.sessions[p].interface.Some? ==> InterfaceOk(t.sessions[p].interface.value)
    {
      BrokenIsLogged(t.starts, p);
      if t.sessions[p].interface.Some? {
        SamePlanIsOk(s.sessions[p].interface.value, t.sessions[p].interface.value);
      }
    }
  }

  lemma SamePlanIsOk(i: Interface, j: Interface)
    requires InterfaceOk(i) && j.plan == i.plan && j.envelope == i.envelope
    ensures InterfaceOk(j)
  {
  }

  lemma StepKeepsOk(e: Event, ok: bool, s: State, t: State)
    requires StateOk(s) && Did(e, ok, s, t)
    ensures StateOk(t) && s.starts <= t.starts
    ensures forall p :: IsUnresolved(s, p) ==> IsUnresolved(t, p)
  {
    hide SessionsOk, StartsOk, Changed, Dialled, StartOk;
    match e {
      case Catalog(servers) => LostKeepsOk(servers, GoneFrom(servers), s, t);
      case Removal(gone, servers) => LostKeepsOk(servers, gone, s, t);
      case On(profile, call) =>
        ServedKeepsStarts(profile, call, ok, s, t);
        ServedKeepsSessions(profile, call, ok, s, t);
        forall p | p != profile
          ensures IsUnresolved(s, p) ==> IsUnresolved(t, p)
        {
          FrameAgrees(profile, p, s, t);
        }
    }
  }

  /** In every state of every run an enveloped interface is the only interface there is,
      every core ever started under an envelope was started for a valid candidate and
      dials an address its bypasses were planned for, no start is forgotten, every running
      single-server core has one, and unresolved records are still recorded. */
  lemma {:induction false} RunIsSafe(states: seq<State>, events: seq<Event>, oks: seq<bool>, n: nat)
    requires IsRun(states, events, oks) && n <= |events| && StateOk(states[0])
    ensures StateOk(states[n]) && Exclusive(states[n].sessions)
    ensures forall i :: 0 <= i < |states[n].starts| ==> StartOk(states[n].starts[i])
    ensures forall p :: p in states[n].sessions ==> IsLogged(states[n].starts, p, states[n].sessions[p].core)
    ensures states[0].starts <= states[n].starts
    ensures forall p :: IsUnresolved(states[0], p) ==> IsUnresolved(states[n], p)
    decreases n
  {
    hide Did, StartOk, IsLogged, IsUnresolved;
    if n > 0 {
      RunIsSafe(states, events, oks, n - 1);
      StepKeepsOk(events[n - 1], oks[n - 1], states[n - 1], states[n]);
    }
  }

  method AskUnattended(engine: Engine, profile: string, call: Call) returns (ok: bool)
    requires engine.Valid() && Unattended(call)
    modifies engine
    ensures engine.Valid() && Served(profile, call, ok, old(engine.Now()), engine.Now())
  {
    hide SessionsOk, StartsOk, StartOk, Dialled, Exited, Unconfirmed, Reconnected, Started;
    match call {
      case CoreExit => ok := engine.NoteCoreExit(profile);
      case ConfirmationFailure => ok := engine.ConfirmationFailed(profile);
      case Reconnect(id) => ok := engine.ConnectSession(profile, id);
      case ReconnectPool(members) => ok := engine.ConnectPool(profile, members);
      case StartInterface => ok := engine.StartInterface(profile);
    }
  }

  method AskTeardown(engine: Engine, profile: string, call: Call) returns (ok: bool)
    requires engine.Valid()
    requires call.StopInterface? || call.DeleteInterface? || call.StopSession? || call.RemoveSession?
    modifies engine
    ensures engine.Valid() && Served(profile, call, ok, old(engine.Now()), engine.Now())
  {
    hide SessionsOk, StartsOk, StartOk, Dialled, StoppedInterface, MayStop, Stopped;
    match call {
      case StopInterface => ok := engine.StopInterface(profile);
      case DeleteInterface => ok := engine.DeleteInterface(profile);
      case StopSession =>
        engine.StopSession(profile);
        ok := true;
      case RemoveSession => ok := engine.RemoveSession(profile);
    }
  }

  method AskChange(engine: Engine, profile: string, call: Call) returns (ok: bool)
    requires engine.Valid()
    requires call.Confirmation? || call.PrepareSession? || call.Configure?
          || call.ConfigurePlain? || call.ConfigureEnvelope?
    modifies engine
    ensures engine.Valid() && Served(profile, call, ok, old(engine.Now()), engine.Now())
  {
    hide SessionsOk, StartsOk, StartOk, Dialled, MayStop, PlanOk;
    ok := true;
    match call {
      case Confirmation => engine.ConfirmTraffic(profile);
      case PrepareSession => ok := engine.PrepareSession(profile);
      case Configure(holds, routing) => engine.ConfigureSession(profile, holds, routing);
      case ConfigurePlain(requested, resolved) => ok := engine.ConfigureInterface(profile, requested, resolved);
      case ConfigureEnvelope(requested, servers) => ok := engine.ConfigureFailover(profile, requested, servers);
    }
  }

  /** One event, carried out. */
  method Handle(engine: Engine, event: Event) returns (ok: bool)
    requires engine.Valid()
    modifies engine
    ensures engine.Valid() && Did(event, ok, old(engine.Now()), engine.Now())
  {
    hide SessionsOk, StartsOk, Served, Bereaved;
    match event {
      case Catalog(servers) =>
        engine.ReplaceCatalog(servers);
        assert forall p :: IsUnresolved(old(engine.Now()), p) ==> old(engine.Unresolved(p)) && engine.Unresolved(p);
        ok := true;
      case Removal(gone, servers) =>
        engine.RemoveServers(gone, servers);
        assert forall p :: IsUnresolved(old(engine.Now()), p) ==> old(engine.Unresolved(p)) && engine.Unresolved(p);
        ok := true;
      case On(profile, call) =>
        if Unattended(call) {
          ok := AskUnattended(engine, profile, call);
        } else if call.StopInterface? || call.DeleteInterface? || call.StopSession? || call.RemoveSession? {
          ok := AskTeardown(engine, profile, call);
        } else {
          ok := AskChange(engine, profile, call);
        }
    }
  }

  /** The engine serving any events at all is such a run. */
  method Serve(engine: Engine, events: seq<Event>) returns (ghost states: seq<State>, ghost oks: seq<bool>)
    requires engine.Valid()
    modifies engine
    ensures engine.Valid() && IsRun(states, events, oks)
    ensures states[0] == old(engine.Now()) && states[|events|] == engine.Now()
  {
    hide Did, SessionsOk, StartsOk;
    states, oks := [engine.Now()], [];
    for i := 0 to |events|
      invariant engine.Valid() && |states| == i + 1 && |oks| == i
      invariant forall j :: 0 <= j < i ==> Did(events[j], oks[j], states[j], states[j + 1])
      invariant states[0] == old(engine.Now()) && states[i] == engine.Now()
    {
      var ok := Handle(engine, events[i]);
      states, oks := states + [engine.Now()], oks + [ok];
    }
  }
}
