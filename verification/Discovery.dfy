/** Which daemon a client may talk to: `find_existing` in `client.rs`. */
module Discovery {
  import opened Wrappers

  /** Milliseconds of the monotonic clock. */
  type Instant = nat

  const DISCOVERY_TIMEOUT: nat := 2_000
  const SYSTEM_DAEMON_GRACE: nat := 10_000
  const SYSTEM_DAEMON_RETRY: nat := 250
  const SESSION_STARTUP: nat := 6_000
  const SESSION_RETRY: nat := 150
  const SESSION_EXIT_GRACE: nat := 2_000
  const MAX_PATIENT_ATTEMPTS: nat := SYSTEM_DAEMON_GRACE / SYSTEM_DAEMON_RETRY

  datatype IoKind = NotFound | ConnectionRefused | PermissionDenied | OtherIo

  datatype FdoError = ServiceUnknown | NameHasNoOwner | SpawnChildSignaled | SpawnChildExited
                    | AccessDenied | TimedOut | OtherFdo

  datatype BusError = MethodError(name: string) | Fdo(fdo: FdoError) | InputOutput(kind: IoKind) | OtherError

  const PREFIX := "org.freedesktop.DBus.Error."

  /** Nobody is on that name (yet). */
  predicate NameUnowned(e: BusError) {
    match e
    case MethodError(name) =>
      name in {PREFIX + "ServiceUnknown", PREFIX + "NameHasNoOwner",
               PREFIX + "Spawn.ChildSignaled", PREFIX + "Spawn.ChildExited"}
    case Fdo(fdo) => fdo in {ServiceUnknown, NameHasNoOwner, SpawnChildSignaled, SpawnChildExited}
    case _ => false
  }

  /** The bus itself is absent, or refuses this user. */
  predicate BusUnavailable(e: BusError) {
    match e
    case MethodError(name) => name == PREFIX + "AccessDenied"
    case Fdo(fdo) => fdo == AccessDenied
    case InputOutput(kind) => kind in {NotFound, ConnectionRefused, PermissionDenied}
    case OtherError => false
  }

  datatype Source = System | Session | Spawned

  /** What an attempt says about its bus. */
  datatype Reply = Client | Absent | Unavailable | Indeterminate

  function Judge(e: BusError): Reply {
    if NameUnowned(e) then Absent else if BusUnavailable(e) then Unavailable else Indeterminate
  }

  /** Absence and unavailability are told apart whatever the order of the two
      checks, and the deadline's own error is neither. */
  lemma ClassifiersAreDisjoint(e: BusError)
    ensures Judge(e) == Unavailable <==> BusUnavailable(e)
    ensures Judge(Fdo(TimedOut)) == Indeterminate
  {
  }

  /** One attempt, when it began and how it ended. */
  datatype Probe = Probe(source: Source, began: Instant, reply: Reply)

  datatype Outcome = Found(source: Source) | Nobody | Refused

  /** The clock and the two buses. Time passes inside attempts and sleeps; anything
      beyond what was asked for is lateness of the machine. */
  class World {
    var now: Instant
    ghost var lateness: nat
    ghost var probes: seq<Probe>

    /** `sleep_until`: never wakes early. */
    method SleepUntil(wake: Instant)
      modifies this`now, this`lateness
      ensures now >= old(now) && now >= wake
      ensures now + old(lateness) == (if old(now) < wake then wake else old(now)) + lateness
    {
      var late: nat :| 0 <= late;
      now := (if now < wake then wake else now) + late;
      lateness := lateness + late;
    }

    /** `before_deadline`: the deadline wins ties, so an answer counts only strictly before it. */
    method BeforeDeadline(deadline: Instant, source: Source) returns (reply: Reply)
      modifies this
      ensures probes == old(probes) + [Probe(source, old(now), reply)]
      ensures now >= old(now) && lateness >= old(lateness)
      ensures now + old(lateness) <= (if old(now) < deadline then deadline else old(now)) + lateness
      ensures now >= deadline ==> reply == Indeterminate
    {
      ghost var began := now;
      var inTime: bool := *;
      if inTime && now < deadline {
        var answered: Instant :| now <= answered < deadline;
        reply := *;
        now := answered;
      } else {
        SleepUntil(deadline);
        reply := Judge(Fdo(TimedOut));
      }
      probes := probes + [Probe(source, began, reply)];
    }

    /** The loop over the system bus. `Absent` and `Unavailable` allow falling back. */
    method TrySystem(patient: bool, installed: bool, deadline: Instant) returns (answer: Reply)
      requires deadline == now + Grace(patient)
      modifies this
      ensures old(probes) <= probes && now >= old(now)
      ensures var systems := probes[|old(probes)|..];
              && |systems| <= (if patient then MAX_PATIENT_ATTEMPTS else 1)
              && (forall i :: 0 <= i < |systems| ==> systems[i].source == System)
              && (if answer.Absent? || answer.Unavailable? then MayFallBack(systems, patient, installed, old(now), now)
                  else systems != [] ==>
                    AllAbsent(systems[..|systems| - 1]) && systems[|systems| - 1].reply == answer)
              && (systems == [] ==> answer == Indeterminate)
      ensures now + old(lateness) <= old(now) + Grace(patient) + lateness
    {
      ghost var start, late := now, lateness;
      ghost var systems: seq<Probe> := [];
      var waiting := false;
      while true
        invariant probes == old(probes) + systems && now >= start && lateness >= late
        invariant waiting <==> systems != []
        invariant waiting ==> patient && installed
        invariant AllAbsent(systems)
        invariant now >= deadline || now - start >= |systems| * SYSTEM_DAEMON_RETRY
        invariant |systems| <= (if patient then MAX_PATIENT_ATTEMPTS else 1)
        invariant now + late <= deadline + lateness
        decreases deadline - now, now < deadline
      {
        if now >= deadline {
          return if waiting then Absent else Indeterminate;
        }
        ghost var began := now;
        answer := BeforeDeadline(deadline, System);
        ghost var before := systems;
        systems := systems + [Probe(System, began, answer)];
        assert probes[|old(probes)|..] == systems && systems[..|before|] == before;
        if !answer.Absent? || !patient || !installed {
          return;
        }
        waiting := true;
        SleepUntil(if now + SYSTEM_DAEMON_RETRY < deadline then now + SYSTEM_DAEMON_RETRY else deadline);
      }
    }

    /** `find_existing`. */
    method FindExisting(patient: bool, installed: bool) returns (outcome: Outcome)
      modifies this
      ensures old(probes) <= probes
      ensures Justified(probes[|old(probes)|..], patient, installed, old(now), outcome)
      ensures now + old(lateness) <= old(now) + Grace(patient) + DISCOVERY_TIMEOUT + lateness
    {
      ghost var first := |probes|;
      var answer := TrySystem(patient, installed, now + Grace(patient));
      if answer.Client? {
        return Found(System);
      }
      if answer.Indeterminate? {
        return Refused;
      }
      ghost var systems := probes[first..];
      answer := BeforeDeadline(now + DISCOVERY_TIMEOUT, Session);
      assert probes[first..][..|probes| - first - 1] == systems;
      outcome := if answer.Client? then Found(Session) else if answer.Indeterminate? then Refused else Nobody;
    }

    /** `wait_spawned`. `exited` is when the child is first seen to be gone, if it ever
        is: from then on only a short grace is left, on the same bus and without
        spawning again, for another client's daemon may have won. */
    method WaitSpawned(deadline: Instant, exited: Option<Instant>) returns (connected: bool)
      requires exited.Some? ==> now <= exited.value
      modifies this
      ensures old(probes) <= probes && now >= old(now)
      ensures var spawned, limit := probes[|old(probes)|..], Limit(deadline, exited);
              && (spawned != [] ==> (|spawned| - 1) * SESSION_RETRY < limit - old(now))
              && (forall i :: 0 <= i < |spawned| ==> spawned[i].source == Spawned && spawned[i].began < limit)
              && (forall i :: 0 <= i < |spawned| - 1 ==> spawned[i].reply.Absent?)
              && (connected <==> spawned != [] && spawned[|spawned| - 1].reply.Client?)
              && (spawned == [] ==> old(now) >= limit)
              && now + old(lateness) <= Max(limit, old(now)) + lateness
    {
      ghost var first, start, late := |probes|, now, lateness;
      var limit := Limit(deadline, exited);
      while now < limit
        invariant old(probes) <= probes && now >= start && lateness >= late
        invariant forall i :: first <= i < |probes| ==>
                    probes[i].source == Spawned && probes[i].began < limit && probes[i].reply.Absent?
        invariant |probes| > first ==> (|probes| - first - 1) * SESSION_RETRY < limit - start
        invariant now >= limit || now - start >= (|probes| - first) * SESSION_RETRY
        invariant |probes| == first ==> now == start
        invariant now + late <= Max(limit, start) + lateness
        decreases limit - now
      {
        var reply := BeforeDeadline(limit, Spawned);
        if !reply.Absent? {
          return reply.Client?;
        }
        SleepUntil(if now + SESSION_RETRY < limit then now + SESSION_RETRY else limit);
      }
      connected := false;
    }
  }

  function Max(a: nat, b: nat): nat { if a < b then b else a }

  /** When waiting for a spawned daemon ends. */
  function Limit(deadline: Instant, exited: Option<Instant>): Instant {
    if exited.Some? && exited.value + SESSION_EXIT_GRACE < deadline then exited.value + SESSION_EXIT_GRACE else deadline
  }

  function Grace(patient: bool): nat {
    if patient then SYSTEM_DAEMON_GRACE else DISCOVERY_TIMEOUT
  }

  ghost predicate AllAbsent(probes: seq<Probe>) {
    forall i :: 0 <= i < |probes| ==> probes[i].source == System && probes[i].reply.Absent?
  }

  /** Positive evidence that no system daemon will answer this user: the bus is
      unavailable, or the name is unowned: at once for a client that does not wait
      or where no daemon is installed, else at every attempt through the full grace. */
  ghost predicate MayFallBack(probes: seq<Probe>, patient: bool, installed: bool, start: Instant, now: Instant) {
    && probes != []
    && AllAbsent(probes[..|probes| - 1])
    && var last := probes[|probes| - 1];
       && last.source == System
       && (last.reply.Unavailable?
           || (last.reply.Absent? && (patient && installed ==> now >= start + SYSTEM_DAEMON_GRACE)))
  }

  /** What the attempts of one discovery, and its answer, look like. */
  ghost predicate Justified(probes: seq<Probe>, patient: bool, installed: bool, start: Instant, outcome: Outcome) {
    var systems := if probes != [] && probes[|probes| - 1].source == Session then probes[..|probes| - 1] else probes;
    && |systems| <= (if patient then MAX_PATIENT_ATTEMPTS else 1)
    && (forall i :: 0 <= i < |systems| ==> systems[i].source == System)
    && if |systems| < |probes| then
         var session := probes[|probes| - 1];
         && MayFallBack(systems, patient, installed, start, session.began)
         && outcome == (if session.reply.Client? then Found(Session)
                        else if session.reply.Indeterminate? then Refused else Nobody)
       else if systems == [] then outcome == Refused
       else
         && AllAbsent(systems[..|systems| - 1])
         && (outcome == Found(System) <==> systems[|systems| - 1].reply.Client?)
         && (outcome == Refused <==> systems[|systems| - 1].reply.Indeterminate?)
         && outcome in {Found(System), Refused}
  }

  /** The session bus is tried only when every answer of the system bus was absence
      or unavailability: never after an indeterminate one. */
  lemma NoSwitchWithoutEvidence(probes: seq<Probe>, patient: bool, installed: bool, start: Instant, outcome: Outcome)
    requires Justified(probes, patient, installed, start, outcome)
    requires outcome == Nobody || outcome == Found(Session)
          || exists j :: 0 <= j < |probes| && probes[j].source == Session
    ensures 2 <= |probes| && probes[|probes| - 1].source == Session
    ensures forall i :: 0 <= i < |probes| - 1 ==>
              probes[i].source == System && (probes[i].reply.Absent? || probes[i].reply.Unavailable?)
  {
  }

  /** A client that waits for an installed daemon leaves it only once the bus is
      unavailable, or it stayed absent at every attempt through the full grace. */
  lemma PatienceIsKept(probes: seq<Probe>, start: Instant, outcome: Outcome)
    requires Justified(probes, true, true, start, outcome)
    requires outcome == Nobody || outcome == Found(Session)
    ensures var last := |probes| - 1;
            && 1 <= last <= MAX_PATIENT_ATTEMPTS
            && (probes[last - 1].reply.Unavailable?
                || (probes[last].began >= start + SYSTEM_DAEMON_GRACE
                    && forall i :: 0 <= i < last ==> probes[i].reply.Absent?))
  {
  }
}
