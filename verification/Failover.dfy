/** The sequential recovery of one activation: `failover.rs`. */
module Failover {
  import opened Arithmetic
  import opened Wrappers

  /** Monotonic instants, counted in nanoseconds. */
  type Instant = nat
  const NANOS_PER_SECOND := 1_000_000_000

  datatype Policy = Policy(enabled: bool, members: seq<string>, maxAttempts: nat, cooldownSecs: nat) {
    function Size(): nat { |members| }

    function Cooldown(): nat { cooldownSecs * NANOS_PER_SECOND }
  }

  const DEFAULT_POLICY := Policy(false, [], 3, 30)

  /** The characters `str::trim` removes (Unicode White_Space). */
  predicate IsSpace(c: char) {
    var code := c as int;
    0x09 <= code <= 0x0D || code in {0x20, 0x85, 0xA0, 0x1680, 0x2028, 0x2029, 0x202F, 0x205F, 0x3000}
    || 0x2000 <= code <= 0x200A
  }

  predicate IsBlank(id: string) {
    forall i :: 0 <= i < |id| ==> IsSpace(id[i])
  }

  ghost predicate Distinct(ids: seq<string>) {
    forall i, j :: 0 <= i < j < |ids| ==> ids[i] != ids[j]
  }

  /** What a persisted policy has to satisfy, independently of any catalogue. */
  ghost predicate IsValid(p: Policy) {
    && 1 <= p.maxAttempts <= 64
    && 1 <= p.cooldownSecs <= 3600
    && (p.enabled ==>
          && 2 <= p.Size() <= 64
          && (forall i :: 0 <= i < p.Size() ==> !IsBlank(p.members[i]))
          && Distinct(p.members))
  }

  /** `FailoverPolicy::validate`, with its running set of seen ids. */
  method Validate(p: Policy) returns (ok: bool)
    ensures ok <==> IsValid(p)
  {
    if !(1 <= p.maxAttempts <= 64) || !(1 <= p.cooldownSecs <= 3600) {
      return false;
    }
    if p.enabled {
      if !(2 <= |p.members| <= 64) {
        return false;
      }
      var seen := {};
      for k := 0 to |p.members|
        invariant forall id :: id in seen <==> exists i :: 0 <= i < k && p.members[i] == id
        invariant forall i :: 0 <= i < k ==> !IsBlank(p.members[i])
        invariant forall i, j :: 0 <= i < j < k ==> p.members[i] != p.members[j]
      {
        if IsBlank(p.members[k]) || p.members[k] in seen {
          return false;
        }
        seen := seen + {p.members[k]};
      }
    }
    ok := true;
  }

  /** A request that names only the fields it changes. */
  datatype Patch = Patch(enabled: Option<bool>, members: Option<seq<string>>,
                         maxAttempts: Option<nat>, cooldownSecs: Option<nat>) {
    predicate IsEmpty() { enabled.None? && members.None? && maxAttempts.None? && cooldownSecs.None? }
  }

  /** The daemon's saved policy, which `FailoverPatch::apply` updates in place. */
  class SavedPolicy {
    var current: Option<Policy>

    constructor (policy: Option<Policy>)
      ensures current == policy
    {
      current := policy;
    }

    method Apply(patch: Patch) returns (ok: bool)
      modifies this
      ensures patch.IsEmpty() ==> ok && current == old(current)
      ensures !ok ==> current == old(current)
      ensures ok && !patch.IsEmpty() ==> current.Some? && IsValid(current.value)
      ensures ok && !patch.IsEmpty() ==>
                var was, now := (if old(current).Some? then old(current).value else DEFAULT_POLICY), current.value;
                && now.enabled == (if patch.enabled.Some? then patch.enabled.value else was.enabled)
                && now.members == (if patch.members.Some? then patch.members.value else was.members)
                && now.maxAttempts == (if patch.maxAttempts.Some? then patch.maxAttempts.value else was.maxAttempts)
                && now.cooldownSecs == (if patch.cooldownSecs.Some? then patch.cooldownSecs.value else was.cooldownSecs)
    {
      if patch.IsEmpty() {
        return true;
      }
      var policy := if current.Some? then current.value else DEFAULT_POLICY;
      if patch.enabled.Some? {
        policy := policy.(enabled := patch.enabled.value);
      }
      if patch.members.Some? {
        policy := policy.(members := patch.members.value);
      }
      if patch.maxAttempts.Some? {
        policy := policy.(maxAttempts := patch.maxAttempts.value);
      }
      if patch.cooldownSecs.Some? {
        policy := policy.(cooldownSecs := patch.cooldownSecs.value);
      }
      ok := Validate(policy);
      if ok {
        current := Some(policy);
      }
    }
  }

  datatype Decision = Idle | Wait(until: Instant) | Attempt(id: string) | InFlight | Exhausted | Disarmed

  /** One activation's progress, as a value. */
  datatype Progress = Progress(current: nat, visited: seq<bool>, attempts: nat, episode: bool,
                               inFlight: bool, armed: bool, cooldownUntil: Option<Instant>)

  function Max(a: nat, b: nat): nat { if a < b then b else a }

  function Deadline(s: Progress, backoffUntil: Instant): Instant {
    if s.cooldownUntil.Some? then Max(s.cooldownUntil.value, backoffUntil) else backoffUntil
  }

  /** The ring search: the first unvisited member at `offset` or further from the current one. */
  function Search(p: Policy, s: Progress, offset: nat): (found: Option<nat>)
    requires |s.visited| == p.Size()
    ensures found.Some? ==> found.value < p.Size() && !s.visited[found.value]
    decreases p.Size() - offset
  {
    if offset >= p.Size() then None
    else
      var index := (s.current + offset) % p.Size();
      if !s.visited[index] then Some(index) else Search(p, s, offset + 1)
  }

  /** `Activation::next`; the search is total by `SearchFindsSuccessor`. */
  function Decide(p: Policy, s: Progress, now: Instant, backoffUntil: Instant): Decision
    requires |s.visited| == p.Size()
  {
    if !s.armed then Disarmed
    else if s.inFlight then InFlight
    else if !s.episode then Idle
    else if s.attempts >= p.maxAttempts || (forall i :: 0 <= i < |s.visited| ==> s.visited[i]) then Exhausted
    else if now < Deadline(s, backoffUntil) then Wait(Deadline(s, backoffUntil))
    else
      var found := Search(p, s, 1);
      if found.Some? then Attempt(p.members[found.value]) else Exhausted
  }

  /** `Activation::progress`. */
  function NextCandidate(p: Policy, s: Progress): Option<string>
    requires |s.visited| == p.Size()
  {
    if s.armed && s.episode && !s.inFlight && s.attempts < p.maxAttempts then
      var found := Search(p, s, 1);
      if found.Some? then Some(p.members[found.value]) else None
    else None
  }

  function IndexOf(ids: seq<string>, id: string, from: nat := 0): (found: Option<nat>)
    requires from <= |ids|
    ensures found.Some? ==> from <= found.value < |ids| && ids[found.value] == id
    ensures found.None? ==> forall i :: from <= i < |ids| ==> ids[i] != id
    decreases |ids| - from
  {
    if from == |ids| then None
    else if ids[from] == id then Some(from) else IndexOf(ids, id, from + 1)
  }

  datatype Event =
    | Begin(failedId: string)
    | Admit(id: string, now: Instant, backoffUntil: Instant)
    | AttemptFailed(id: string)
    | ConfirmSuccess(id: string)
    | Disarm

  /** Every member a policy names exists once, and the state refers to one of them. */
  ghost predicate Shaped(p: Policy, s: Progress) {
    && IsValid(p) && p.enabled
    && |s.visited| == p.Size()
    && s.current < p.Size()
  }

  predicate Accepts(p: Policy, s: Progress, e: Event)
    requires |s.visited| == p.Size() && s.current < p.Size()
  {
    match e
    case Begin(id) => s.armed && !s.episode && p.members[s.current] == id
    case Admit(id, now, backoff) => Decide(p, s, now, backoff) == Attempt(id)
    case AttemptFailed(id) => s.inFlight && p.members[s.current] == id
    case ConfirmSuccess(id) => s.inFlight && p.members[s.current] == id
    case Disarm => true
  }

  /** The state after an event; a refused event changes nothing. */
  function Apply(p: Policy, s: Progress, e: Event): (t: Progress)
    requires |s.visited| == p.Size() && s.current < p.Size()
    ensures |t.visited| == p.Size() && t.current < p.Size()
  {
    if !Accepts(p, s, e) then s
    else match e
      case Begin(_) => s.(visited := s.visited[s.current := true], episode := true)
      case Admit(id, now, _) =>
        var found := IndexOf(p.members, id);
        var index := if found.Some? then found.value else s.current;
        s.(current := index, visited := s.visited[index := true], attempts := s.attempts + 1,
           inFlight := true, cooldownUntil := Some(now + p.Cooldown()))
      case AttemptFailed(_) => s.(inFlight := false)
      case ConfirmSuccess(_) =>
        s.(inFlight := false, episode := false, attempts := 0, visited := seq(p.Size(), _ => false))
      case Disarm => s.(armed := false)
  }

  function Initial(p: Policy, primary: nat): Progress {
    Progress(primary, seq(p.Size(), _ => false), 0, false, false, true, None)
  }

  /** One admitted start. */
  datatype Admission = Admission(id: string, at: Instant, backoffUntil: Instant)

  /** A run: the state reached, every admission so far, where the last episode's
      admissions begin, and how many admissions have been completed. */
  datatype Run = Run(s: Progress, log: seq<Admission>, episodeStart: nat, completed: nat)

  function Extend(p: Policy, r: Run, e: Event): (t: Run)
    requires |r.s.visited| == p.Size() && r.s.current < p.Size()
    ensures |t.s.visited| == p.Size() && t.s.current < p.Size()
  {
    var accepted := Accepts(p, r.s, e);
    Run(Apply(p, r.s, e),
        if accepted && e.Admit? then r.log + [Admission(e.id, e.now, e.backoffUntil)] else r.log,
        if accepted && e.Begin? then |r.log| else r.episodeStart,
        if accepted && (e.AttemptFailed? || e.ConfirmSuccess?) then r.completed + 1 else r.completed)
  }

  /** The run that any sequence of calls produces, from any state. */
  function Resume(p: Policy, r: Run, events: seq<Event>): (t: Run)
    requires |r.s.visited| == p.Size() && r.s.current < p.Size()
    ensures |t.s.visited| == p.Size() && t.s.current < p.Size()
    decreases |events|
  {
    if events == [] then r else Resume(p, Extend(p, r, events[0]), events[1..])
  }

  /** The whole life of an activation of the member at `primary`. */
  function Life(p: Policy, primary: nat, events: seq<Event>): (t: Run)
    requires primary < p.Size()
    ensures |t.s.visited| == p.Size() && t.s.current < p.Size()
  {
    Resume(p, Run(Initial(p, primary), [], 0, 0), events)
  }

  /** How far round the ring `to` lies after `from`. */
  function Distance(n: nat, from: nat, to: nat): nat
    requires from < n && to < n
  {
    if from <= to then to - from else to + n - from
  }

  /** The members an episode has visited are the `attempts + 1` that end at the current one. */
  ghost predicate VisitedArc(p: Policy, s: Progress)
    requires Shaped(p, s)
  {
    if s.episode then
      && s.attempts < p.Size()
      && s.attempts <= p.maxAttempts
      && (forall i :: 0 <= i < p.Size() ==> (s.visited[i] <==> Distance(p.Size(), i, s.current) <= s.attempts))
    else
      && s.attempts == 0 && !s.inFlight
      && (forall i :: 0 <= i < p.Size() ==> !s.visited[i])
  }

  /** The admissions so far: saved-order round robin, each after its backoff
      deadline and a full cooldown after the one before. */
  ghost predicate LogOk(p: Policy, primary: nat, log: seq<Admission>)
    requires 0 < p.Size()
  {
    && (forall j :: 0 <= j < |log| ==> log[j].id == p.members[(primary + j + 1) % p.Size()])
    && (forall j :: 0 <= j < |log| ==> log[j].backoffUntil <= log[j].at)
    && (forall j :: 0 < j < |log| ==> log[j - 1].at + p.Cooldown() <= log[j].at)
  }

  /** What every reachable run satisfies. */
  ghost predicate Reachable(p: Policy, primary: nat, r: Run) {
    && Shaped(p, r.s) && primary < p.Size()
    && VisitedArc(p, r.s)
    && r.s.current == (primary + |r.log|) % p.Size()
    && LogOk(p, primary, r.log)
    && r.s.cooldownUntil == (if r.log == [] then None else Some(r.log[|r.log| - 1].at + p.Cooldown()))
    && r.episodeStart <= |r.log|
    && (r.s.episode ==> r.s.attempts == |r.log| - r.episodeStart)
    && |r.log| == r.completed + (if r.s.inFlight then 1 else 0)
  }

  /** The first `expect`: whenever the search runs, it finds the very next member. */
  lemma SearchFindsSuccessor(p: Policy, s: Progress)
    requires Shaped(p, s) && VisitedArc(p, s) && s.episode
    ensures s.attempts == p.Size() - 1 <==> forall i :: 0 <= i < p.Size() ==> s.visited[i]
    ensures s.attempts < p.Size() - 1 ==> Search(p, s, 1) == Some((s.current + 1) % p.Size())
    ensures s.attempts == p.Size() - 1 ==> Search(p, s, 1) == None
  {
    var n := p.Size();
    ModBelowTwice(s.current + 1, n);
    var next := (s.current + 1) % n;
    assert Distance(n, next, s.current) == n - 1;
    if s.attempts == n - 1 {
      SearchAllVisited(p, s, 1);
    }
  }

  lemma SearchAllVisited(p: Policy, s: Progress, offset: nat)
    requires |s.visited| == p.Size() && forall i :: 0 <= i < p.Size() ==> s.visited[i]
    ensures Search(p, s, offset) == None
    decreases p.Size() - offset
  {
  }

  lemma IndexOfMember(p: Policy, i: nat)
    requires IsValid(p) && p.enabled && i < p.Size()
    ensures IndexOf(p.members, p.members[i]) == Some(i)
  {
  }

  /** An admission moves the visited arc one member further. */
  lemma AdmitKeepsArc(p: Policy, s: Progress, id: string, now: Instant, backoff: Instant)
    requires Shaped(p, s) && VisitedArc(p, s) && Accepts(p, s, Admit(id, now, backoff))
    ensures IndexOf(p.members, id).Some?
    ensures var t := Apply(p, s, Admit(id, now, backoff)); Shaped(p, t) && VisitedArc(p, t)
  {
    var n := p.Size();
    SearchFindsSuccessor(p, s);
    ModBelowTwice(s.current + 1, n);
    var next := (s.current + 1) % n;
    IndexOfMember(p, next);
    var t := Apply(p, s, Admit(id, now, backoff));
    forall i | 0 <= i < n
      ensures t.visited[i] <==> Distance(n, i, next) <= s.attempts + 1
    {
      if i != next {
        assert Distance(n, i, next) == Distance(n, i, s.current) + 1;
      }
    }
  }

  /** ... and the ring position with it. */
  lemma AdmitIsSuccessor(p: Policy, primary: nat, r: Run, e: Event)
    requires Reachable(p, primary, r) && e.Admit? && Accepts(p, r.s, e)
    ensures Apply(p, r.s, e).current == (primary + |r.log| + 1) % p.Size()
    ensures e.id == p.members[(primary + |r.log| + 1) % p.Size()]
  {
    SearchFindsSuccessor(p, r.s);
    ModBelowTwice(r.s.current + 1, p.Size());
    SuccessorOfMod(primary + |r.log|, p.Size());
    IndexOfMember(p, (r.s.current + 1) % p.Size());
  }

  lemma LogExtends(p: Policy, primary: nat, log: seq<Admission>, a: Admission)
    requires 0 < p.Size() && LogOk(p, primary, log)
    requires a.id == p.members[(primary + |log| + 1) % p.Size()] && a.backoffUntil <= a.at
    requires log != [] ==> log[|log| - 1].at + p.Cooldown() <= a.at
    ensures LogOk(p, primary, log + [a])
  {
  }

  lemma AdmitKeepsReachable(p: Policy, primary: nat, r: Run, e: Event)
    requires Reachable(p, primary, r) && e.Admit? && Accepts(p, r.s, e)
    ensures Reachable(p, primary, Extend(p, r, e))
  {
    AdmitKeepsArc(p, r.s, e.id, e.now, e.backoffUntil);
    AdmitIsSuccessor(p, primary, r, e);
    LogExtends(p, primary, r.log, Admission(e.id, e.now, e.backoffUntil));
  }

  lemma ExtendKeepsReachable(p: Policy, primary: nat, r: Run, e: Event)
    requires Reachable(p, primary, r)
    ensures Reachable(p, primary, Extend(p, r, e))
  {
    if e.Admit? && Accepts(p, r.s, e) {
      AdmitKeepsReachable(p, primary, r, e);
    } else {
      var s, t := r.s, Apply(p, r.s, e);
      assert t.current == s.current && t.cooldownUntil == s.cooldownUntil && Extend(p, r, e).log == r.log;
      assert VisitedArc(p, t);
    }
  }

  lemma {:induction false} ResumeKeepsReachable(p: Policy, primary: nat, r: Run, events: seq<Event>)
    requires Reachable(p, primary, r)
    ensures Reachable(p, primary, Resume(p, r, events))
    decreases |events|
  {
    if events != [] {
      ExtendKeepsReachable(p, primary, r, events[0]);
      ResumeKeepsReachable(p, primary, Extend(p, r, events[0]), events[1..]);
    }
  }

  lemma LifeIsReachable(p: Policy, primary: nat, events: seq<Event>)
    requires IsValid(p) && p.enabled && primary < p.Size()
    ensures Reachable(p, primary, Life(p, primary, events))
  {
    var r := Run(Initial(p, primary), [], 0, 0);
    ModBelowTwice(primary, p.Size());
    assert Reachable(p, primary, r);
    ResumeKeepsReachable(p, primary, r, events);
  }

  /** Strict saved-order round robin over the whole life, across any number of
      episodes: no skip and no failback. The explicit initial start is the 0th. */
  lemma RoundRobin(p: Policy, primary: nat, events: seq<Event>, j: nat)
    requires IsValid(p) && p.enabled && primary < p.Size()
    requires j < |Life(p, primary, events).log|
    ensures Life(p, primary, events).log[j].id == p.members[(primary + j + 1) % p.Size()]
  {
    LifeIsReachable(p, primary, events);
  }

  ghost function VisitedSet(s: Progress): set<nat> {
    set i: nat | i < |s.visited| && s.visited[i]
  }

  /** The members at distance at most `k` behind `current`. */
  lemma {:induction false} ArcSize(n: nat, current: nat, k: nat, arc: set<nat>)
    requires current < n && k < n
    requires forall i: nat :: i in arc <==> i < n && Distance(n, i, current) <= k
    ensures |arc| == k + 1
  {
    var last := if k <= current then current - k else current + n - k;
    assert Distance(n, last, current) == k;
    if k == 0 {
      assert arc == {current};
    } else {
      ArcSize(n, current, k - 1, arc - {last});
    }
  }

  /** In an episode exactly `attempts + 1` members are visited, the current one
      among them, so the episode admits at most `min(max_attempts, n - 1)` starts. */
  lemma EpisodeBudget(p: Policy, primary: nat, events: seq<Event>)
    requires IsValid(p) && p.enabled && primary < p.Size()
    ensures var r := Life(p, primary, events);
            r.s.episode ==>
              && |VisitedSet(r.s)| == r.s.attempts + 1
              && r.s.current in VisitedSet(r.s)
              && r.s.attempts == |r.log| - r.episodeStart
              && |r.log| - r.episodeStart <= p.maxAttempts
              && |r.log| - r.episodeStart <= p.Size() - 1
  {
    LifeIsReachable(p, primary, events);
    var r := Life(p, primary, events);
    if r.s.episode {
      ArcSize(p.Size(), r.s.current, r.s.attempts, VisitedSet(r.s));
    }
  }

  /** An exhausted activation stays exhausted under every call but `disarm`, and
      nothing it is asked from then on is ever admitted. */
  lemma {:induction false} ExhaustedIsAbsorbing(p: Policy, primary: nat, r: Run, events: seq<Event>, now: Instant,
      backoff: Instant)
    requires Reachable(p, primary, r) && Decide(p, r.s, now, backoff) == Exhausted
    ensures var t := Resume(p, r, events);
            && t.log == r.log
            && forall now': Instant, backoff': Instant ::
                 Decide(p, t.s, now', backoff') == if Disarm in events then Disarmed else Exhausted
    decreases |events|
  {
    SearchFindsSuccessor(p, r.s);
    if events != [] {
      var t := Extend(p, r, events[0]);
      assert events == [events[0]] + events[1..];
      if events[0] == Disarm {
        DisarmedIsFinal(p, t, events[1..]);
      } else {
        assert t == r;
        ExhaustedIsAbsorbing(p, primary, t, events[1..], now, backoff);
      }
    }
  }

  /** After `disarm` no sequence of calls admits another start or rearms. */
  lemma {:induction false} DisarmedIsFinal(p: Policy, r: Run, events: seq<Event>)
    requires |r.s.visited| == p.Size() && r.s.current < p.Size() && !r.s.armed
    ensures Resume(p, r, events).log == r.log && !Resume(p, r, events).s.armed
    decreases |events|
  {
    if events != [] {
      DisarmedIsFinal(p, Extend(p, r, events[0]), events[1..]);
    }
  }

  /** `progress` names a candidate exactly when waiting long enough admits one, and
      it is the one `next` will yield at its deadline. */
  lemma ProgressPredictsNext(p: Policy, primary: nat, events: seq<Event>, backoff: Instant)
    requires IsValid(p) && p.enabled && primary < p.Size()
    ensures var s := Life(p, primary, events).s;
            && (NextCandidate(p, s).Some? ==>
                  forall now: Instant :: Decide(p, s, now, backoff) ==
                    if now < Deadline(s, backoff) then Wait(Deadline(s, backoff))
                    else Attempt(NextCandidate(p, s).value))
            && (NextCandidate(p, s).None? ==>
                  forall now: Instant :: !Decide(p, s, now, backoff).Wait? && !Decide(p, s, now, backoff).Attempt?)
  {
    LifeIsReachable(p, primary, events);
    var s := Life(p, primary, events).s;
    if s.episode {
      SearchFindsSuccessor(p, s);
    }
  }

  lemma {:induction false} CooldownAccumulates(p: Policy, primary: nat, r: Run, i: nat, j: nat)
    requires Reachable(p, primary, r) && i <= j < |r.log|
    ensures r.log[j].at - r.log[i].at >= (j - i) * p.Cooldown()
    decreases j
  {
    if i < j {
      CooldownAccumulates(p, primary, r, i, j - 1);
      assert (j - i) * p.Cooldown() == (j - 1 - i) * p.Cooldown() + p.Cooldown();
    }
  }

  /** Admissions keep the cooldown between them across confirmed recoveries, never
      precede the backoff deadline they were asked with, and never overlap. */
  lemma AdmissionSpacing(p: Policy, primary: nat, events: seq<Event>, i: nat, j: nat)
    requires IsValid(p) && p.enabled && primary < p.Size()
    requires i <= j < |Life(p, primary, events).log|
    ensures var r := Life(p, primary, events);
            && r.log[j].at - r.log[i].at >= (j - i) * p.Cooldown()
            && r.log[j].backoffUntil <= r.log[j].at
            && r.completed <= |r.log| <= r.completed + 1
  {
    LifeIsReachable(p, primary, events);
    CooldownAccumulates(p, primary, Life(p, primary, events), i, j);
  }

  /** The activation itself: private fields changed in place by every call. */
  class Activation {
    const policy: Policy
    const primary: nat
    var current: nat
    var visited: seq<bool>
    var attempts: nat
    var episode: bool
    var inFlight: bool
    var armed: bool
    var cooldownUntil: Option<Instant>

    ghost function View(): Progress
      reads this
    {
      Progress(current, visited, attempts, episode, inFlight, armed, cooldownUntil)
    }

    ghost predicate Valid()
      reads this
    {
      && primary < policy.Size()
      && Shaped(policy, View())
      && VisitedArc(policy, View())
    }

    /** The part of `Activation::new` that runs once its checks have passed. */
    constructor Start(p: Policy, index: nat)
      requires IsValid(p) && p.enabled && index < p.Size()
      ensures Valid() && policy == p && primary == index
      ensures View() == Initial(p, index)
    {
      policy, primary, current := p, index, index;
      visited := seq(|p.members|, _ => false);
      attempts, episode, inFlight, armed, cooldownUntil := 0, false, false, true, None;
    }

    static method New(p: Policy, initialId: string) returns (a: Activation?)
      ensures a == null <==> !IsValid(p) || !p.enabled || initialId !in p.members
      ensures a != null ==> fresh(a) && a.Valid() && a.policy == p && p.members[a.primary] == initialId
      ensures a != null ==> a.View() == Initial(p, a.primary)
    {
      var ok := Validate(p);
      if !ok || !p.enabled {
        return null;
      }
      for k := 0 to |p.members|
        invariant forall i :: 0 <= i < k ==> p.members[i] != initialId
      {
        if p.members[k] == initialId {
          a := new Activation.Start(p, k);
          return;
        }
      }
      a := null;
    }

    /** The loop behind `next` and `progress`. */
    method FindUnvisited() returns (found: Option<nat>)
      requires 1 <= policy.Size() == |visited|
      ensures found == Search(policy, View(), 1)
    {
      for offset := 1 to |policy.members|
        invariant Search(policy, View(), 1) == Search(policy, View(), offset)
      {
        var index := (current + offset) % |policy.members|;
        if !visited[index] {
          return Some(index);
        }
      }
      found := None;
    }

    method Next(now: Instant, backoffUntil: Instant) returns (d: Decision)
      requires Valid()
      ensures d == Decide(policy, View(), now, backoffUntil)
    {
      if !armed {
        return Disarmed;
      }
      if inFlight {
        return InFlight;
      }
      if !episode {
        return Idle;
      }
      if attempts >= policy.maxAttempts || (forall i :: 0 <= i < |visited| ==> visited[i]) {
        return Exhausted;
      }
      var deadline := if cooldownUntil.Some? then Max(cooldownUntil.value, backoffUntil) else backoffUntil;
      if now < deadline {
        return Wait(deadline);
      }
      var found := FindUnvisited();
      SearchFindsSuccessor(policy, View());
      assert found.Some?;  // "an unvisited candidate remains"
      d := Attempt(policy.members[found.value]);
    }

    method ReportProgress() returns (count: nat, next: Option<string>)
      requires Valid()
      ensures count == attempts && next == NextCandidate(policy, View())
    {
      count, next := attempts, None;
      if armed && episode && !inFlight && attempts < policy.maxAttempts {
        var found := FindUnvisited();
        if found.Some? {
          next := Some(policy.members[found.value]);
        }
      }
    }

    method BeginEpisode(failedId: string) returns (ok: bool)
      requires Valid()
      modifies this
      ensures Valid() && View() == Apply(policy, old(View()), Begin(failedId))
      ensures ok == Accepts(policy, old(View()), Begin(failedId))
    {
      if !armed || episode || policy.members[current] != failedId {
        return false;
      }
      visited := visited[current := true];
      episode := true;
      ok := true;
    }

    method AdmitStart(id: string, now: Instant, backoffUntil: Instant) returns (ok: bool)
      requires Valid()
      modifies this
      ensures Valid() && View() == Apply(policy, old(View()), Admit(id, now, backoffUntil))
      ensures ok == Accepts(policy, old(View()), Admit(id, now, backoffUntil))
    {
      var decision := Next(now, backoffUntil);
      if decision != Attempt(id) {
        return false;
      }
      AdmitKeepsArc(policy, View(), id, now, backoffUntil);
      var position := IndexOf(policy.members, id);
      assert position.Some?;  // "admitted candidate is authorized"
      current := position.value;
      visited := visited[current := true];
      attempts := attempts + 1;
      inFlight := true;
      cooldownUntil := Some(now + policy.Cooldown());
      ok := true;
    }

    method FailAttempt(id: string) returns (ok: bool)
      requires Valid()
      modifies this
      ensures Valid() && View() == Apply(policy, old(View()), AttemptFailed(id))
      ensures ok == Accepts(policy, old(View()), AttemptFailed(id))
    {
      ok := inFlight && policy.members[current] == id;
      if ok {
        inFlight := false;
      }
    }

    method Confirm(id: string) returns (ok: bool)
      requires Valid()
      modifies this
      ensures Valid() && View() == Apply(policy, old(View()), ConfirmSuccess(id))
      ensures ok == Accepts(policy, old(View()), ConfirmSuccess(id))
    {
      ok := inFlight && policy.members[current] == id;
      if ok {
        inFlight, episode, attempts := false, false, 0;
        visited := seq(|visited|, _ => false);
      }
    }

    method Revoke()
      requires Valid()
      modifies this
      ensures Valid() && View() == Apply(policy, old(View()), Disarm)
    {
      armed := false;
    }
  }
}
