/** The catalogue: identity migration, and subscription updates whose network work
    runs without the lock. The registry half of `engine.rs`. */
module Registry {
  import opened Wrappers
  import Alias
  import Failover
  import opened Identity

  const LOCAL_ID := "local"
  const DEFAULT_USER_AGENT := "v2rayN/6.45"

  /** What the registry reads of a server. `identity` is the string its id derives
      from; it depends on neither the id nor the alias. */
  datatype Server = Server(id: string, name: string, country: Option<string>, alias: Option<string>,
                           linked: bool, identity: string)

  datatype Subscription = Subscription(id: string, url: string, name: string, sendHwid: bool,
                                       userAgent: Option<string>, servers: seq<Server>, updatedAt: Option<int>)

  function NewSubscription(url: string, name: Option<string>, sendHwid: bool): Subscription {
    Subscription(StableId(url), url, if name.Some? then name.value else url, sendHwid, None, [], None)
  }

  /** Every server, subscription by subscription. */
  function Flat(subs: seq<Subscription>): seq<Server> {
    if subs == [] then [] else Flat(subs[..|subs| - 1]) + subs[|subs| - 1].servers
  }

  ghost function Ids(servers: seq<Server>): set<string> {
    set i | 0 <= i < |servers| :: servers[i].id
  }

  // --------------------------------------------------------------- aliases

  function Named(s: Server): Alias.Server { Alias.Server(s.name, s.country, s.alias) }

  function AllNamed(servers: seq<Server>): (named: seq<Alias.Server>)
    ensures |named| == |servers|
  {
    seq(|servers|, i requires 0 <= i < |servers| => Named(servers[i]))
  }

  function WithAliases(servers: seq<Server>, labels: seq<Alias.Server>): (labelled: seq<Server>)
    requires |labels| == |servers|
    ensures |labelled| == |servers|
  {
    seq(|servers|, i requires 0 <= i < |servers| => servers[i].(alias := labels[i].alias))
  }

  /** The labels of the flattened servers, put back where they belong. */
  function Relabel(subs: seq<Subscription>, labels: seq<Alias.Server>): (relabelled: seq<Subscription>)
    requires |labels| == |Flat(subs)|
    ensures |relabelled| == |subs|
  {
    if subs == [] then []
    else
      var last := subs[|subs| - 1];
      var before := |Flat(subs[..|subs| - 1])|;
      Relabel(subs[..|subs| - 1], labels[..before]) + [last.(servers := WithAliases(last.servers, labels[before..]))]
  }

  lemma WithAliasesConcat(a: seq<Server>, b: seq<Server>, labels: seq<Alias.Server>)
    requires |labels| == |a| + |b|
    ensures WithAliases(a, labels[..|a|]) + WithAliases(b, labels[|a|..]) == WithAliases(a + b, labels)
  {
  }

  lemma {:induction false} RelabelIsFlat(subs: seq<Subscription>, labels: seq<Alias.Server>)
    requires |labels| == |Flat(subs)|
    ensures Flat(Relabel(subs, labels)) == WithAliases(Flat(subs), labels)
  {
    if subs != [] {
      var init, last := subs[..|subs| - 1], subs[|subs| - 1];
      var before := |Flat(init)|;
      RelabelIsFlat(init, labels[..before]);
      var relabelled := Relabel(subs, labels);
      assert relabelled[..|subs| - 1] == Relabel(init, labels[..before]);
      WithAliasesConcat(Flat(init), last.servers, labels);
    }
  }

  lemma {:induction false} RelabelKeepsRest(subs: seq<Subscription>, labels: seq<Alias.Server>)
    requires |labels| == |Flat(subs)|
    ensures AliasesOnly(subs, Relabel(subs, labels))
  {
    if subs != [] {
      RelabelKeepsRest(subs[..|subs| - 1], labels[..|Flat(subs[..|subs| - 1])|]);
    }
  }

  predicate SameButAliases(s: Subscription, t: Subscription) {
    && t == s.(servers := t.servers)
    && |t.servers| == |s.servers|
    && forall i :: 0 <= i < |s.servers| ==> t.servers[i] == s.servers[i].(alias := t.servers[i].alias)
  }

  ghost predicate AliasesOnly(was: seq<Subscription>, now: seq<Subscription>) {
    |was| == |now| && forall i :: 0 <= i < |was| ==> SameButAliases(was[i], now[i])
  }

  lemma NothingRelabelled(subs: seq<Subscription>)
    ensures AliasesOnly(subs, subs)
  {
  }

  // ------------------------------------------------------------- migration

  /** The id a server ought to have in a subscription. */
  function NewId(subscription: string, s: Server): string {
    if subscription == LOCAL_ID && !s.linked && s.id != "" then s.id else StableId(s.identity)
  }

  function NewSubscriptionId(s: Subscription): string {
    if s.id == LOCAL_ID then LOCAL_ID else StableId(s.url)
  }

  /** Every identity is the one its content gives. */
  ghost predicate Migrated(subs: seq<Subscription>) {
    forall i :: 0 <= i < |subs| ==>
      && subs[i].id == NewSubscriptionId(subs[i])
      && forall j :: 0 <= j < |subs[i].servers| ==> subs[i].servers[j].id == NewId(subs[i].id, subs[i].servers[j])
  }

  /** Which old id each new id belongs to: the first to claim it keeps it. */
  type Owners = map<string, string>

  ghost predicate Extends(seen: Owners, more: Owners) {
    forall id :: id in seen ==> id in more && more[id] == seen[id]
  }

  predicate Owns(owners: Owners, subscription: string, s: Server) {
    NewId(subscription, s) in owners && owners[NewId(subscription, s)] == s.id
  }

  /** The servers that own their new id, renamed, in order; the others collide. */
  function Survivors(owners: Owners, subscription: string, servers: seq<Server>): seq<Server> {
    if servers == [] then []
    else
      var last := servers[|servers| - 1];
      Survivors(owners, subscription, servers[..|servers| - 1])
      + if Owns(owners, subscription, last) then [last.(id := NewId(subscription, last))] else []
  }

  ghost predicate NamedBy(subscription: string, servers: seq<Server>, id: string) {
    exists j :: 0 <= j < |servers| && NewId(subscription, servers[j]) == id
  }

  ghost predicate Covers(owners: Owners, subscription: string, servers: seq<Server>) {
    forall j :: 0 <= j < |servers| ==> NewId(subscription, servers[j]) in owners
  }

  /** Whoever is first to have a new id that was not owned before owns it. */
  ghost predicate FirstOwn(subscription: string, servers: seq<Server>, seen: Owners, owners: Owners) {
    && Extends(seen, owners) && Covers(owners, subscription, servers)
    && (forall id :: id in owners && id !in seen ==> NamedBy(subscription, servers, id))
    && (forall j :: 0 <= j < |servers| ==>
          var id := NewId(subscription, servers[j]);
          id in owners && id !in seen && !NamedBy(subscription, servers[..j], id) ==> owners[id] == servers[j].id)
  }

  ghost predicate NamedIn(subs: seq<Subscription>, id: string) {
    exists i :: 0 <= i < |subs| && NamedBy(NewSubscriptionId(subs[i]), subs[i].servers, id)
  }

  /** The owners of a whole catalogue, in traversal order. */
  ghost predicate OwnersOf(subs: seq<Subscription>, owners: Owners) {
    && (forall id :: id in owners ==> NamedIn(subs, id))
    && (forall i, j :: 0 <= i < |subs| && 0 <= j < |subs[i].servers| ==>
          var sub := NewSubscriptionId(subs[i]);
          var id := NewId(sub, subs[i].servers[j]);
          && id in owners
          && (!NamedIn(subs[..i], id) && !NamedBy(sub, subs[i].servers[..j], id) ==>
              owners[id] == subs[i].servers[j].id))
  }

  function Renamed(owners: Owners, s: Subscription): Subscription {
    s.(id := NewSubscriptionId(s), servers := Survivors(owners, NewSubscriptionId(s), s.servers))
  }

  /** What migration makes of a catalogue: every subscription and server under its
      new id, later holders of a new id dropped, everything else as it was. */
  ghost predicate MigrationOf(was: seq<Subscription>, now: seq<Subscription>, owners: Owners) {
    && OwnersOf(was, owners)
    && |now| == |was| && forall i :: 0 <= i < |was| ==> now[i] == Renamed(owners, was[i])
  }

  lemma {:induction false} SurvivorsAgree(subscription: string, servers: seq<Server>, seen: Owners, more: Owners)
    requires Extends(seen, more) && Covers(seen, subscription, servers)
    ensures Survivors(more, subscription, servers) == Survivors(seen, subscription, servers)
  {
    hide NewId;
    if servers != [] {
      SurvivorsAgree(subscription, servers[..|servers| - 1], seen, more);
    }
  }

  lemma SurvivorsNext(owners: Owners, subscription: string, servers: seq<Server>, k: nat)
    requires k < |servers|
    ensures Survivors(owners, subscription, servers[..k + 1]) ==
            Survivors(owners, subscription, servers[..k])
            + if Owns(owners, subscription, servers[k])
              then [servers[k].(id := NewId(subscription, servers[k]))] else []
  {
    hide NewId;
    assert servers[..k + 1][..k] == servers[..k];
  }

  lemma NamedByNext(subscription: string, servers: seq<Server>, k: nat, id: string)
    requires k < |servers|
    ensures NamedBy(subscription, servers[..k + 1], id) <==>
            NamedBy(subscription, servers[..k], id) || NewId(subscription, servers[k]) == id
  {
    hide NewId;
    var longer := servers[..k + 1];
    assert longer[k] == servers[k] && forall j :: 0 <= j < k ==> longer[j] == servers[..k][j];
  }

  lemma NothingOwned(subscription: string, servers: seq<Server>, seen: Owners)
    ensures FirstOwn(subscription, servers[..0], seen, seen) && Survivors(seen, subscription, servers[..0]) == []
  {
  }

  /** One more server of a subscription. */
  lemma FirstOwnNext(subscription: string, servers: seq<Server>, k: nat, seen: Owners, now: Owners, next: Owners)
    requires k < |servers| && FirstOwn(subscription, servers[..k], seen, now)
    requires var id := NewId(subscription, servers[k]); next == if id in now then now else now[id := servers[k].id]
    ensures FirstOwn(subscription, servers[..k + 1], seen, next)
    ensures Extends(now, next) && Covers(now, subscription, servers[..k])
  {
    hide NewId, NamedBy;
    var longer := servers[..k + 1];
    forall id | id in next && id !in seen
      ensures NamedBy(subscription, longer, id)
    {
      NamedByNext(subscription, servers, k, id);
    }
    forall j | 0 <= j < |longer|
      ensures longer[j] == servers[j] && longer[..j] == servers[..j]
      ensures j < k ==> servers[..k][j] == servers[j] && servers[..k][..j] == servers[..j]
    {
    }
    var last := NewId(subscription, servers[k]);
    assert last in now && last !in seen ==> NamedBy(subscription, servers[..k], last);
  }

  lemma NamedInGrows(subs: seq<Subscription>, s: Subscription, id: string)
    ensures NamedIn(subs + [s], id) <==> NamedIn(subs, id) || NamedBy(NewSubscriptionId(s), s.servers, id)
  {
    hide NamedBy, NewSubscriptionId;
    var longer := subs + [s];
    assert longer[|subs|] == s;
    assert forall i :: 0 <= i < |subs| ==> longer[i] == subs[i];
  }

  /** One more subscription of a catalogue. */
  lemma OwnersGrow(subs: seq<Subscription>, s: Subscription, seen: Owners, owners: Owners)
    requires OwnersOf(subs, seen) && FirstOwn(NewSubscriptionId(s), s.servers, seen, owners)
    ensures OwnersOf(subs + [s], owners)
  {
    hide NewId, NewSubscriptionId, NamedBy, NamedIn;
    var longer := subs + [s];
    forall id | id in owners
      ensures NamedIn(longer, id)
    {
      NamedInGrows(subs, s, id);
    }
    forall i | 0 <= i < |longer|
      ensures longer[..i] == if i < |subs| then subs[..i] else subs
      ensures longer[i] == if i < |subs| then subs[i] else s
    {
    }
  }

  lemma {:induction false} FirstBy(subscription: string, servers: seq<Server>, id: string) returns (j: nat)
    requires NamedBy(subscription, servers, id)
    ensures j < |servers| && NewId(subscription, servers[j]) == id && !NamedBy(subscription, servers[..j], id)
  {
    hide NewId;
    var n := |servers| - 1;
    assert servers[..n + 1] == servers;
    NamedByNext(subscription, servers, n, id);
    if NamedBy(subscription, servers[..n], id) {
      j := FirstBy(subscription, servers[..n], id);
      assert servers[..n][..j] == servers[..j];
    } else {
      j := n;
    }
  }

  /** Every new id has a first holder. */
  lemma {:induction false} FirstHolder(subs: seq<Subscription>, id: string) returns (i: nat, j: nat)
    requires NamedIn(subs, id)
    ensures i < |subs| && j < |subs[i].servers|
    ensures var sub := NewSubscriptionId(subs[i]);
            && NewId(sub, subs[i].servers[j]) == id
            && !NamedIn(subs[..i], id) && !NamedBy(sub, subs[i].servers[..j], id)
  {
    hide NewId, NewSubscriptionId;
    var n := |subs| - 1;
    assert subs == subs[..n] + [subs[n]];
    NamedInGrows(subs[..n], subs[n], id);
    hide NamedIn, NamedBy;
    if NamedIn(subs[..n], id) {
      i, j := FirstHolder(subs[..n], id);
      assert subs[..n][..i] == subs[..i];
    } else {
      i := n;
      j := FirstBy(NewSubscriptionId(subs[n]), subs[n].servers, id);
    }
  }

  /** The outcome of a migration is determined by the catalogue. */
  lemma MigrationIsDeterministic(was: seq<Subscription>, a: seq<Subscription>, b: seq<Subscription>, x: Owners,
      y: Owners)
    requires MigrationOf(was, a, x) && MigrationOf(was, b, y)
    ensures a == b && x == y
  {
    hide NewId, NewSubscriptionId, NamedBy, NamedIn, Survivors;
    forall id | id in x || id in y
      ensures id in x && id in y && x[id] == y[id]
    {
      var i, j := FirstHolder(was, id);
    }
    assert x.Keys == y.Keys;
    assert x == y;
  }

  /** What was migrated before stays so when more ids get owners. */
  lemma MigrationGrows(was: seq<Subscription>, now: seq<Subscription>, seen: Owners, s: Subscription, owners: Owners)
    requires MigrationOf(was, now, seen) && FirstOwn(NewSubscriptionId(s), s.servers, seen, owners)
    ensures MigrationOf(was + [s], now + [Renamed(owners, s)], owners)
  {
    OwnersGrow(was, s, seen, owners);
    hide NewId, NewSubscriptionId, NamedBy, NamedIn, Survivors;
    forall i | 0 <= i < |was|
      ensures Renamed(owners, was[i]) == Renamed(seen, was[i])
    {
      SurvivorsAgree(NewSubscriptionId(was[i]), was[i].servers, seen, owners);
    }
  }

  datatype SavedSession = SavedSession(profile: string, server: Option<string>, members: seq<string>)

  function Remap(renamed: map<string, string>, id: string): string {
    if id in renamed then renamed[id] else id
  }

  function RemapSession(renamed: map<string, string>, s: SavedSession): SavedSession {
    s.(server := if s.server.Some? then Some(Remap(renamed, s.server.value)) else None,
       members := seq(|s.members|, i requires 0 <= i < |s.members| => Remap(renamed, s.members[i])))
  }

  /** What the migration knows after some servers: `pairs` are their old and new ids,
      `ids` those of the servers it kept. */
  ghost predicate Tracks(pairs: set<(string, string)>, renamed: map<string, string>, seen: map<string, string>,
      ids: set<string>) {
    && seen.Keys == ids
    && (forall p :: p in pairs ==> p.1 in ids && (p.0 != p.1 ==> p.0 in renamed))
    && (forall id :: id in renamed ==> renamed[id] in ids)
  }

  lemma NothingTracked()
    ensures Tracks({}, map[], map[], Ids(Flat([]))) && MigrationOf([], [], map[])
  {
  }

  /** A migrated server keeps its id. */
  lemma NewIdIsStable(subscription: string, s: Server)
    ensures var t := s.(id := NewId(subscription, s)); NewId(subscription, t) == t.id
  {
    hide StableId;
  }

  /** One more server, kept or dropped. */
  lemma TracksGrow(pairs: set<(string, string)>, renamed: map<string, string>,
                   seen: map<string, string>, ids: set<string>,
                   oldId: string, newId: string)
    requires Tracks(pairs, renamed, seen, ids)
    ensures newId in seen <==> newId in ids
    ensures Tracks(pairs + {(oldId, newId)},
                   if oldId != newId && oldId !in renamed then renamed[oldId := newId] else renamed,
                   if newId in seen then seen else seen[newId := oldId],
                   ids + {newId})
  {
  }

  /** Whatever a catalogued server was called, its remapped name is catalogued. */
  lemma TrackedIsNamed(pairs: set<(string, string)>, renamed: map<string, string>, seen: map<string, string>,
                       ids: set<string>, was: set<string>, s: SavedSession)
    requires Tracks(pairs, renamed, seen, ids)
    requires forall id :: id in was ==> exists p :: p in pairs && p.0 == id
    ensures StillNamed(s, RemapSession(renamed, s), was, ids)
  {
  }

  /** Every id seen so far belonged to the server it belongs to now. */
  predicate SelfSeen(seen: map<string, string>) {
    forall id :: id in seen ==> seen[id] == id
  }

  predicate IdsMigrated(subscription: string, servers: seq<Server>) {
    forall j :: 0 <= j < |servers| ==> servers[j].id == NewId(subscription, servers[j])
  }

  /** A session that keeps naming catalogued servers: whatever it named that was
      there before, it names something that is there now. */
  ghost predicate StillNamed(s: SavedSession, t: SavedSession, was: set<string>, now: set<string>) {
    && t.profile == s.profile
    && (t.server.Some? <==> s.server.Some?)
    && (s.server.Some? && s.server.value in was ==> t.server.value in now)
    && |t.members| == |s.members|
    && forall i :: 0 <= i < |s.members| && s.members[i] in was ==> t.members[i] in now
  }

  predicate Labelled(servers: seq<Server>) {
    forall i :: 0 <= i < |servers| ==> servers[i].alias.Some?
  }

  lemma AssignedIsLabelled(was: seq<Server>, now: seq<Server>)
    requires Alias.Assigned(AllNamed(was), AllNamed(now))
    ensures Labelled(now)
  {
    forall i | 0 <= i < |now|
      ensures now[i].alias.Some?
    {
      assert Alias.Settled(AllNamed(was), AllNamed(now), i);
    }
  }

  lemma NothingRemapped(sessions: seq<SavedSession>)
    ensures forall i :: 0 <= i < |sessions| ==> RemapSession(map[], sessions[i]) == sessions[i]
  {
  }

  lemma IdsGrow(servers: seq<Server>, s: Server)
    ensures Ids(servers + [s]) == Ids(servers) + {s.id}
  {
    var longer := servers + [s];
    forall id | id in Ids(servers) + {s.id}
      ensures id in Ids(longer)
    {
      if id in Ids(servers) {
        var i :| 0 <= i < |servers| && servers[i].id == id;
        assert longer[i].id == id;
      } else {
        assert longer[|servers|].id == id;
      }
    }
  }

  lemma FlatGrows(subs: seq<Subscription>, s: Subscription)
    ensures Flat(subs + [s]) == Flat(subs) + s.servers
    ensures Ids(Flat(subs + [s])) == Ids(Flat(subs)) + Ids(s.servers)
  {
    var longer := subs + [s];
    assert longer[..|subs|] == subs;
    IdsConcat(Flat(subs), s.servers);
  }

  lemma IdsConcat(a: seq<Server>, b: seq<Server>)
    ensures Ids(a + b) == Ids(a) + Ids(b)
  {
    forall id | id in Ids(a) + Ids(b)
      ensures id in Ids(a + b)
    {
      if id in Ids(a) {
        var i :| 0 <= i < |a| && a[i].id == id;
        assert (a + b)[i].id == id;
      } else {
        var i :| 0 <= i < |b| && b[i].id == id;
        assert (a + b)[|a| + i].id == id;
      }
    }
  }

  lemma CoveredGrows(subs: seq<Subscription>, s: Subscription, id: string, pairs: set<(string, string)>,
      more: set<(string, string)>)
    requires pairs <= more
    requires forall was :: was in Ids(Flat(subs)) ==> exists p :: p in pairs && p.0 == was
    requires forall j :: 0 <= j < |s.servers| ==> (s.servers[j].id, NewId(id, s.servers[j])) in more
    ensures forall was :: was in Ids(Flat(subs + [s])) ==> exists p :: p in more && p.0 == was
  {
    FlatGrows(subs, s);
    forall was | was in Ids(Flat(subs + [s]))
      ensures exists p :: p in more && p.0 == was
    {
      if was in Ids(s.servers) {
        var j :| 0 <= j < |s.servers| && s.servers[j].id == was;
        var p := (s.servers[j].id, NewId(id, s.servers[j]));
        assert p in more && p.0 == was;
      } else {
        var p :| p in pairs && p.0 == was;
        assert p in more;
      }
    }
  }

  /** Aliases play no part in identities. */
  lemma MigratedIgnoresAliases(was: seq<Subscription>, now: seq<Subscription>)
    requires AliasesOnly(was, now) && Migrated(was)
    ensures Migrated(now)
  {
  }

  lemma {:induction false} IdsIgnoreAliases(was: seq<Subscription>, now: seq<Subscription>)
    requires AliasesOnly(was, now)
    ensures IdsInOrder(Flat(now)) == IdsInOrder(Flat(was))
  {
    if was != [] {
      var n := |was| - 1;
      assert SameButAliases(was[n], now[n]);
      IdsIgnoreAliases(was[..n], now[..n]);
      assert IdsInOrder(now[n].servers) == IdsInOrder(was[n].servers);
      assert IdsInOrder(Flat(was)) == IdsInOrder(Flat(was[..n])) + IdsInOrder(was[n].servers);
      assert IdsInOrder(Flat(now)) == IdsInOrder(Flat(now[..n])) + IdsInOrder(now[n].servers);
    }
  }

  lemma SameIds(a: seq<Server>, b: seq<Server>)
    requires IdsInOrder(a) == IdsInOrder(b)
    ensures Ids(a) == Ids(b)
  {
  }

  lemma MigratedGrows(subs: seq<Subscription>, s: Subscription)
    requires Migrated(subs) && s.id == NewSubscriptionId(s) && IdsMigrated(s.id, s.servers)
    ensures Migrated(subs + [s])
  {
  }

  class SavedState {
    var sessions: seq<SavedSession>

    constructor (sessions: seq<SavedSession>)
      ensures this.sessions == sessions
    {
      this.sessions := sessions;
    }
  }

  // ---------------------------------------------------- subscription updates

  datatype Baseline = Adding(given: Option<string>, existing: Option<Subscription>)
                    | Refreshing(name: string, serverIds: seq<string>)

  /** One fetch, as prepared under the lock. */
  datatype Target = Target(id: string, epoch: nat, url: string, userAgent: string, sendHwid: bool, baseline: Baseline)

  datatype Operation = Add(url: string, name: Option<string>, sendHwid: bool) | Refresh(id: string) | RefreshAll

  datatype Fetched = Fetched(servers: seq<Server>, title: Option<string>)

  function EffectiveUserAgent(userAgent: string): string {
    if Failover.IsBlank(userAgent) then DEFAULT_USER_AGENT else userAgent
  }

  /** What an update reads and writes. The epochs outlive the subscriptions. */
  datatype View = View(subs: seq<Subscription>, epochs: map<string, nat>, userAgent: string)

  function EpochOf(v: View, id: string): nat {
    if id in v.epochs then v.epochs[id] else 0
  }

  function Position(subs: seq<Subscription>, id: string, from: nat := 0): (at: Option<nat>)
    requires from <= |subs|
    ensures at.Some? ==> from <= at.value < |subs| && subs[at.value].id == id
    ensures at.Some? ==> forall i :: from <= i < at.value ==> subs[i].id != id
    ensures at.None? ==> forall i :: from <= i < |subs| ==> subs[i].id != id
    decreases |subs| - from
  {
    if from == |subs| then None else if subs[from].id == id then Some(from) else Position(subs, id, from + 1)
  }

  function Find(subs: seq<Subscription>, id: string): Option<Subscription> {
    var at := Position(subs, id);
    if at.Some? then Some(subs[at.value]) else None
  }

  function AgentFor(v: View, s: Subscription): string {
    EffectiveUserAgent(if s.userAgent.Some? then s.userAgent.value else v.userAgent)
  }

  function IdsInOrder(servers: seq<Server>): (ids: seq<string>)
    ensures |ids| == |servers| && forall i :: 0 <= i < |servers| ==> ids[i] == servers[i].id
  {
    seq(|servers|, i requires 0 <= i < |servers| => servers[i].id)
  }

  function RefreshTarget(v: View, s: Subscription): Target {
    Target(s.id, EpochOf(v, s.id), s.url, AgentFor(v, s), s.sendHwid, Refreshing(s.name, IdsInOrder(s.servers)))
  }

  /** One target for every subscription with a URL, in order. */
  function RefreshTargets(v: View, subs: seq<Subscription>): seq<Target> {
    if subs == [] then []
    else
      var last := subs[|subs| - 1];
      RefreshTargets(v, subs[..|subs| - 1]) + if last.url != "" then [RefreshTarget(v, last)] else []
  }

  function AddTarget(v: View, url: string, name: Option<string>, sendHwid: bool): Target {
    var s := NewSubscription(url, name, sendHwid);
    Target(s.id, EpochOf(v, s.id), url, AgentFor(v, s), sendHwid, Adding(name, Find(v.subs, s.id)))
  }

  /** `validate_subscription_fetch`. */
  predicate Accepts(v: View, t: Target) {
    var current := Find(v.subs, t.id);
    && EpochOf(v, t.id) == t.epoch
    && match t.baseline
       case Adding(_, existing) => current == existing && EffectiveUserAgent(v.userAgent) == t.userAgent
       case Refreshing(_, serverIds) =>
         && current.Some?
         && current.value.url == t.url && current.value.sendHwid == t.sendHwid
             && AgentFor(v, current.value) == t.userAgent
         && forall k :: 0 <= k < |serverIds| ==> HasServer(current.value, serverIds[k])
  }

  predicate HasServer(s: Subscription, id: string) {
    exists j :: 0 <= j < |s.servers| && s.servers[j].id == id
  }

  /** How a refresh merges fetched servers with stored ones: `preserve_server_identity`,
      of which nothing here depends. */
  type Merge = (seq<Server>, seq<Server>) -> seq<Server>

  function ApplyFetch(merge: Merge, s: Subscription, f: Fetched, at: int): Subscription {
    s.(servers := merge(s.servers, f.servers), updatedAt := Some(at),
       name := if f.title.Some? then f.title.value else s.name)
  }

  /** One target of `apply_subscription_update`. */
  function Commit(merge: Merge, v: View, t: Target, fetched: Option<Fetched>, at: int): View {
    if fetched.None? || !Accepts(v, t) then v
    else
      var position := Position(v.subs, t.id);
      match t.baseline
      case Adding(name, _) =>
        var s := ApplyFetch(merge, NewSubscription(t.url, name, t.sendHwid), fetched.value, at);
        v.(subs := if position.Some? then v.subs[position.value := s] else v.subs + [s])
      case Refreshing(name, _) =>
        var s := v.subs[position.value];
        var f := if s.name != name then fetched.value.(title := None) else fetched.value;
        v.(subs := v.subs[position.value := ApplyFetch(merge, s, f, at)])
  }

  function CommitAll(merge: Merge, v: View, results: seq<(Target, Option<Fetched>)>, at: int): View {
    if results == [] then v
    else
      var last := results[|results| - 1];
      Commit(merge, CommitAll(merge, v, results[..|results| - 1], at), last.0, last.1, at)
  }

  lemma CommitAllStep(merge: Merge, v: View, results: seq<(Target, Option<Fetched>)>, at: int, k: nat)
    requires k < |results|
    ensures CommitAll(merge, v, results[..k + 1], at) ==
            Commit(merge, CommitAll(merge, v, results[..k], at), results[k].0, results[k].1, at)
  {
    assert results[..k + 1][..k] == results[..k];
  }

  /** Whether a batch's k-th target is committed when its turn comes. */
  ghost predicate Committed(merge: Merge, v: View, results: seq<(Target, Option<Fetched>)>, at: int, k: nat)
    requires k < |results|
  {
    results[k].1.Some? && Accepts(CommitAll(merge, v, results[..k], at), results[k].0)
  }

  function Without(subs: seq<Subscription>, id: string): (rest: seq<Subscription>)
    ensures forall i :: 0 <= i < |rest| ==> rest[i].id != id
  {
    if subs == [] then []
    else Without(subs[..|subs| - 1], id) + if subs[|subs| - 1].id == id then [] else [subs[|subs| - 1]]
  }

  /** `remove_subscription`: the epoch is a tombstone, whether or not it was there. */
  function Remove(v: View, id: string): View {
    v.(subs := Without(v.subs, id), epochs := v.epochs[id := EpochOf(v, id) + 1])
  }

  /** What else can happen while a fetch runs: edits of any kind leave the epochs alone. */
  datatype Event =
    | Removal(id: string)
    | Edit(subs: seq<Subscription>, userAgent: string)
    | Update(results: seq<(Target, Option<Fetched>)>, at: int)

  function Happen(merge: Merge, v: View, e: Event): View {
    match e
    case Removal(id) => Remove(v, id)
    case Edit(subs, userAgent) => v.(subs := subs, userAgent := userAgent)
    case Update(results, at) => CommitAll(merge, v, results, at)
  }

  function HappenAll(merge: Merge, v: View, events: seq<Event>): View
    decreases |events|
  {
    if events == [] then v else HappenAll(merge, Happen(merge, v, events[0]), events[1..])
  }

  lemma {:induction false} CommitKeepsEpochs(merge: Merge, v: View, results: seq<(Target, Option<Fetched>)>, at: int)
    ensures CommitAll(merge, v, results, at).epochs == v.epochs
    ensures CommitAll(merge, v, results, at).userAgent == v.userAgent
  {
    if results != [] {
      CommitKeepsEpochs(merge, v, results[..|results| - 1], at);
    }
  }

  lemma {:induction false} EpochsOnlyGrow(merge: Merge, v: View, events: seq<Event>, id: string)
    ensures EpochOf(HappenAll(merge, v, events), id) >= EpochOf(v, id)
    ensures Removal(id) in events ==> EpochOf(HappenAll(merge, v, events), id) > EpochOf(v, id)
    decreases |events|
  {
    if events != [] {
      if events[0].Update? {
        CommitKeepsEpochs(merge, v, events[0].results, events[0].at);
      }
      EpochsOnlyGrow(merge, Happen(merge, v, events[0]), events[1..], id);
      assert events == [events[0]] + events[1..];
    }
  }

  /** What was just prepared would be accepted at once. */
  lemma PreparedIsAccepted(v: View, s: Subscription, url: string, name: Option<string>, sendHwid: bool)
    ensures Find(v.subs, s.id) == Some(s) ==> Accepts(v, RefreshTarget(v, s))
    ensures Accepts(v, AddTarget(v, url, name, sendHwid))
  {
  }

  /** An update prepared before its subscription is removed commits nothing, whatever
      happens in between: removals, identical re-adds, edits, other updates. */
  lemma RemovedUpdateIsDead(merge: Merge, v: View, events: seq<Event>, t: Target, fetched: Option<Fetched>, at: int)
    requires t.epoch == EpochOf(v, t.id) && Removal(t.id) in events
    ensures var now := HappenAll(merge, v, events); !Accepts(now, t) && Commit(merge, now, t, fetched, at) == now
  {
    EpochsOnlyGrow(merge, v, events, t.id);
  }

  /** An accepted refresh was fetched with what its subscription still asks for, no
      server it started from has gone, and it changes that subscription alone. */
  lemma AcceptedRefreshIsCurrent(merge: Merge, v: View, t: Target, fetched: Option<Fetched>, at: int)
    requires t.baseline.Refreshing? && Commit(merge, v, t, fetched, at) != v
    ensures var s, now := Find(v.subs, t.id), Commit(merge, v, t, fetched, at);
            && s.Some? && fetched.Some?
            && s.value.url == t.url && s.value.sendHwid == t.sendHwid && AgentFor(v, s.value) == t.userAgent
            && (forall k :: 0 <= k < |t.baseline.serverIds| ==> HasServer(s.value, t.baseline.serverIds[k]))
            && |now.subs| == |v.subs|
            && (forall i :: 0 <= i < |v.subs| && Some(i) != Position(v.subs, t.id) ==> now.subs[i] == v.subs[i])
            && var u := now.subs[Position(v.subs, t.id).value];
               && u == s.value.(servers := u.servers, name := u.name, updatedAt := u.updatedAt)
               && u.servers == merge(s.value.servers, fetched.value.servers)
               && (s.value.name != t.baseline.name ==> u.name == s.value.name)
  {
  }

  /** A commit to one id leaves every other id alone. */
  lemma CommitTouchesOne(merge: Merge, v: View, t: Target, fetched: Option<Fetched>, at: int, id: string)
    requires id != t.id || fetched.None? || !Accepts(v, t)
    requires t.baseline.Adding? ==> t.id == StableId(t.url)
    ensures Find(Commit(merge, v, t, fetched, at).subs, id) == Find(v.subs, id)
  {
    hide StableId;
    var now := Commit(merge, v, t, fetched, at);
    if now != v {
      var at1, at2 := Position(v.subs, id), Position(now.subs, id);
      var changed := Position(v.subs, t.id);
      forall i | 0 <= i < |v.subs|
        ensures now.subs[i].id == v.subs[i].id
        ensures v.subs[i].id == id ==> now.subs[i] == v.subs[i]
      {
      }
    }
  }

  /** Whether every target of a batch that is for `id` fails when its turn comes. */
  ghost predicate AllFail(merge: Merge, v: View, results: seq<(Target, Option<Fetched>)>, at: int, id: string) {
    forall k :: 0 <= k < |results| && results[k].0.id == id ==> !Committed(merge, v, results, at, k)
  }

  /** A batch leaves the subscriptions whose targets failed as they were. */
  lemma {:induction false} BatchLeavesFailed(merge: Merge, v: View, results: seq<(Target, Option<Fetched>)>, at: int,
      id: string)
    requires AllFail(merge, v, results, at, id)
    requires forall k :: 0 <= k < |results| && results[k].0.baseline.Adding? ==>
        results[k].0.id == StableId(results[k].0.url)
    ensures Find(CommitAll(merge, v, results, at).subs, id) == Find(v.subs, id)
  {
    if results != [] {
      var n := |results| - 1;
      var init := results[..n];
      forall k | 0 <= k < n && init[k].0.id == id
        ensures !Committed(merge, v, init, at, k)
      {
        assert init[..k] == results[..k] && init[k] == results[k];
        assert !Committed(merge, v, results, at, k);
      }
      BatchLeavesFailed(merge, v, init, at, id);
      CommitTouchesOne(merge, CommitAll(merge, v, init, at), results[n].0, results[n].1, at, id);
    }
  }

  // ---------------------------------------------------------- the registry

  class Registry {
    var subscriptions: seq<Subscription>
    var epochs: map<string, nat>
    var userAgent: string
    const merge: Merge

    constructor (subscriptions: seq<Subscription>, userAgent: string, merge: Merge)
      ensures this.subscriptions == subscriptions && epochs == map[] && this.userAgent == userAgent
          && this.merge == merge
    {
      this.subscriptions, this.userAgent, this.merge := subscriptions, userAgent, merge;
      epochs := map[];
    }

    function Now(): View
      reads this
    {
      View(subscriptions, epochs, userAgent)
    }

    /** `alias::assign` on all subscriptions. */
    method AssignAliases()
      modifies this`subscriptions
      ensures AliasesOnly(old(subscriptions), subscriptions)
      ensures Alias.Assigned(AllNamed(Flat(old(subscriptions))), AllNamed(Flat(subscriptions)))
    {
      var flat := Flat(subscriptions);
      var named := AllNamed(flat);
      var servers := new Alias.Server[|named|](i requires 0 <= i < |named| => named[i]);
      assert servers[..] == named;
      Alias.Assign(servers);
      RelabelIsFlat(subscriptions, servers[..]);
      RelabelKeepsRest(subscriptions, servers[..]);
      ghost var labels := servers[..];
      subscriptions := Relabel(subscriptions, servers[..]);
      assert AllNamed(Flat(subscriptions)) == labels by {
        forall i | 0 <= i < |labels|
          ensures AllNamed(Flat(subscriptions))[i] == labels[i]
        {
          assert Alias.Settled(named, labels, i);
        }
      }
    }

    /** The servers of one subscription, renamed, a later one dropped when its new id
        already belongs to a server that used to be called something else. */
    method MigrateServers(subscription: string, servers: seq<Server>,
                          renamed0: map<string, string>, seen0: map<string, string>,
                          ghost pairs0: set<(string, string)>, ghost ids0: set<string>)
      returns (kept: seq<Server>, renamed: map<string, string>, seen: map<string, string>, changed: bool,
               ghost pairs: set<(string, string)>)
      requires Tracks(pairs0, renamed0, seen0, ids0)
      ensures Tracks(pairs, renamed, seen, ids0 + Ids(kept)) && pairs0 <= pairs
      ensures forall j :: 0 <= j < |servers| ==> (servers[j].id, NewId(subscription, servers[j])) in pairs
      ensures IdsMigrated(subscription, kept)
      ensures FirstOwn(subscription, servers, seen0, seen) && kept == Survivors(seen, subscription, servers)
      ensures !changed ==> kept == servers && renamed == renamed0
      ensures IdsMigrated(subscription, servers) && SelfSeen(seen0) ==> !changed && SelfSeen(seen)
    {
      hide StableId, NewId, Tracks, FirstOwn, Survivors;
      kept, renamed, seen, changed, pairs := [], renamed0, seen0, false, pairs0;
      assert ids0 + Ids(kept) == ids0;
      NothingOwned(subscription, servers, seen);
      for k := 0 to |servers|
        invariant Tracks(pairs, renamed, seen, ids0 + Ids(kept)) && pairs0 <= pairs
        invariant forall j :: 0 <= j < k ==> (servers[j].id, NewId(subscription, servers[j])) in pairs
        invariant IdsMigrated(subscription, kept)
        invariant FirstOwn(subscription, servers[..k], seen0, seen)
            && kept == Survivors(seen, subscription, servers[..k])
        invariant !changed ==> kept == servers[..k] && renamed == renamed0
        invariant IdsMigrated(subscription, servers) && SelfSeen(seen0) ==> !changed && SelfSeen(seen)
      {
        var server := servers[k];
        var oldId, newId := server.id, NewId(subscription, server);
        NewIdIsStable(subscription, server);
        TracksGrow(pairs, renamed, seen, ids0 + Ids(kept), oldId, newId);
        pairs := pairs + {(oldId, newId)};
        ghost var before := seen;
        if oldId != newId {
          renamed := if oldId !in renamed then renamed[oldId := newId] else renamed;
          server := server.(id := newId);
          changed := true;
        }
        if newId in seen && seen[newId] != oldId {
          changed := true;
          assert ids0 + Ids(kept) + {newId} == ids0 + Ids(kept);
        } else {
          seen := if newId in seen then seen else seen[newId := oldId];
          IdsGrow(kept, server);
          assert ids0 + Ids(kept) + {newId} == ids0 + Ids(kept + [server]);
          kept := kept + [server];
        }
        FirstOwnNext(subscription, servers, k, seen0, before, seen);
        SurvivorsAgree(subscription, servers[..k], before, seen);
        SurvivorsNext(seen, subscription, servers, k);
      }
      assert servers[..|servers|] == servers;
    }

    /** The loop of `migrate_identities` over the subscriptions. */
    method MigrateAll() returns (done: seq<Subscription>, renamed: map<string, string>, changed: bool,
                                 ghost seen: map<string, string>, ghost pairs: set<(string, string)>)
      ensures |done| == |subscriptions| && Migrated(done) && MigrationOf(subscriptions, done, seen)
      ensures Tracks(pairs, renamed, seen, Ids(Flat(done)))
      ensures forall id :: id in Ids(Flat(subscriptions)) ==> exists p :: p in pairs && p.0 == id
      ensures !changed ==> done == subscriptions && renamed == map[]
      ensures Migrated(subscriptions) ==> !changed
    {
      hide StableId, NewId, Tracks, Ids, Flat, FirstOwn, Survivors, MigrationOf;
      NothingTracked();
      var known: map<string, string> := map[];
      done, renamed, changed, pairs := [], map[], false, {};
      for k := 0 to |subscriptions|
        invariant |done| == k && Migrated(done) && MigrationOf(subscriptions[..k], done, known)
        invariant Tracks(pairs, renamed, known, Ids(Flat(done)))
        invariant forall id :: id in Ids(Flat(subscriptions[..k])) ==> exists p :: p in pairs && p.0 == id
        invariant !changed ==> done == subscriptions[..k] && renamed == map[]
        invariant Migrated(subscriptions) ==> !changed && SelfSeen(known)
      {
        var s := subscriptions[k];
        var id := NewSubscriptionId(s);
        ghost var earlier, before, owners := pairs, subscriptions[..k], known;
        var kept, moved;
        assert Migrated(subscriptions) ==> id == s.id && IdsMigrated(id, s.servers);
        kept, renamed, known, moved, pairs := MigrateServers(id, s.servers, renamed, known, pairs, Ids(Flat(done)));
        var t := s.(id := id, servers := kept);
        MigrationGrows(before, done, owners, s, known);
        FlatGrows(done, t);
        MigratedGrows(done, t);
        CoveredGrows(before, s, id, earlier, pairs);
        assert subscriptions[..k + 1] == before + [s];
        changed := changed || moved || id != s.id;
        done := done + [t];
      }
      assert subscriptions[..|subscriptions|] == subscriptions;
      seen := known;
    }

    /** `migrate_identities`: identities become what the content gives, however often
        it is run, and no session loses a server that is still there. */
    method MigrateIdentities(state: SavedState)
      modifies this`subscriptions, state
      ensures Migrated(subscriptions)
      ensures exists done, owners :: MigrationOf(old(subscriptions), done, owners) && AliasesOnly(done, subscriptions)
      ensures |state.sessions| == |old(state.sessions)|
      ensures forall i :: 0 <= i < |state.sessions| ==>
                StillNamed(old(state.sessions)[i], state.sessions[i], Ids(Flat(old(subscriptions))),
                    Ids(Flat(subscriptions)))
      ensures old(Migrated(subscriptions)) ==>
                AliasesOnly(old(subscriptions), subscriptions) && state.sessions == old(state.sessions)
      ensures old(Migrated(subscriptions) && Labelled(Flat(subscriptions))) ==> subscriptions == old(subscriptions)
      ensures Labelled(Flat(subscriptions))
    {
      hide StableId, NewId, Migrated, MigrationOf, Tracks, AliasesOnly, Flat, Ids, StillNamed;
      ghost var before := subscriptions;
      var done, renamed, changed;
      ghost var seen, pairs;
      done, renamed, changed, seen, pairs := MigrateAll();
      subscriptions := done;
      ghost var was, ids := Ids(Flat(before)), Ids(Flat(done));
      forall i | 0 <= i < |state.sessions|
        ensures StillNamed(state.sessions[i], RemapSession(renamed, state.sessions[i]), was, ids)
      {
        TrackedIsNamed(pairs, renamed, seen, ids, was, state.sessions[i]);
      }
      NothingRemapped(state.sessions);
      NothingRelabelled(done);
      if changed || !Labelled(Flat(subscriptions)) {
        RemapSessions(state, renamed);
        AssignAliases();
        MigratedIgnoresAliases(done, subscriptions);
        IdsIgnoreAliases(done, subscriptions);
        SameIds(Flat(subscriptions), Flat(done));
        AssignedIsLabelled(Flat(done), Flat(subscriptions));
      }
    }

    method RemapSessions(state: SavedState, renamed: map<string, string>)
      modifies state
      ensures |state.sessions| == |old(state.sessions)|
      ensures forall i :: 0 <= i < |state.sessions| ==>
          state.sessions[i] == RemapSession(renamed, old(state.sessions)[i])
      ensures renamed == map[] ==> state.sessions == old(state.sessions)
    {
      ghost var was := state.sessions;
      for i := 0 to |state.sessions|
        invariant |state.sessions| == |was|
        invariant forall j :: 0 <= j < i ==> state.sessions[j] == RemapSession(renamed, was[j])
        invariant forall j :: i <= j < |was| ==> state.sessions[j] == was[j]
      {
        state.sessions := state.sessions[i := RemapSession(renamed, state.sessions[i])];
      }
      NothingRemapped(was);
    }

    /** `prepare_subscription_update`. */
    method Prepare(op: Operation) returns (r: Result<seq<Target>>)
      ensures r.Err? <==> op.Refresh? && Find(subscriptions, op.id).None?
      ensures r.Ok? && op.Add? ==> r.value == [AddTarget(Now(), op.url, op.name, op.sendHwid)]
      ensures r.Ok? && op.Refresh? ==> r.value == [RefreshTarget(Now(), Find(subscriptions, op.id).value)]
      ensures r.Ok? && op.RefreshAll? ==> r.value == RefreshTargets(Now(), subscriptions)
    {
      match op {
        case Add(url, name, sendHwid) =>
          r := Ok([AddTarget(Now(), url, name, sendHwid)]);
        case Refresh(id) =>
          var found := Find(subscriptions, id);
          if found.None? {
            return Err;
          }
          r := Ok([RefreshTarget(Now(), found.value)]);
        case RefreshAll =>
          var targets: seq<Target> := [];
          for i := 0 to |subscriptions|
            invariant targets == RefreshTargets(Now(), subscriptions[..i])
          {
            assert subscriptions[..i + 1][..i] == subscriptions[..i];
            if subscriptions[i].url != "" {
              targets := targets + [RefreshTarget(Now(), subscriptions[i])];
            }
          }
          assert subscriptions[..|subscriptions|] == subscriptions;
          r := Ok(targets);
      }
    }

    /** One target of `apply_subscription_update`. */
    method CommitTarget(target: Target, fetched: Option<Fetched>, at: int) returns (ok: bool)
      modifies this`subscriptions
      ensures Now() == Commit(merge, old(Now()), target, fetched, at)
      ensures ok <==> fetched.Some? && Accepts(old(Now()), target)
    {
      ok := fetched.Some? && Accepts(Now(), target);
      if !ok {
        return;
      }
      var position := Position(subscriptions, target.id);
      match target.baseline {
        case Adding(name, _) =>
          var s := ApplyFetch(merge, NewSubscription(target.url, name, target.sendHwid), fetched.value, at);
          subscriptions := if position.Some? then subscriptions[position.value := s] else subscriptions + [s];
        case Refreshing(name, _) =>
          var s := subscriptions[position.value];
          var response := if s.name != name then fetched.value.(title := None) else fetched.value;
          subscriptions := subscriptions[position.value := ApplyFetch(merge, s, response, at)];
      }
    }

    /** The commits of a batch, one after another. */
    method CommitEach(results: seq<(Target, Option<Fetched>)>, at: int) returns (outcomes: seq<bool>)
      modifies this`subscriptions
      ensures Now() == CommitAll(merge, old(Now()), results, at)
      ensures |outcomes| == |results|
      ensures forall k :: 0 <= k < |results| ==> (outcomes[k] <==> Committed(merge, old(Now()), results, at, k))
    {
      hide Commit, Accepts;
      outcomes := [];
      ghost var before := Now();
      for k := 0 to |results|
        invariant Now() == CommitAll(merge, before, results[..k], at) && |outcomes| == k
        invariant forall j :: 0 <= j < k ==> (outcomes[j] <==> Committed(merge, before, results, at, j))
      {
        ghost var current := Now();
        var ok := CommitTarget(results[k].0, results[k].1, at);
        CommitAllStep(merge, before, results, at, k);
        assert ok <==> Committed(merge, before, results, at, k);
        outcomes := outcomes + [ok];
      }
      assert results[..|results|] == results;
    }

    /** `apply_subscription_update`: the commits, then the aliases and the store if
        anything changed. A store that cannot be saved fails the update, not its effect. */
    method ApplyUpdate(results: seq<(Target, Option<Fetched>)>, refreshAll: bool, at: int)
        returns (ok: bool, stored: bool)
      modifies this`subscriptions
      ensures AliasesOnly(CommitAll(merge, old(Now()), results, at).subs, subscriptions)
      ensures ok <==> stored && forall k :: 0 <= k < |results| ==> Committed(merge, old(Now()), results, at, k)
      ensures !stored ==> refreshAll || exists k :: 0 <= k < |results| && Committed(merge, old(Now()), results, at, k)
    {
      var outcomes := CommitEach(results, at);
      stored := true;
      if true in outcomes || refreshAll {
        AssignAliases();
        stored := *;
      }
      ok := stored && false !in outcomes;
    }

    /** `remove_subscription`. */
    method RemoveSubscription(id: string) returns (stored: bool)
      modifies this`subscriptions, this`epochs
      ensures Now() == Remove(old(Now()), id)
    {
      epochs := epochs[id := EpochOf(Now(), id) + 1];
      var kept: seq<Subscription> := [];
      for i := 0 to |subscriptions|
        invariant kept == Without(subscriptions[..i], id)
      {
        assert subscriptions[..i + 1][..i] == subscriptions[..i];
        if subscriptions[i].id != id {
          kept := kept + [subscriptions[i]];
        }
      }
      assert subscriptions[..|subscriptions|] == subscriptions;
      subscriptions := kept;
      stored := *;  // the removal stands even if the store cannot be saved
    }
  }
}
