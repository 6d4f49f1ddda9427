# Oxidom in Dafny

Oxidom is a daemon that owns Xray cores, TUN routing and a private store on disk.
This project models its safety-critical protocols and proves what each promises over
whole runs, with every system call free to fail.

| module | what it models |
|---|---|
| `OwnedTun`, `OwnedActivation` | the exclusive TUN transaction: complete intents become durable before the kernel is changed, installation in a fixed order, cleanup and recovery from the record alone |
| `Engine` | sessions, interfaces, the traffic hold, and the admission of exclusive interfaces |
| `Registry` | identity migration, and subscription updates that are fetched without the lock |
| `Failover` | one failover activation: ring search, budget, cooldown, disarm |
| `Envelope`, `Plan` | the routing authorization of a failover and the routes planned from it |
| `Journal` | the rotating diagnostic journal |
| `Draft` | the JSON diff of two server drafts and the dotted patch |
| `Alias` | human handles for servers |
| `AtomicWrite` | replace-on-write by any number of interleaved writers |
| `Bind` | allocation of loopback addresses, device addresses and routing marks |
| `Discovery` | which daemon a client may talk to |
| `Identity` | the frozen hash behind ids and allocations |
| `Wrappers`, `Arithmetic` | results, and facts about `%` |

Where the program changes fields, files or the kernel in place, a class does the same
and its methods are proved against specification functions or relations; the theorems
about runs are lemmas about those, or methods that run arbitrary event sequences.
Faults are nondeterministic choices. In `OwnedTun` they come from a finite budget, so
that recovery can be shown to succeed once nothing fails any more, and every system
call is in a history together with the moves of the rest of the system, which are fixed
beforehand: what the history does not lay on them the daemon has done.

Three places where the code and its intent part:

* `draft.rs`: `diff` spells positions with dots, so a change under a key that itself
  contains a dot (a raw outbound patch may have one) is lost by `apply_overrides`.
  `Draft.PatchRestoresIffPlain` gives the exact condition and `Draft.DottedKeyExample`
  an input.
* `draft.rs`: a key dropped from a raw outbound patch comes back as null, which deletes
  the generated key there. `Draft.PatchIsExactIffNothingDropped` says exactly when
  nothing comes back changed, `Draft.DroppedKeyExample` gives an input.
* `bind.rs`: 198.18.0.1 is both the fixed device address of `default` and a slot other
  profiles can be given. `Bind.DeviceAddressCollision` gives the exact condition.

## Model

| member | source | states |
|---|---|---|
| `OwnedTun.Machine.Persist` | crates/oxidom-core/src/state.rs:524-569 | A state-file save: an invalid record is refused, anything else is atomic, and an error may still have replaced the file. Whatever happens the kernel stays recoverable from what is then on disk. |
| `OwnedTun.Machine.RouteAdd` | crates/oxidom-core/src/tun/net.rs:151-155 | An exclusive add, asked only for a route that is already in the durable record: it never adopts an existing route, and a failure may or may not have installed it. |
| `OwnedTun.Machine.RuleAdd` | crates/oxidom-core/src/tun/net.rs:166-171 | The same for the policy rule. |
| `OwnedTun.Machine.RouteDel` | crates/oxidom-core/src/tun/net.rs:157-164 | Deletion by exact selector: an absent route is success, and nothing but that route goes. |
| `OwnedTun.Machine.RuleDel` | crates/oxidom-core/src/tun/net.rs:173-179 | The same for the policy rule. |
| `OwnedTun.Machine.MakePersistent` | crates/oxidom-core/src/tun/device.rs:39-45 | The device becomes persistent only once its identity is durable; routes and rules are untouched. |
| `OwnedTun.Machine.OwnedLink` | crates/oxidom-core/src/tun/net.rs:110-141 | A link with the recorded name or index is accepted only with all three of name, index and identity; it reports absence only when no recorded link is left, and refuses only for an invalid record, a fault or a link of somebody else. |
| `OwnedTun.Machine.LinkDel` | crates/oxidom-core/src/tun/net.rs:143-149 | Deleting the recorded link takes nothing of others but routes that led through it. |
| `OwnedTun.Machine.RemoveRoutes` | crates/oxidom-core/src/engine.rs:3550-3552 | The only calls of the cleanup loop are deletions of recorded routes, and success leaves none of ours in the kernel, while the rest of the system moves between any two of them. |
| `OwnedTun.Machine.RemoveDevice` | crates/oxidom-core/src/engine.rs:3556-3560 | The device is identified again, deleting it is the only call, and success leaves no link of ours. |
| `OwnedTun.Machine.CleanupOwned` | crates/oxidom-core/src/engine.rs:3540-3562 | All of ours and nothing else: the only calls are deletions of what the record names, what belongs to others is what they made of it but for routes through the deleted device, success leaves nothing of ours, and every failure is an injected fault, an invalid record or a displaced device. |
| `OwnedTun.Machine.Recover` | crates/oxidom-core/src/engine.rs:1293-1327 | Owned recovery marks the record, cleans up from it and drops it only after success; a failed recovery keeps the same intents recorded; the objects of others stay what they made of them. |
| `OwnedTun.Machine.RecoverEventually` | crates/oxidom-core/src/engine.rs:1234-1374 | Daemon starts repeated over any finite number of faults end with a kernel that holds exactly what the rest of the system made of its own, unless somebody else has taken the name or index of the device. |
| `OwnedTun.CoveredIsUnforged` | crates/oxidom-core/src/engine.rs:3540-3562 | A record that stays inside an unused cookie, metric, table and rule can never name an object of somebody else. |
| `OwnedTun.DeleteIsConfined` | crates/oxidom-core/src/engine.rs:3548-3558 | Deleting what the record names takes nothing from others but routes through a deleted link. |
| `OwnedTun.SafeAt` | crates/oxidom-core/src/engine.rs:3222-3256 | At every moment of the history of a machine the state could be recovered from its own record, and what the next call of the daemon adds or deletes is named by the record durable at that moment. |
| `OwnedTun.ForeignIsTheirs` | crates/oxidom-core/src/engine.rs:3548-3562 | Over any such history the objects of others are what their own moves made of them, routes through deleted devices apart. |
| `OwnedActivation.OwnedInterface.PlanOwned` | crates/oxidom-core/src/engine.rs:3181-3220 | The recorded routes are those of the plan in installation order, each with an explicit output interface; planning is refused exactly for a bypass without a recorded gateway interface or an invalid record, and touches no kernel. |
| `OwnedActivation.OrderedIsPermutation` | crates/oxidom-core/src/engine.rs:3187-3199 | Sorting captures last loses and doubles nothing: the intents are a permutation of the private and system routes of the plan. |
| `OwnedActivation.SelectPartitions` | crates/oxidom-core/src/engine.rs:3310-3331 | The three filters of the apply pass split the intents: every intent matches exactly one. |
| `OwnedActivation.ScheduleIsPlan` | crates/oxidom-core/src/engine.rs:3303-3333 | The whole schedule installs the rule and every route of the plan, each exactly once. |
| `OwnedActivation.BypassesComeFirst` | crates/oxidom-core/src/engine.rs:3271-3333 | Wherever the schedule stops, before any private route, rule or capture that was installed or failed to be, every gateway bypass has succeeded. |
| `OwnedActivation.PlannedIsCovered` | crates/oxidom-core/src/engine.rs:3181-3220 | Everything a finished plan intends lies inside the claim of its activation. |
| `OwnedActivation.AvailableIsUnclaimed` | crates/oxidom-core/src/tun/net.rs:254-358 | A kernel the availability check accepts holds nothing under the selectors of the plan. |
| `OwnedActivation.OwnedInterface.ApplyKind` | crates/oxidom-core/src/engine.rs:3310-3331 | One filtered pass: the kernel took a prefix of the intents of its kind, in recorded order, and at most the next one failed; nothing is asked for after a failure, and success means all of them were taken. |
| `OwnedActivation.OwnedInterface.ApplyRule` | crates/oxidom-core/src/engine.rs:3281-3284 | The rule is asked for at most once, and success means the kernel took it. |
| `OwnedActivation.OwnedInterface.ApplyOwnedRoutes` | crates/oxidom-core/src/engine.rs:3303-3333 | What the kernel took is a prefix of the schedule, followed by at most one refusal, and all of the schedule on success; a missing rule intent or an invalid record fails. |
| `OwnedActivation.OwnedInterface.CommitDevice` | crates/oxidom-core/src/engine.rs:3251-3256 | Nothing of ours enters the kernel before the complete intent is durable; a failure leaves the interface ready to be started again. |
| `OwnedActivation.OwnedInterface.InstallRoutes` | crates/oxidom-core/src/engine.rs:3264-3299 | After the second save the kernel takes a prefix of the schedule, and all of it on success. |
| `OwnedActivation.OwnedInterface.StartOwned` | crates/oxidom-core/src/engine.rs:3233-3301 | First start or retry, with whatever an earlier attempt left recorded: success means every route of the plan and the rule were taken, each exactly once; a failure before the device persists leaves the interface ready to be started again. |
| `OwnedActivation.OwnedInterface.RollBack` | crates/oxidom-core/src/engine.rs:2471-2481 | A roll-back marks the record and removes everything in it; a clean one leaves nothing in the kernel. |
| `OwnedActivation.OwnedInterface.StartInterface` | crates/oxidom-core/src/engine.rs:2456-2502 | Every intermediate kernel state, failing anywhere, is recoverable from the record durable at that moment; an interface that is up is installed completely, even when only the last save failed; a roll-back leaves nothing of ours. |
| `OwnedActivation.OwnedInterface.StartRepeatedly` | crates/oxidom-core/src/engine.rs:2413-2502 | The same over any number of attempts, given up early only with the interface up or marked: up means that the last start installed everything planned, neither means ready to start again. |
| `OwnedActivation.CrashAnywhere` | crates/oxidom-core/src/engine.rs:3181-3333 | A crash at any system call of any number of starts, then any finite number of failing recoveries: all of ours is removed and nothing else, unless the device name or index went to somebody else. |
| `Failover.Validate` | crates/oxidom-core/src/failover.rs:285-308 | Accepts exactly the policies within both limits that, when enabled, name 2 to 64 distinct members none of which is blank. |
| `Failover.SavedPolicy.Apply` | crates/oxidom-core/src/failover.rs:260-280 | A patch changes only the fields it names, of the saved policy or else the default one; a refused or empty patch changes nothing, and what is saved is valid. |
| `Failover.SearchFindsSuccessor` | crates/oxidom-core/src/failover.rs:437-440 | The first unreachable `expect`: in an episode the ring search yields the very next member, and none only when all have been visited. |
| `Failover.AdmitKeepsArc` | crates/oxidom-core/src/failover.rs:447-463 | The second unreachable `expect`: an admitted id is a member, and the visited members stay one arc ending at it. |
| `Failover.LifeIsReachable` | crates/oxidom-core/src/failover.rs:351-497 | The inductive invariant of every run of calls: arc of visited members, ring position, log, cooldown, budget and in-flight count. |
| `Failover.RoundRobin` | crates/oxidom-core/src/failover.rs:379-463 | Across any number of episodes the j-th admitted start is the member j places after the primary, counting the explicit initial start as the 0th: no skip and no failback. |
| `Failover.EpisodeBudget` | crates/oxidom-core/src/failover.rs:401-463 | In an episode exactly `attempts + 1` members are visited, the current one included, so it admits at most the lesser of `max_attempts` and the other members. |
| `Failover.ExhaustedIsAbsorbing` | crates/oxidom-core/src/failover.rs:401-430 | Once exhausted, no sequence of calls admits anything; the answer stays `Exhausted` at every time, or `Disarmed` after a disarm. |
| `Failover.DisarmedIsFinal` | crates/oxidom-core/src/failover.rs:492-496 | After a disarm no sequence of calls admits a start or rearms. |
| `Failover.ProgressPredictsNext` | crates/oxidom-core/src/failover.rs:363-377 | `progress` names a candidate exactly when waiting suffices, and it is the one `next` yields from its deadline on. |
| `Failover.AdmissionSpacing` | crates/oxidom-core/src/failover.rs:444-463 | Admissions i <= j are at least (j - i) cooldowns apart even across confirmed recoveries, none precedes its backoff deadline, and at most one is unfinished. |
| `Failover.Activation.New` | crates/oxidom-core/src/failover.rs:379-399 | Succeeds exactly for a valid enabled policy that lists the initial id, and starts there with nothing spent. |
| `Failover.Activation.FindUnvisited` | crates/oxidom-core/src/failover.rs:437-440 | The loop over ring offsets finds what the recursive search finds. |
| `Failover.Activation.Next` | crates/oxidom-core/src/failover.rs:418-442 | Total on every valid activation, and equal to the decision function the run theorems are about. |
| `Failover.Activation.ReportProgress` | crates/oxidom-core/src/failover.rs:363-377 | Reports the attempts and the next candidate without changing anything. |
| `Failover.Activation.BeginEpisode` | crates/oxidom-core/src/failover.rs:403-413 | Refines the episode-opening transition and keeps the invariant; refused when disarmed, already in an episode, or for another member. |
| `Failover.Activation.AdmitStart` | crates/oxidom-core/src/failover.rs:447-463 | Refines the admission transition and keeps the invariant; the position lookup cannot fail. |
| `Failover.Activation.FailAttempt` | crates/oxidom-core/src/failover.rs:467-471 | Refines the failed-attempt transition; only the member in flight is accepted. |
| `Failover.Activation.Confirm` | crates/oxidom-core/src/failover.rs:475-482 | Refines the confirmed-recovery transition: budget and visits reset, cooldown and position kept. |
| `Failover.Activation.Revoke` | crates/oxidom-core/src/failover.rs:494-496 | Refines the disarm transition. |
| `Envelope.New` | crates/oxidom-core/src/failover.rs:25-91 | Accepts exactly a hold policy, a well-formed interface block, and 2 to 64 distinct candidates with dialable literal endpoints none of which is captured as a /32. |
| `Envelope.CollectAddresses` | crates/oxidom-core/src/failover.rs:206-214 | The loop collects the addresses of the specification function. |
| `Envelope.DistinctAddresses` | crates/oxidom-core/src/failover.rs:206-214 | That function lists every candidate address, each once, and nothing else. |
| `Envelope.AcceptedDialsPlanned` | crates/oxidom-core/src/failover.rs:177-188 | A server the envelope accepts dials one of the addresses the bypasses were planned from. |
| `Plan.BypassesCover` | crates/oxidom-core/src/tun/plan.rs:177-198 | Every candidate gets a main-table gateway bypass and none is captured exactly. |
| `Plan.FailoverPlanCovers` | crates/oxidom-core/src/tun/plan.rs:173-203 | In list and default mode the plan bypasses every candidate address; private routes live in the rule table and system routes in the main one. |
| `Engine.Engine.NoteCoreExit` | crates/oxidom-core/src/engine.rs:1790-1828 | A core that exits under a hold policy sets the hold and touches no route; otherwise the interface is stopped and nothing else of the session changes. |
| `Engine.Engine.ConfirmTraffic` | crates/oxidom-core/src/engine.rs:1830-1838 | Ends the pending confirmation and the hold, and nothing else. |
| `Engine.Engine.ConfirmationFailed` | crates/oxidom-core/src/engine.rs:1840-1883 | Holds exactly when the policy holds and the interface is up; an envelope that is not installed yet keeps its plan and claims no hold; else the session is stopped. |
| `Engine.Engine.StopOwned` | crates/oxidom-core/src/engine.rs:2511-2537 | After a confirmed cleanup an owned interface disappears with its record, even if forgetting a bound cgroup then fails; any earlier failure keeps it, marked for cleanup. |
| `Engine.Engine.StopLegacy` | crates/oxidom-core/src/engine.rs:3390-3465 | A plain interface keeps its plan and is down with its helper on success. |
| `Engine.Engine.StopInterface` | crates/oxidom-core/src/engine.rs:2504-2556 | Either of the two, refused while a failed recovery of the profile is unresolved; no other session or record changes, and success leaves nothing recorded. |
| `Engine.Engine.EnsureHelper` | crates/oxidom-core/src/engine.rs:1984-2020 | Restoring the helper changes nothing but the helper, whatever fails; success implies a ready session. |
| `Engine.Engine.StopSession` | crates/oxidom-core/src/engine.rs:2859-2876 | An explicit stop clears core, selection, pending confirmation and hold. |
| `Engine.Engine.StartCore` | crates/oxidom-core/src/engine.rs:830-885 | Under an envelope a core starts only for a currently valid candidate, with hold and without custom routing, while the cleanup mark is clear: exactly such a start is logged, or the core is left alone. |
| `Engine.Engine.CheckEnvelope` | crates/oxidom-core/src/engine.rs:2757-2776 | The envelope part of a reconnect changes at most the helper, and lets through only a member while all candidates are in the catalogue unchanged. |
| `Engine.Engine.ReleaseRoutes` | crates/oxidom-core/src/engine.rs:2780-2799 | Routes are taken down before a new core only when nothing holds them. |
| `Engine.Engine.ConnectSession` | crates/oxidom-core/src/engine.rs:2755-2809 | A reconnect, succeeding or failing at any point, leaves a held interface in place and never clears the hold. It logs nothing and leaves the core alone, or logs one start of the catalogued server asked for, under an envelope a valid candidate; success means that server runs. |
| `Engine.Engine.ConnectPool` | crates/oxidom-core/src/engine.rs:2811-2851 | The same for a pool, which an envelope refuses untouched. |
| `Engine.Engine.Install` | crates/oxidom-core/src/engine.rs:2442-2502 | Installing keeps plan and envelope. Success means up; an interface that is up was installed, even if the last save failed; otherwise it is down and possibly marked. |
| `Engine.Engine.StartInterface` | crates/oxidom-core/src/engine.rs:2411-2502 | An interface that is up at most gets its helper back, one that was down is up after success; under an envelope success needs hold, no custom routing and all candidates in the catalogue unchanged; no other session field changes. |
| `Engine.Engine.DeleteInterface` | crates/oxidom-core/src/engine.rs:2558-2592 | Success leaves no interface and nothing unresolved; so does an error from forgetting a bound cgroup; any earlier failure keeps the interface and never drops an unresolved record. |
| `Engine.Engine.RemoveSession` | crates/oxidom-core/src/engine.rs:2878-2896 | A session goes only after its interface stopped, its record with it; a failed save keeps the record, with nothing left to recover. |
| `Engine.Engine.PrepareSession` | crates/oxidom-core/src/engine.rs:1718-1751 | Creates a session or reuses one, but never over an envelope or an unresolved record. |
| `Engine.Engine.PlanFor` | crates/oxidom-core/src/engine.rs:2132-2187 | A plan made for an envelope bypasses every address of the envelope, or captures nothing in manual mode. |
| `Engine.Engine.ConfigureInterface` | crates/oxidom-core/src/engine.rs:1889-1897 | Never over an envelope, never beside one, and a new interface starts down. |
| `Engine.Engine.ConfigureFailover` | crates/oxidom-core/src/engine.rs:2022-2047 | Only where no session has an interface, with hold and without custom routing, for candidates all of which are in the catalogue unchanged. |
| `Engine.Engine.DisconnectIfActive` | crates/oxidom-core/src/engine.rs:2693-2749 | Every session using a lost server is stopped, or under an envelope keeps interface and hold with a broken core; all other sessions stay as they were. |
| `Engine.Engine.ReplaceCatalog` | crates/oxidom-core/src/engine.rs:2670-2691 | The same after a refresh replaced the catalogue. |
| `Engine.Engine.RemoveServers` | crates/oxidom-core/src/engine.rs:1643-1660 | The same before servers are removed. |
| `Engine.Engine.SyncSession` | crates/oxidom-core/src/engine.rs:2989-3006 | Syncing records exactly whether the session owns an interface, and never overwrites the record of a failed recovery. |
| `Engine.NewInterfaceIsOk` | crates/oxidom-core/src/engine.rs:1899-1949 | The admission guard is enough to keep exclusivity when an interface is added. |
| `Engine.RunUnderHold` | crates/oxidom-core/src/engine.rs:2780-2799 | In every run of events a hold in force survives reconnects, core exits, failed confirmations and interface starts of its profile, with any call on other profiles in between and, under an envelope, any catalogue change: up, same plan, still holding. |
| `Engine.RunIsSafe` | crates/oxidom-core/src/engine.rs:1899-1949 | In every state of every run: an enveloped interface is the only interface; every core ever started under an envelope was a valid candidate with hold and no custom routing, dials one of its addresses, and its plan bypasses them all; no start is forgotten, every running single-server core has one; unresolved records are still recorded. |
| `Engine.UnattendedKeepsHold` | crates/oxidom-core/src/engine.rs:1801-1883 | Each reconnect, exit, failed confirmation or start, whatever its outcome, keeps a hold in force. |
| `Engine.Handle` | crates/oxidom-core/src/engine.rs:1713-2896 | One event carried out is a step of the relation the run theorems are about. |
| `Engine.Serve` | crates/oxidom-core/src/engine.rs:1713-2896 | The engine serving any events, each with any outcome its faults allow, is such a run. |
| `Registry.MigrationGrows` | crates/oxidom-core/src/engine.rs:147-194 | One more subscription settles its own servers and disturbs no earlier decision. |
| `Registry.MigrationIsDeterministic` | crates/oxidom-core/src/engine.rs:137-194 | Which server owns a new id, and so the whole outcome, is determined by the catalogue: the first to claim it in traversal order. |
| `Registry.TrackedIsNamed` | crates/oxidom-core/src/engine.rs:203-215 | If renames lead to kept ids, every reference to a catalogued server still names one after remapping. |
| `Registry.Registry.MigrateServers` | crates/oxidom-core/src/engine.rs:159-193 | The inner loop keeps exactly the servers that own their new id, in order and changed in nothing but the id; whoever claims a new id first owns it, every renamed or dropped server leaves a kept one under its new id, and nothing changes when all ids were current. |
| `Registry.Registry.MigrateAll` | crates/oxidom-core/src/engine.rs:147-194 | The same over all subscriptions, collisions across subscriptions included. |
| `Registry.Registry.MigrateIdentities` | crates/oxidom-core/src/engine.rs:137-222 | Migration keeps, apart from ids and aliases, exactly the first holder of each new id; every id is the one its content gives; a second run changes no id and no session; every session server or pool member that was catalogued before still is; all servers end with an alias. |
| `Registry.Registry.RemapSessions` | crates/oxidom-core/src/engine.rs:203-215 | The in-place loop remaps server and members of every session and nothing else. |
| `Registry.Registry.AssignAliases` | crates/oxidom-core/src/alias.rs:59-89 | Assigning through the nested subscriptions is assigning over their flattening, and changes aliases only. |
| `Registry.RelabelIsFlat` | crates/oxidom-core/src/alias.rs:64-88 | Putting assigned labels back into the subscriptions and flattening gives the labels. |
| `Registry.Registry.Prepare` | crates/oxidom-core/src/engine.rs:1420-1500 | Prepares one target for an add or a refresh, and for a full refresh one snapshot per subscription with a URL, in order; fails only for an unknown id. |
| `Registry.PreparedIsAccepted` | crates/oxidom-core/src/engine.rs:1502-1556 | What was just prepared would be accepted at once: the validation refuses nothing without a change. |
| `Registry.Registry.CommitTarget` | crates/oxidom-core/src/engine.rs:1566-1600 | One in-place commit refines the commit function; it commits exactly when the fetch succeeded and the target is still valid. |
| `Registry.Registry.CommitEach` | crates/oxidom-core/src/engine.rs:1566-1604 | The loop over results refines the fold, each target judged against the state its predecessors left. |
| `Registry.Registry.ApplyUpdate` | crates/oxidom-core/src/engine.rs:1558-1620 | Apart from aliases a batch does exactly its accepted commits, whether or not the store can be saved afterwards, and succeeds exactly when all were accepted and the store was saved. |
| `Registry.Registry.RemoveSubscription` | crates/oxidom-core/src/engine.rs:348-356 | Removes every subscription with the id and bumps its epoch whether or not one existed. |
| `Registry.EpochsOnlyGrow` | crates/oxidom-core/src/engine.rs:348-356 | Over any events the epoch of an id never falls, and a removal makes it strictly larger. |
| `Registry.RemovedUpdateIsDead` | crates/oxidom-core/src/engine.rs:1504-1514 | An update prepared before its subscription is removed commits nothing, under any interleaving of removals, identical re-adds, edits and other updates. |
| `Registry.AcceptedRefreshIsCurrent` | crates/oxidom-core/src/engine.rs:1531-1599 | A refresh that changes anything finds the URL, HWID flag and effective User-Agent it fetched with, every baseline server still there, changes that subscription alone and keeps a name edited meanwhile. |
| `Registry.CommitTouchesOne` | crates/oxidom-core/src/engine.rs:1571-1597 | A commit to one id leaves what is found under every other id as it was. |
| `Registry.BatchLeavesFailed` | crates/oxidom-core/src/engine.rs:1564-1604 | A batch leaves every subscription all of whose targets failed as it was. |
| `Journal.ScanTail` | crates/oxidom-core/src/diagnostics.rs:573-588 | The backward scan by 4 KiB blocks ends for every length one past the last newline, or at zero: the naive whole-file scan. |
| `Journal.RepairIsIdempotent` | crates/oxidom-core/src/diagnostics.rs:565-594 | Repairing a repaired file changes nothing. |
| `Journal.LinesAreTheFile` | crates/oxidom-core/src/diagnostics.rs:361-373 | The retained records of a file are all its bytes but one unfinished tail, in order. |
| `Journal.OpenKeeps` | crates/oxidom-core/src/diagnostics.rs:375-414 | Opening, failing anywhere, keeps exactly the retained records and the backup. |
| `Journal.RoomKeeps` | crates/oxidom-core/src/diagnostics.rs:411-435 | Making room leaves a whole current file the record fits in and retains all records, but for those of the old backup when it rotates. |
| `Journal.AppendKeeps` | crates/oxidom-core/src/diagnostics.rs:361-461 | An append retains its record on success, and once or not at all on failure; of the others it loses none, but for those of the old backup when it rotates. |
| `Journal.EveryRunHolds` | crates/oxidom-core/src/diagnostics.rs:361-461 | In every run of opens and appends with any faults: both generations within 2 MiB, the backup whole, and the retained records a contiguous suffix of those offered, all of them until the first rotation. |
| `Journal.RotatedBackupIsFull` | crates/oxidom-core/src/diagnostics.rs:415-435 | Once there is a backup there always is one, and it always holds more than 2 MiB less 1 KiB and at most 2 MiB. |
| `Journal.Diagnostics.CreateCurrent` | crates/oxidom-core/src/diagnostics.rs:463-471 | A failed creation leaves either no file or an empty one. |
| `Journal.Diagnostics.RepairTail` | crates/oxidom-core/src/diagnostics.rs:565-594 | Truncates in place to the last whole record; a failure leaves the old or the repaired file. |
| `Journal.Diagnostics.WriteAll` | crates/oxidom-core/src/diagnostics.rs:437-454 | The short-write loop appends all bytes on success and some prefix of them otherwise. |
| `Journal.Diagnostics.Access` | crates/oxidom-core/src/diagnostics.rs:375-461 | One access under the lock, with rotation and best-effort roll-back, ends in a state the run theorem allows. |
| `Journal.Diagnostics.Append` | crates/oxidom-core/src/diagnostics.rs:360-373 | Anything but one bounded newline-terminated record is refused untouched. |
| `Journal.Diagnostics.Open` | crates/oxidom-core/src/diagnostics.rs:300-348 | Opening only repairs. |
| `Draft.SplitUndoesJoin` | crates/oxidom-core/src/draft.rs:361-420 | A position survives its dotted spelling exactly when no key on it has a dot. |
| `Draft.JoinUndoesSplit` | crates/oxidom-core/src/draft.rs:420-434 | Splitting a key and joining the rest again loses nothing, so recursing on the rejoined remainder is sound. |
| `Draft.Changes.DiffObjects` | crates/oxidom-core/src/draft.rs:352-378 | The recursive accumulation records every change below its prefix, and adds nothing else. |
| `Draft.Diff` | crates/oxidom-core/src/draft.rs:341-350 | The diff holds exactly the changed leaves, each under its dotted position, a removed field as null. |
| `Draft.DiffEmptyIffEqual` | crates/oxidom-core/src/draft.rs:336-350 | The diff is empty exactly when the two trees are equal. |
| `Draft.ChangesPrefixFree` | crates/oxidom-core/src/draft.rs:362-377 | No changed position lies below another. |
| `Draft.DiffKeysIndependent` | crates/oxidom-core/src/draft.rs:341-378 | With plain keys no diff key is a dotted prefix of another. |
| `Draft.ChangeReadsAfter` | crates/oxidom-core/src/draft.rs:381-388 | The diff records what the field reader finds in the new tree, and null where it finds nothing. |
| `Draft.FieldValue` | crates/oxidom-core/src/draft.rs:381-388 | The loop over key parts follows the position the key spells. |
| `Draft.SetDotted` | crates/oxidom-core/src/draft.rs:415-436 | Dotted writing is writing at the split position, making objects of whatever is in the way. |
| `Draft.SetFieldReadsBack` | crates/oxidom-core/src/draft.rs:381-436 | A written field reads back, and no field beside it changes. |
| `Draft.ApplyOverrides` | crates/oxidom-core/src/draft.rs:397-405 | The override loop applies every value exactly once, in some order. |
| `Draft.SetPathAppliesChange` | crates/oxidom-core/src/draft.rs:397-436 | Writing one more change commutes with all others: it adds that change whatever was applied before. |
| `Draft.PatchOfDiff` | crates/oxidom-core/src/draft.rs:336-436 | Diff and patch undo each other: for plain keys, patching the old tree in any order gives the new one, null for absent. |
| `Draft.PatchIsExactIffNothingDropped` | crates/oxidom-core/src/draft.rs:341-436 | Patching gives back exactly the new tree, null not standing for absent, if and only if no key of the old tree was dropped where both are objects. |
| `Draft.DroppedKeyExample` | crates/oxidom-core/src/draft.rs:341-436 | A concrete one: taking `x` out of the outbound patch of a draft leaves a null there. |
| `Draft.DottedChangeIsLost` | crates/oxidom-core/src/draft.rs:361-436 | A change under a dotted key is lost by patching, whatever the order. |
| `Draft.PatchRestoresIffPlain` | crates/oxidom-core/src/draft.rs:341-436 | The exact condition: unless a dotted change is only null against absent, patching restores the new tree if and only if every key on the way to a change is free of dots. |
| `Draft.PatchRestoresIffNoDots` | crates/oxidom-core/src/draft.rs:341-436 | The same with a condition on the two trees alone: no dotted key holds a null. |
| `Draft.DottedKeyExample` | crates/oxidom-core/src/draft.rs:361-436 | A concrete loss in a draft: a key `a.b` added to its outbound patch comes back as `b` inside `a`. |
| `Alias.Slugify` | crates/oxidom-core/src/alias.rs:8-38 | The single pass and its three fixes compute the slug, which is a valid alias for every name. |
| `Alias.SlugIsIdempotent` | crates/oxidom-core/src/alias.rs:8-38 | Slugs are fixed points. |
| `Alias.SuggestIsValid` | crates/oxidom-core/src/alias.rs:41-56 | A suggestion is a valid alias, with or without a country. |
| `Alias.CandidateIsValid` | crates/oxidom-core/src/alias.rs:110-117 | A numbered candidate is valid for every number a catalogue can need. |
| `Alias.CandidatesDiffer` | crates/oxidom-core/src/alias.rs:110-117 | Different numbers give different candidates, truncated stems included. |
| `Alias.RefusedAreFew` | crates/oxidom-core/src/alias.rs:110-121 | Pigeonhole: no more candidates can be refused than there are names in use. |
| `Alias.AvailableAlias` | crates/oxidom-core/src/alias.rs:106-123 | Returns the base if free, else its lowest free numbering, found within one more try than there are names. |
| `Alias.AvailableIsUnique` | crates/oxidom-core/src/alias.rs:106-123 | That answer is determined by the base and the names in use. |
| `Alias.ReserveAliases` | crates/oxidom-core/src/alias.rs:60-75 | The first pass keeps exactly the first holder of each valid alias and clears the rest, in place. |
| `Alias.Assign` | crates/oxidom-core/src/alias.rs:59-89 | Both passes together settle every server: kept as it was, or given the first free name made from its own. |
| `Alias.AssignedAreValidAndDistinct` | crates/oxidom-core/src/alias.rs:58-89 | After assignment every alias is valid and no two are equal. |
| `Alias.AssignIsIdempotent` | crates/oxidom-core/src/alias.rs:58-89 | A second assignment changes nothing. |
| `Alias.AssignIsDeterministic` | crates/oxidom-core/src/alias.rs:58-89 | The outcome is determined by the catalogue. |
| `AtomicWrite.StepTouchesOnlyOwn` | crates/oxidom-core/src/fsutil.rs:83-99 | No call touches a temporary but its own, nor any destination but by its rename. |
| `AtomicWrite.OnlyRenamesReplace` | crates/oxidom-core/src/fsutil.rs:93-94 | A destination changes only by a rename, to the bytes of the renamed temporary. |
| `AtomicWrite.RunIsConsistent` | crates/oxidom-core/src/fsutil.rs:63-104 | The invariant of every interleaving: names are unique to their writers and each temporary holds exactly what was written. |
| `AtomicWrite.TempsAreNeverShared` | crates/oxidom-core/src/fsutil.rs:63-82 | No two writers ever hold the same temporary, across processes and recycled process ids. |
| `AtomicWrite.DestinationIsWhole` | crates/oxidom-core/src/fsutil.rs:45-104 | At every moment of every interleaving a destination holds what it held at first or all the bytes of one writer. |
| `AtomicWrite.RefusalsAreBounded` | crates/oxidom-core/src/fsutil.rs:63-82 | A process is refused no more names than there were leftovers when it started. |
| `AtomicWrite.RefusalIsNew` | crates/oxidom-core/src/fsutil.rs:63-82 | Each refusal strikes out a leftover not refused before, so the naming loop ends. |
| `AtomicWrite.Disk.TryName` | crates/oxidom-core/src/fsutil.rs:63-82 | One turn of the loop: a taken name is a leftover of the process that was never refused before. |
| `AtomicWrite.Disk.CreateTemp` | crates/oxidom-core/src/fsutil.rs:63-82 | The loop ends with a fresh empty temporary or an error, with all others interleaved. |
| `AtomicWrite.Disk.WriteAll` | crates/oxidom-core/src/fsutil.rs:86-87 | All bytes are written, in any pieces, or the temporary is discarded. |
| `AtomicWrite.Disk.RenameTemp` | crates/oxidom-core/src/fsutil.rs:93-94 | The rename puts exactly the bytes of the writer at its destination. |
| `AtomicWrite.Disk.WritePrivateAtomic` | crates/oxidom-core/src/fsutil.rs:45-104 | A call puts its bytes at the destination whole or makes no replacement at all; success implies the former. |
| `Bind.ProbeIsFirstFree` | crates/oxidom-core/src/bind.rs:37-43 | The cyclic probe yields the first free slot after its start, and nothing exactly after a full turn. |
| `Bind.ProbeIsComplete` | crates/oxidom-core/src/bind.rs:37-43 | It finds a free slot whenever one exists anywhere on the ring. |
| `Bind.AddressForIsComplete` | crates/oxidom-core/src/bind.rs:21-44 | An unused in-range loopback address whenever one exists, none exactly on exhaustion. |
| `Bind.DeviceAddressForIsComplete` | crates/oxidom-core/src/bind.rs:81-102 | The same for device addresses. |
| `Bind.RoutingMarkIsComplete` | crates/oxidom-core/src/bind.rs:104-122 | The same for routing marks. |
| `Bind.AllocationsStayDistinct` | crates/oxidom-core/src/bind.rs:26-122 | Any allocator whose fixed value is reserved keeps live allocations distinct over any run. |
| `Bind.LiveAddressesDistinct` | crates/oxidom-core/src/bind.rs:21-44 | Live loopback addresses stay pairwise distinct over any run, the fixed default included. |
| `Bind.LiveMarksDistinct` | crates/oxidom-core/src/bind.rs:104-122 | So do live routing marks. |
| `Bind.DeviceAddressCollision` | crates/oxidom-core/src/bind.rs:81-102 | Device addresses stay distinct when a profile comes up if and only if it is not `default` while another live device holds 198.18.0.1. |
| `Bind.DeviceAddressCollisionIsReachable` | crates/oxidom-core/src/bind.rs:81-102 | That state is reachable: any profile whose hash is a multiple of the ring size takes the address first. |
| `Bind.DeviceAddressCollisionExample` | crates/oxidom-core/src/model.rs:441-448 | Under the hash of the program the profile `zm` does: bringing up `zm` and then `default` gives both 198.18.0.1. |
| `Discovery.ClassifiersAreDisjoint` | crates/oxidom-core/src/client.rs:178-215 | No error means both absence and unavailability, and the expired deadline means neither. |
| `Discovery.World.BeforeDeadline` | crates/oxidom-core/src/client.rs:238-249 | An answer counts only strictly before the deadline; the attempt never outlives it but by lateness of the machine. |
| `Discovery.World.TrySystem` | crates/oxidom-core/src/client.rs:261-304 | The retry loop allows falling back only on positive evidence, within its grace and at most 40 attempts. |
| `Discovery.World.FindExisting` | crates/oxidom-core/src/client.rs:251-316 | The whole discovery: attempts, order, outcome, and the total time of grace plus one discovery budget. |
| `Discovery.NoSwitchWithoutEvidence` | crates/oxidom-core/src/client.rs:251-316 | The session bus is tried only when every system answer was absence or unavailability. |
| `Discovery.PatienceIsKept` | crates/oxidom-core/src/client.rs:251-304 | A patient client of an installed daemon leaves it only when unavailable, or absent at every attempt through the full grace. |
| `Discovery.World.WaitSpawned` | crates/oxidom-core/src/client.rs:318-375 | Waiting for a spawned daemon retries only on absence, on that bus alone, connects exactly on an answer, and ends by its deadline or shortly after the child is gone. |

## Left out

- Draft.PatchRestoresIffPlain: a change under a dotted key that is only null against absent is excluded; there the outcome depends on what else the two trees hold and on the order of the writes.
- Draft.SetDotted: trees are values here, so the in-place update of a nested JSON map is modelled, its aliasing is not.
- Draft.ApplyOverrides: only the tree is modelled; `resolve`, the conversion between drafts and servers, and the fields carried over from the old server are not.
- OwnedTun.Machine.Others: other programs may do anything but install objects under the random cookie, metric and rule of a running activation, or under the exact selectors of a record; the program cannot defend against that, and says so.
- OwnedTun.Machine.Recover: the helper process and the nft chain, which recovery stops and removes first, are not part of this model.
- OwnedActivation.OwnedInterface.StartOwned: the transient device, its address and MTU, and the helper are steps that may fail; the transient device vanishes with its descriptor, and the helper runs shortly before its PID is recorded.
- OwnedActivation.OwnedInterface.PlanOwned: an entry of `list` that is not a canonical prefix makes the record invalid and is refused here as in the program; parsing the entries is not modelled.
- OwnedActivation.AvailableIsUnclaimed: the re-check before the rule and each capture is a step that may refuse; its exemptions are not modelled.
- OwnedActivation.OwnedInterface.ApplyRule: that the re-check comes before the add is in no contract, since others may act between the two.
- Engine.Engine.Install: the legacy installation, which creates its device before recording it, is one step that may fail; the write-ahead property is claimed only for owned interfaces.
- Engine.RunUnderHold: that a hold implies an interface that is up is not claimed, because it is not so: a core exit without an interface and a lost candidate before installation both set it.
- Engine.Engine.StopLegacy: deletes and keeps routes as one step; of cgroup bindings only that forgetting one may fail, of nft chains and the desktop proxy nothing is part of this model.
- Engine.Engine.SyncSession: of a saved session only whether it records an owned interface; sessions are values inside a map, as no two of them share anything.
- Engine.Engine.PlanFor: the current network, resolved names, devices and marks are arbitrary inputs.
- Envelope.New: the outbound kind, transport and security of a server are one optional shape; parsing addresses and device names is not modelled.
- Failover.Activation.Next: instants are unbounded nanoseconds and counters unbounded numbers; overflow of the monotonic clock is not modelled.
- Registry.Registry.MigrateIdentities: the saves and the log line are left out; the content a server's id derives from is a field that neither its id nor its alias enters.
- Registry.Registry.CommitTarget: how a refresh merges fetched with stored servers is an arbitrary function, and of an add the stored subscription is compared as a value.
- Identity.StableHash: bytes of a seed are its characters, so seeds beyond ASCII hash differently; only `Bind.DeviceAddressCollisionExample` depends on the hash.
- Journal.Diagnostics.Access: a held lock is assumed; permissions, ownership checks, symbolic links and power loss are not modelled.
- AtomicWrite.Disk.WritePrivateAtomic: starts with the parent directory created and open; permissions and power loss are not modelled, and a destination is never named like a temporary.
- AtomicWrite.Disk.WriteAll: interrupted writes, which are retried, do nothing and are left out.
- Discovery.World.WaitSpawned: when the child is seen to be gone is an input instead of a second loop.
- Discovery.World.BeforeDeadline: time beyond what was asked for is counted as lateness of the machine and added to every bound.
- Netlink, nftables, processes, D-Bus, HTTP, TOML and JSON encoding: replaced by steps that may fail, or left out.
- Share links, core options, countries, pools, probes, the command line and the window.
