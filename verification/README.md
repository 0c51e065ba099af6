# TenantCtl, modelled and proved in Dafny

TenantCtl brings OpenStack projects to a declared state. A run compares configuration, the state file
and the cloud, makes calls one at a time and writes down what it did. This project models the parts of
it whose correctness depends on several functions, several runs or several processes, and proves what
they promise. `dafny verify dfyconfig.toml` checks everything.

Code that changes things step by step is a class whose methods keep the loops and the order of calls
and saves of the original; each method is proved equal to a specification function, and the theorems
are about these functions: what they come to is stated once more from configuration, clock, script and
starting state, field by field, without their names. Where the outside world takes part, every save and every API attempt, or
call whose repetition changes nothing, takes one slot of an arbitrary script of faults. What is proved
of every script therefore holds at every crash point and for every lost response.

| files | subject |
|---|---|
| `Reservations`, `ReservationProofs`, `ReservationTheorems`, `ReservationResults` | flavor access granted for reservations: histories of runs, teardowns, outside changes and crashes; what a completed run leaves, from its inputs |
| `FloatingIps`, `FloatingIpProofs`, `FloatingIpTheorems`, `FloatingIpLimits`, `FloatingIpPlans`, `FloatingIpCuts`, `FloatingIpForgets`, `FloatingIpResults`, `FloatingIpReports` | the floating-IP pool: drift, reclaiming, scaling, quota, lost replies, healing, forgotten addresses; what is written and reported, entry by entry |
| `StateTree`, `StateHeap`, `StateStore`, `StoreConcurrency` | the state store: the tree update, dictionaries held by reference, any number of processes on one file, safety and progress |
| `Calendar`, `PointText`, `PeriodParser`, `PeriodTheorems`, `PeriodRanges`, `Spans` | periods in truncated ISO 8601 (section 4.1.2.3 of ISO 8601:2004) over the Gregorian calendar |
| `Projects`, `Scopes`, `Lifecycle` | effective state, scopes, and the locked to present transition over many runs |
| `StableSort`, `Federation`, `FederationRules` | mapping rules element by element, the groups they name, and clock readings that differ between phases |
| `Blocks`, `Subnets` | subnet defaults, validation and the overlap check, composed to disjointness of accepted projects |
| `Teardown`, `TeardownTheorems`, `TeardownLeftovers`, `TeardownReports` | the table of deletions against an API that checks dependencies |
| `RouterIps` | the router address snapshot and its audit trail |
| `Common` | sequences and small types shared by the rest |

## Where the code does less than it promises

Each of these is stated as an exact condition, with a concrete example.

- Reservations: a process that dies in the grant loop leaves its grants untracked for good
  (`ReservationTheorems.LeakedSet`, `LeakExample`). From the early persist on nothing leaks.
- Reservations: a grant whose response is lost meets a conflict when it is repeated. The grant loop expects this, the
  verify loop does not and ends the run (`ReservationResults.VerifyGoesOn`).
- Floating IPs: a conflict while reclaiming is always read as an address taken by another project. It is
  also what an exhausted quota answers, and what the repetition of a reclaim answers whose reply was lost: the
  address is then recorded as taken while the project holds it (`FloatingIpLimits.ReclaimMisreports`,
  `OverfullExample`, `LostReplyExample`).
- Floating IPs: with a quota that may not fall below usage, a missing tracked address makes every run abort while
  usage exceeds desired plus missing, and reclaiming is on (`FloatingIpCuts.NeverHeals`, `BlockedExample`). A run
  that dies in its scale-down can bring this about itself: the deleted addresses count as missing
  (`CutsBlock`, `CutScaleDownBlocks`, `CutExample`). After any other cut the next served run heals (`CutRunsHeal`).
- Floating IPs: the docstring says the list is always persisted. In the steady state it is written only
  with change tracking on (`FloatingIpTheorems.StoredIdsMatchPool`, `UnstoredExample`).
- Floating IPs: a foreign address in the project makes a scale-up fail, as the raised quota leaves no
  room for it (`FloatingIpLimits.ForeignBlocksScaleUp`, `ForeignExample`).
- Floating IPs: a scale-up may be handed a released address, which is then in both lists until the next drift pass
  (`FloatingIpLimits.ScaleUpMayReuseReleased`, `ReuseExample`, `NextPassSeparates`). A drift pass that dies between
  its two saves forgets the addresses it gave up (`FloatingIpForgets.DriftForgets`, `ForgetsExample`).
- State store: an object stored in memory is shared with whoever stored it, and a dictionary held under two
  keys changes under both (`StateHeap.SaveIsUpdate`, `StateStore.SharedDictExample`); a file keeps two copies.
- State store: a refused value leaves new dictionaries in the in-memory store only
  (`StateStore.SavesMirror`, `RefusedExample`). The module documentation says that every read takes the lock; a load
  of a missing file does not, and needs none (`StoreConcurrency.LoadsSeeSerialStates`).
- Periods: spans end with a whole second, so the fraction after the last second of a day lies in no day
  (`PeriodTheorems.UnitsTile`, `GapExample`).
- Unshelving: without a recorded state, a run that enables a project and then fails loses the transition
  (`Lifecycle.FallbackForgets`, `FallbackExample`).
- Keystone groups: the comment speaks of pairs of name and domain, the code tells groups apart by name
  (`Federation.OnlyFirstDomainIsEnsured`, `SharedNameExample`). Rules name a domain of their own, so a group can be
  ensured in one domain and named in another (`RulePairsAreEnsured`, `DefaultDomainExample`).
- Subnet defaults: the default pool is said to exclude the gateway; a gateway strictly inside stays in it
  (`Subnets.EnumerationIsClosedForm`). A block of one address gets a gateway outside itself, and for the
  last address of all the default raises (`Subnets.DefaultsAreValid`, `SingleAddressExample`).
- Teardown: a detachment whose response is lost is answered by not found on the retry, and the router is
  then reported as deleted while it stays (`TeardownTheorems.ReportedButKept`, `LostDetachExample`). A service that
  is absent at a listing skips its kind, and the project is deleted all the same (`TeardownLeftovers.CompletedLeaves`,
  `AbsentExample`).
- Router addresses: the trail is written after the snapshot, so a crash in between forgets the addresses
  released in that run (`RouterIps.AddressesAreConserved`, `ForgetsExample`).

## Model

| member | source | states |
|---|---|---|
| `Reservations.Deployment.EnsureReservations` | src/resources/reservations.py:186-388 | one run, loop by loop and save by save, under any script of faults and outside changes, has the outcome and leaves the world that the specification of the run gives |
| `Reservations.Deployment.DesiredGrants` | src/resources/reservations.py:91-107 | the nested loop builds the coverage map; a flavor already in it is skipped |
| `Reservations.Deployment.GrantMissing` | src/resources/reservations.py:282-325 | the grant loop: pre-check, access found there is not tracked, a conflict after a clean pre-check is |
| `Reservations.Deployment.VerifyCovered` | src/resources/reservations.py:333-349 | tracked grants whose access is missing are granted again; a conflict here ends the run |
| `Reservations.Deployment.RevokeGrants` | src/resources/reservations.py:351-371 | the revoke loop: not found counts as revoked, every item gets its audit entry |
| `Reservations.Deployment.ReconcileAudit` | src/resources/reservations.py:162-175 | the audit list is merged, pruned of active flavors, and written only when it changed |
| `Reservations.Deployment.Close` | src/resources/reservations.py:333-377 | verify, revoke, then the two tail writes |
| `Reservations.Deployment.RevokeAllReservationGrants` | src/resources/reservations.py:391-450 | teardown revokes the tracked grants and then empties the list |
| `Reservations.Deployment.GrantAccess` | src/utils.py:135-186 | a grant under the retry rule: server errors, rate limits and lost responses are sent again, five attempts in all |
| `Reservations.Deployment.RevokeAccess` | src/utils.py:135-186 | a revoke under the same rule |
| `ReservationProofs.RunGuarded` | src/resources/reservations.py:282-377 | every exit of every run: only tracked access was taken, nothing was taken while the list did not name it, untracked access stands |
| `ReservationProofs.TeardownGuarded` | src/resources/reservations.py:427-449 | the same of every exit of every teardown |
| `ReservationTheorems.OnlyTrackedAccessIsTaken` | src/resources/reservations.py:256-259 | over every history of runs, teardowns, clock readings, outside changes and crashes, access the persisted list never named is never taken |
| `ReservationTheorems.UntrackedAccessIsNeverTouched` | src/resources/reservations.py:285-297 | access that exists untracked survives every history in which nobody else removes it, and never becomes tracked |
| `ReservationTheorems.UncutRunsDoNotLeak` | src/resources/reservations.py:327-377 | unless a run ends inside the grant loop or its persist, all access it added is on the persisted list at its exit, lost responses and refusals included |
| `ReservationTheorems.LeakedSet` | src/resources/reservations.py:282-331 | what leaks, undisturbed by others and whatever becomes of the calls: exactly the flavors to grant before the one at which the loop ends that lacked access, and that one if its grant took effect, unless the list reached the disk; all from script and starting state |
| `ReservationTheorems.TeardownNeverLeaks` | src/resources/reservations.py:427-449 | no exit of a teardown leaves untracked access of the tool that was not untracked before |
| `ReservationTheorems.UncutHistoriesTrackEverything` | src/resources/reservations.py:327-377 | over every history in which no run is cut inside the grant loop, all access the tool created stays on the list |
| `ReservationTheorems.CompletedRunConverges` | src/resources/reservations.py:256-377 | an undisturbed completed run leaves exactly this granted list, access set, audit list and unmatched set |
| `ReservationResults.ActiveIs` | src/resources/reservations.py:221-231 | the entries that count are those with a span that contains the instant, in the order they are written |
| `ReservationResults.DesiredIsWanted` | src/resources/reservations.py:91-107 | a flavor is desired exactly if an open entry has a pattern that a listing of it matches, under the listed name and the name of the first such entry |
| `ReservationResults.CompletedRunSets` | src/resources/reservations.py:256-375 | from entries, clock, listing and state: after an undisturbed completed run a flavor is granted exactly if wanted and not there untracked, access is what is wanted or was untracked, the list keeps wanted grants in order and adds the new ones by flavor, each with its name, entry and time |
| `ReservationResults.CompletedRunAudits` | src/resources/reservations.py:351-377 | the audit list: the earlier entries and one for each grant no longer wanted, its fields, the time and the reason, less those of granted flavors; every earlier grant is in exactly one of the two lists |
| `ReservationResults.CompletedRunNotes` | src/resources/reservations.py:110-151 | the note holds exactly the patterns of open entries that match no listed flavor, under the name of the entry, and is left alone without an open entry |
| `ReservationResults.FiveAttempts` | src/utils.py:171-186 | a call survives four attempts that fail for a while, and not five |
| `ReservationResults.VerifyGoesOn` | src/resources/reservations.py:333-336 | the verify loop goes on exactly if every listing is answered and every grant of missing access is served before one of its responses is lost |
| `ReservationResults.CalmRunCompletes` | src/resources/reservations.py:256-388 | a run and a teardown that nothing fails and nobody disturbs complete, whatever they are given |
| `ReservationResults.StagesAreInOrder` | src/resources/reservations.py:282-377 | at every exit: nothing is taken away before tracked access is verified, no grant leaves the list before the revocations are through, the audit list is touched last |
| `ReservationTheorems.SecondRunDoesNothing` | src/resources/reservations.py:256-388 | an undisturbed second run on the same inputs, at a clock reading that opens and closes no entry, sends no grant, no revoke and writes nothing |
| `ReservationTheorems.CompletedTeardown` | src/resources/reservations.py:427-449 | a completed undisturbed teardown takes exactly the tracked access, empties the list and adds one audit entry for each grant, field by field |
| `ReservationTheorems.DesiredIsUnionOfEntries` | src/resources/reservations.py:91-107 | a flavor is covered exactly if some active entry covers it, under the name of the first covering entry |
| `ReservationTheorems.LeakExample` | src/resources/reservations.py:284-331 | a process that dies right after a grant leaves this access untracked |
| `FloatingIps.Pool.EnsurePreallocatedFips` | src/resources/prealloc/fip.py:702-892 | one run, call by call and save by save under any script, ends as its specification does |
| `FloatingIps.Pool.SetFipQuota` | src/resources/prealloc/fip.py:98-143 | a quota below usage is rejected and falls back to usage |
| `FloatingIps.Pool.SetFipQuotaAndRecord` | src/resources/prealloc/fip.py:146-188 | quota max(desired, actual), recorded as failed above desired |
| `FloatingIps.Pool.AdoptUntracked` | src/resources/prealloc/fip.py:368-384 | untracked addresses join the stored list at once |
| `FloatingIps.Pool.ReclaimFloatingIp` | src/resources/prealloc/fip.py:249-272 | a reclaim under the retry rule: up to five attempts, repeated after a transient failure whether or not it was applied |
| `FloatingIps.Pool.AllocateFloatingIp` | src/resources/prealloc/fip.py:62-83 | a create under the same rule; a refusal ends the run |
| `FloatingIps.Pool.ReclaimMissing` | src/resources/prealloc/fip.py:407-454 | the reclaim loop: a conflict gives the address up as taken |
| `FloatingIps.Pool.ReleaseMissing` | src/resources/prealloc/fip.py:455-482 | without reclaiming every missing address is released |
| `FloatingIps.Pool.ReconcileReleasedFips` | src/resources/prealloc/fip.py:292-313 | released entries whose address is active are dropped, and the list written only when it changed |
| `FloatingIps.Pool.ReconcileDrift` | src/resources/prealloc/fip.py:316-494 | adoption, recovery and both saves in this order |
| `FloatingIps.Pool.ScaleDownFips` | src/resources/prealloc/fip.py:497-574 | at most the excess is deleted, unattached ones only, then list and quota are set |
| `FloatingIps.Pool.ScaleUpFips` | src/resources/prealloc/fip.py:577-639 | quota raised, missing ones created, then list and quota are set |
| `FloatingIps.Pool.KeepExact` | src/resources/prealloc/fip.py:837-876 | the steady state: quota only, and the list when tracking finds other ids |
| `FloatingIpProofs.DriftPartitions` | src/resources/prealloc/fip.py:292-313 | any drift pass that gets through, under any script: of all addresses the two lists had, the released list then holds exactly those that are not in the stored list |
| `FloatingIpPlans.DriftEndHolds` | src/resources/prealloc/fip.py:316-494 | whether a drift pass and the listing after it are got through, and the floating IPs, the stored list and the slot they end with, from script and starting state |
| `FloatingIpForgets.DriftForgets` | src/resources/prealloc/fip.py:486-492 | the addresses a drift pass leaves in neither list, from script and starting state: none, unless it dies between its two saves; then those of the missing entries that are not put back, not held by another stored or adopted entry and not released already |
| `FloatingIpForgets.RunForgets` | src/resources/prealloc/fip.py:817-892 | the addresses a run leaves in neither list, cut anywhere: what its drift pass forgets, and the tracked ones it deletes and takes off its list |
| `FloatingIpForgets.HistoryForgets` | src/resources/prealloc/fip.py:817-892 | over any number of runs, cut anywhere, with anything done to the cloud in between: an address once in a list is in neither at the end exactly if some run lost it and no later run stored it |
| `FloatingIpForgets.ForgottenIsNotReleased` | src/resources/prealloc/fip.py:292-313 | no run, wherever it is cut, puts an address on the released list that was in neither list before |
| `FloatingIpForgets.ForgetsExample` | src/resources/prealloc/fip.py:486-492 | an entry given up by a run that dies before it writes that down |
| `FloatingIpTheorems.AttachedAndForeignSurvive` | src/resources/prealloc/fip.py:512-533 | at every crash point of every run an attached or foreign address is still there; what is new is unattached and on the configured network |
| `FloatingIpTheorems.CleanRun` | src/resources/prealloc/fip.py:497-639 | without foreign addresses and with every call served: exactly when a run completes, that the pool then holds max(desired, in use), that quota equals usage, and that the excess is reported exactly when there is one |
| `FloatingIpTheorems.StoredIdsMatchPool` | src/resources/prealloc/fip.py:854-862 | stored ids equal managed ids exactly if the loaded list was not empty, the run scaled, or tracking is on |
| `FloatingIpTheorems.UnstoredExample` | src/resources/prealloc/fip.py:854-862 | a completed run in the steady state that stores nothing |
| `FloatingIpTheorems.SecondRunIsIdle` | src/resources/prealloc/fip.py:817-892 | a second served run creates and deletes nothing and keeps quota and stored ids |
| `FloatingIpResults.DriftWrites` | src/resources/prealloc/fip.py:370-494 | both lists after a drift pass that gets through, under any script: the entries still backed as they were, those put back, those adopted with identity, address and attachment; the released list with one entry for each address given up, its attachment as stored and its reason |
| `FloatingIpResults.ServedRunStores` | src/resources/prealloc/fip.py:858-863 | a served run that completes stores the pool entry by entry if it scales or tracks a mismatch, else the list of the drift pass; the two counts are noted exactly on a tracked mismatch |
| `FloatingIpResults.RunReleases` | src/resources/prealloc/fip.py:489-494 | every run that gets to its scaling part, however it ends, leaves the released list of its drift pass |
| `FloatingIpResults.ReleasedAsStored` | src/resources/prealloc/fip.py:434-474 | a new released entry has address and attachment of a lost stored entry, and its reason is a refused reclaim exactly if reclaiming is on |
| `FloatingIpReports.RunReports` | src/resources/prealloc/fip.py:666-892 | the actions a completed run returns, in order and under any script: other networks, adopted, put back or given up, deleted or created, the quota above the count, nothing to do |
| `FloatingIpCuts.CutsBlock` | src/resources/prealloc/fip.py:402-405 | the state any run leaves, cut anywhere under any script, has its raise before reclaiming rejected exactly if it began so or the run dies in its scale-down with too much left in use, both from script and starting state; a run that begins so aborts and changes no address |
| `FloatingIpCuts.NeverHeals` | src/resources/prealloc/fip.py:402-405 | once that raise is rejected, no run of any number under any scripts completes |
| `FloatingIpCuts.CutScaleDownBlocks` | src/resources/prealloc/fip.py:512-533 | with cloud and file in step: a run blocks all later ones exactly if it dies in its scale-down after k deletions, k at least one and twice k less than the excess |
| `FloatingIpCuts.CutRunsHeal` | src/resources/prealloc/fip.py:817-892 | a served run after any first run, cut anywhere, reaches the target, exactly unless the start was blocked or the first run got stuck in its scale-down |
| `FloatingIpCuts.CutExample` | src/resources/prealloc/fip.py:512-533 | four unattached addresses, one wanted, the run dies after its first deletion: no later run completes |
| `FloatingIpCuts.BlockedExample` | src/resources/prealloc/fip.py:402-405 | three addresses, one wanted, the only stored one deleted by others: no run completes |
| `FloatingIpLimits.ForeignBlocksScaleUp` | src/resources/prealloc/fip.py:594-603 | a served run from any state completes exactly if the raise before reclaiming is accepted and, with a foreign address in the project, managed and recovered addresses reach the desired count |
| `FloatingIpLimits.ForeignExample` | src/resources/prealloc/fip.py:594-603 | one foreign address, one wanted: the run aborts |
| `FloatingIpTheorems.QuotaCalm` | src/resources/prealloc/fip.py:98-188 | the quota lands on max(desired, usage) on a strict and on a lenient API, recorded exactly when above desired |
| `FloatingIpPlans.QuotaIsMet` | src/resources/prealloc/fip.py:402-416 | whether any create or reclaim meets an exhausted quota, at any crash point of a run that starts with at most desired addresses and none foreign, from script and starting state: exactly if usage is the desired count, all missing addresses are free and the last reclaim is repeated, or more creates reach the service than are needed |
| `FloatingIpLimits.EchoesExhaustQuota` | src/resources/prealloc/fip.py:598-624 | under any script a scale-up meets an exhausted quota exactly if more creates reach the service than there is room for, repetitions after lost replies counted |
| `FloatingIpLimits.ReclaimCount` | src/resources/prealloc/fip.py:407-454 | under any script a reclaim loop that gets through allocates as many free addresses as the quota has room for, and puts back all of them but those whose allocation lost its reply |
| `FloatingIpLimits.ReclaimMisreports` | src/resources/prealloc/fip.py:402-449 | under any script a free address is given up as taken exactly if usage plus the free addresses exceed desired plus the missing ones, or an allocation that had room lost its reply; in the second case the project holds the address |
| `FloatingIpLimits.OverfullExample` | src/resources/prealloc/fip.py:402-449 | a free address given up for want of room |
| `FloatingIpLimits.LostReplyExample` | src/resources/prealloc/fip.py:426-449 | an address given up as taken while the project holds it |
| `FloatingIpLimits.ScaleUpMayReuseReleased` | src/resources/prealloc/fip.py:598-624 | a scale-up can end with an address in both lists exactly if some released address is in the pool and the project has no foreign address |
| `FloatingIpLimits.ScaleUpHandsOut` | src/resources/prealloc/fip.py:598-624 | a completed one ends with both lists disjoint exactly if the pool hands out no released address, the addresses computed from what is taken at the start and the script |
| `FloatingIpLimits.NextPassSeparates` | src/resources/prealloc/fip.py:292-313 | the next drift pass that gets through separates the lists |
| `FloatingIpLimits.ReuseExample` | src/resources/prealloc/fip.py:598-624 | a scale-up that is handed a released address, which is then in both lists |
| `StateTree.ReadBack` | src/state_store.py:224-232 | at and below the saved path a read gives the saved value |
| `StateTree.ReadElsewhere` | src/state_store.py:224-232 | a path not comparable to the saved one reads as before |
| `StateTree.ReadAbove` | src/state_store.py:226-229 | above the saved path there is a dictionary, whatever was there, which differs only by the rest of the save |
| `StateTree.UpdateIsDetermined` | src/state_store.py:224-232 | the update is the only tree with these reads |
| `StateTree.UpdatesCommute` | src/state_store.py:224-232 | saves on paths that are not comparable commute |
| `StateTree.UpdateOverwrites` | src/state_store.py:224-232 | a save wipes out earlier saves at or below its path |
| `StateStore.Descend` | src/state_store.py:226-229 | the walk over dictionaries held by reference, making missing ones in place |
| `StateStore.SetPath` | src/state_store.py:225-232 | the in-place loop on any objects, shared or not: every old object reads afterwards as if rebuilt with the one changed dictionary; the value object itself is stored; a separate value keeps a tree a tree |
| `StateHeap.SaveIsUpdate` | src/state_store.py:286-292 | a save reads as the recursive update exactly if the last dictionary that exists along its path is reached in no other way, or the save puts nothing new there |
| `StateHeap.TreeSaves` | src/state_store.py:286-292 | where every dictionary is held once, every save reads as the update |
| `StateStore.SharedDictExample` | src/state_store.py:286-292 | a dictionary stored under two keys: a save through the first key is read through the second |
| `StateTree.PlaceIsUpdate` | src/state_store.py:286-292 | with an accepted value the loop is the recursive update |
| `StateStore.CopyObj` | src/state_store.py:262-269 | a deep copy reads the same and consists of new objects |
| `StateStore.YamlFileStateStore.Load` | src/state_store.py:170-184 | a missing, corrupt or non-mapping file loads as an empty dictionary of new objects |
| `StateStore.YamlFileStateStore.Save` | src/state_store.py:202-238 | the file becomes the updated tree, or stays as it is on an empty path, a dataclass value or a truthy non-mapping document |
| `StateStore.InMemoryStateStore.constructor` | src/state_store.py:257-260 | the initial state is copied, none of it shared |
| `StateStore.InMemoryStateStore.Load` | src/state_store.py:262-269 | new objects only, reading as the stored tree |
| `StateStore.InMemoryStateStore.Snapshot` | src/state_store.py:294-302 | new objects only, reading as all stored trees |
| `StateStore.InMemoryStateStore.Save` | src/state_store.py:271-292 | every stored object reads as rebuilt; the stored tree is the update exactly if the changed dictionary is reached in one way or gets nothing new; a refused value may leave new intermediate dictionaries; separate values keep every object held once |
| `StateStore.SaveAllToMemory` | src/state_store.py:271-292 | any history of saves, accepted or not, with values of their own, leaves what the updates one after the other leave |
| `StateStore.SaveAllToFiles` | src/state_store.py:186-238 | the same for any history of saves on files |
| `StateStore.RefusedUnchanged` | src/state_store.py:286-292 | a refused value leaves the in-memory tree alone exactly if no dictionary was missing on the way |
| `StateStore.SavesMirror` | src/state_store.py:271-292 | one save keeps both stores in step exactly if it is accepted, has no path, or makes no dictionary before being refused |
| `StateStore.RefusedExample` | src/state_store.py:286-292 | a refused value that leaves a dictionary in memory and nothing in the file |
| `StateStore.ValuesAre` | src/state_store.py:48-92 | an enum member is stored as its payload, an address as its text, any other value as itself; a dataclass instance is the only one refused |
| `StateStore.StoresAgree` | src/state_store.py:224-292 | after every history of accepted saves, as the two methods above perform it, both stores load the same for every key |
| `StoreConcurrency.StepKeeps` | src/state_store.py:186-238 | every step of every process keeps the invariant: file equal to the serial order of renames, one process inside the lock, temporary file and pending tree in step |
| `StoreConcurrency.RenameKeeps` | src/state_store.py:234-238 | the rename is where a save takes effect |
| `StoreConcurrency.FileIsSerial` | src/state_store.py:206-238 | in every run of any number of processes, with crashes anywhere, the file is a serial order of exactly the renamed saves |
| `StoreConcurrency.OutcomeTellsFate` | src/state_store.py:186-238 | a save that returned is in that order, one that failed or timed out is not; only a crash leaves it open; that saves get through and what they report is said by CallEnds and SaveReports |
| `StoreConcurrency.CallEnds` | src/state_store.py:171-238 | with the lock free a call gets through: a save without an error is in the file, one with an error reports it and changes nothing, a load returns what the file holds |
| `StoreConcurrency.CallsCanAlwaysEnd` | src/state_store.py:206-232 | no reachable state, crashes included, is stuck: the holder of the lock can free it and then any call that has not got it yet gets through |
| `StoreConcurrency.SaveReports` | src/state_store.py:202-232 | in every run, a save that has read a file and ends without a crash reports an error exactly if that file, path and value meet it, and is saved otherwise unless its dump fails |
| `StoreConcurrency.SaveErrors` | src/state_store.py:202-228 | exactly when each error is met, that the file is then unchanged, and that it is the update without one |
| `StoreConcurrency.LoadsSeeSerialStates` | src/state_store.py:170-184 | a load returns the file as it was after some prefix of that order, no older than its own beginning |
| `StoreConcurrency.LoadsSeeReturnedSaves` | src/state_store.py:170-184 | a load that begins after a save returned sees that save |
| `StoreConcurrency.NoUpdateIsLost` | src/state_store.py:209-238 | a save is readable as long as all later renames are on paths not comparable to its own |
| `StoreConcurrency.OrderDoesNotMatter` | src/state_store.py:209-238 | two runs renaming the same saves on pairwise incomparable paths end with the same file |
| `Calendar.YearsTile` | src/period_parser.py:118 | a year starts where the one before it ends, leap years included |
| `Calendar.MonthsTile` | src/period_parser.py:118 | the twelve months make up the year |
| `Calendar.MonthsAre` | src/period_parser.py:118 | the days before each month are those of the calendar, leap years included |
| `Calendar.SecondsAreUnique` | src/period_parser.py:130 | no two dates and times of the calendar are the same second |
| `PointText.PatternIsExact` | src/period_parser.py:38-47 | the pattern takes a text apart into these groups exactly if the text is how they are written |
| `PeriodRanges.TextExample` | src/period_parser.py:36-47 | what a full point with an offset looks like |
| `PeriodRanges.SpacesAre` | src/period_parser.py:102 | the whitespace around a point is exactly the ten ASCII characters that Python strips |
| `PeriodParser.ResolveStringPoint` | src/period_parser.py:88-135 | boundary and time flag of a text, or one error appended |
| `PeriodParser.ParsePoint` | src/period_parser.py:138-169 | a from or until value, with the coercions undone |
| `PeriodParser.ParseBareSpan` | src/period_parser.py:172-216 | a bare value, refused when finer than a day |
| `PeriodParser.ParseRange` | src/period_parser.py:219-247 | a mapping, with its unknown keys, missing bounds and inversion; RangeIs and RangeErrors say what it comes to |
| `PeriodParser.ParsePeriod` | src/period_parser.py:250-274 | a whole value: spans in item order, errors appended to the shared list; PeriodIs and ListIs say what they are |
| `PeriodTheorems.WrittenResolves` | src/period_parser.py:102-130 | a written point resolves as its components say, with any whitespace around it |
| `PeriodTheorems.OnlyWrittenResolves` | src/period_parser.py:102-107 | nothing else gives a point |
| `PeriodTheorems.TimestampResolves` | src/period_parser.py:113-133 | a full timestamp gives the same UTC second for both ends, or an error exactly if its offset is a day or more or leads out of the years 1 to 9999 |
| `PeriodTheorems.SecondRoundTrips` | src/period_parser.py:72-135 | every whole UTC second survives rendering and parsing, for both ends |
| `PeriodTheorems.TruncationContains` | src/period_parser.py:116-127 | without an offset, dropping trailing components gives a span containing the finer one |
| `PeriodTheorems.TruncatedTextContains` | src/period_parser.py:116-127 | the same for the texts |
| `PeriodTheorems.UnitsAreAccepted` | src/period_parser.py:202-216 | every year, month and day, written out, is accepted as exactly its own seconds |
| `PeriodTheorems.CoercionsAreUnits` | src/period_parser.py:188-197 | integer years and date objects mean what their text means |
| `PeriodTheorems.BareValuesAreUnits` | src/period_parser.py:202-216 | nothing else is accepted as a bare value |
| `PeriodTheorems.UnitLength` | src/period_parser.py:116-127 | start is not after end and the span is exactly as long as its year, month or day |
| `PeriodTheorems.UnitsTile` | src/period_parser.py:62-66 | of the years, the months and the days exactly one contains an instant, except in the fraction of a second after the last second of a unit, which none contains |
| `PeriodTheorems.GapExample` | src/period_parser.py:62-66 | half a second before a midnight that no day contains |
| `PeriodTheorems.SecondsAreCovered` | src/period_parser.py:62-66 | whole seconds are never in such a gap |
| `PeriodTheorems.NeverInverted` | src/period_parser.py:244-247 | no period value yields an inverted span |
| `PeriodTheorems.ErrorFreeMeansComplete` | src/period_parser.py:256-274 | there is no error exactly if every item gave its span |
| `PeriodTheorems.AllPastMeansNeverAgain` | src/period_parser.py:282-284 | spans are reported as all past exactly if there are some and none will be active again |
| `PeriodTheorems.ListIsUnion` | src/period_parser.py:256-279 | a list is active exactly when one of its items is |
| `PeriodRanges.ResolveIs` | src/period_parser.py:109-135 | a written point resolves to the first or the last second of what it states, offset taken off, exactly if date, time and offset exist and the second is in the calendar |
| `PeriodRanges.PointIs` | src/period_parser.py:138-169 | a bound value gives that instant exactly if it states such a point, and otherwise the one error that says what is wrong |
| `PeriodRanges.StatesOne` | src/period_parser.py:149-169 | a value states one point at most, whatever whitespace surrounds it |
| `PeriodRanges.BareIs` | src/period_parser.py:172-216 | a bare value is the whole of the date, month or year it states; the error is that of the point, or that it is finer than a day |
| `PeriodRanges.RangeIs` | src/period_parser.py:219-247 | a mapping is the span from the first second of what from states to the last second of what until states, open where a key is missing, exactly if it has no other key, at least one, both bounds resolve and the first is not after the last |
| `PeriodRanges.RangeErrors` | src/period_parser.py:224-246 | exactly when a mapping has an unknown key, no key or a start after its end, and else the errors of its bounds in order |
| `PeriodRanges.ListIs` | src/period_parser.py:256-267 | a list is the spans and the errors of its items one after the other, each under its index; an empty list and a list in a list are errors |
| `PeriodRanges.PeriodIs` | src/period_parser.py:269-274 | a value that is not a list gives exactly the span of its mapping or of its bare value |
| `Projects.EffectiveStateIs` | src/models/project.py:96-112 | as configured up to and including the deadline; after it a lock shuts a present project only, and a deletion removes every project |
| `Projects.EffectiveStateTightens` | src/models/project.py:96-112 | in time the effective state only tightens, is never looser than configured, and changes at the deadline alone |
| `Scopes.ExpandScopeDependencies` | src/reconciler.py:80-105 | the result is the least closed set that contains the given scopes: the network for addresses and preallocation, the groups for roles |
| `Scopes.ValidateScopes` | src/reconciler.py:108-146 | what is passed on, expanded or rejected, for every input, scope by scope |
| `Lifecycle.Reconciler.Reconcile` | src/reconciler.py:402-450 | one run over a project under any fault script ends as its specification does; the state is recorded last |
| `Lifecycle.Reconciler.ReconcilePresent` | src/reconciler.py:201-248 | the present handler, with its early read of the record and its late unshelve |
| `Lifecycle.Reconciler.ReconcileLocked` | src/reconciler.py:251-267 | the locked handler disables the project and shelves |
| `Lifecycle.Reconciler.ReconcileAbsent` | src/reconciler.py:270-344 | the absent handler, done at once when there is no project |
| `Lifecycle.CompletedRunEffects` | src/reconciler.py:402-450 | from state, deadline and clock: a completed run leaves the project gone, disabled and shelved, or as configured, and records which |
| `Lifecycle.ShelvedIsDisabled` | src/reconciler.py:251-267 | at every exit of every run, servers are shelved only once the project is disabled |
| `Lifecycle.HandlersCalled` | src/reconciler.py:227-245 | each scope brings its own handlers, the network one two; groups and mapping are not part of a run of a project |
| `Lifecycle.UnshelveOnTransition` | src/reconciler.py:162-186 | a run that changes the record has unshelved exactly if it is an enabled unscoped present run that found the transition; no other run unshelves |
| `Lifecycle.LockIsUndoneOnce` | src/reconciler.py:435-450 | after a recorded lock, wherever present runs fail, either locked is still recorded or exactly one run has undone it, unshelving if enabled and unscoped, and none after it |
| `Lifecycle.NeverUnshelvesAgain` | src/reconciler.py:180-184 | once a state other than locked is recorded no present run unshelves |
| `Lifecycle.TightenedStaysShut` | src/models/project.py:103-112 | with one configuration nothing is unshelved after the effective state has tightened |
| `Lifecycle.FallbackForgets` | src/reconciler.py:186 | without a record, a completed run unshelves exactly if in no earlier run the set-up of the project took effect |
| `Lifecycle.FallbackExample` | src/reconciler.py:186 | a run that fails in a handler, after which the next one no longer unshelves |
| `Federation.BuildGeneratedRules` | src/resources/federation.py:62-156 | the loops and the stable sort build the specified rule list |
| `Federation.AugmentGroupRoleAssignments` | src/resources/federation.py:263-281 | derived roles are added behind the configured ones; RolesAre says which |
| `FederationRules.RolesAre` | src/resources/federation.py:273-281 | the derived roles are those of the assignments in group mode, in order, each for its group: the configured name, or the project and the last segment of its first path |
| `Federation.Keystone.CollectNeeded` | src/resources/keystone_groups.py:57-70 | the needed groups by name, the first domain winning |
| `Federation.Keystone.EnsureKeystoneGroups` | src/resources/keystone_groups.py:54-136 | on success every needed group exists in its domain; at any exit only needed ones were added |
| `Federation.RulesExact` | src/resources/federation.py:76-151 | a rule is in the mapping exactly if it is the rule of some assignment of some present project |
| `FederationRules.RuleIs` | src/resources/federation.py:94-151 | the rule of an assignment, element by element: user type, issuer, absolute or prefixed paths in text order, group and its domain, project with roles and domain in project mode |
| `FederationRules.RulesAre` | src/resources/federation.py:76-156 | one rule for each assignment of each present project, sorted by project name and then by first path |
| `Federation.RuleGroupsAreEnsured` | src/resources/federation.py:74-126 | the name of a group in a rule built at any later clock reading is among the names ensured first |
| `Federation.RulePairsAreEnsured` | src/resources/federation.py:92-126 | the group and domain a rule names are an ensured pair exactly if the named domain is that of the first project present earlier that derives the group |
| `Federation.DefaultDomainExample` | src/resources/federation.py:92-126 | a project that gives its domain by id only: the rule names the default domain, the group is ensured in the other one |
| `Federation.RoleGroupsAreEnsured` | src/resources/federation.py:263-281 | so is every group a project still present later needs for its derived roles |
| `Federation.NeededGroups` | src/resources/keystone_groups.py:57-70 | a group is needed exactly if some present project derives it |
| `Federation.FirstDomainWins` | src/resources/keystone_groups.py:64-70 | it is created in the domain of the first project that derives it |
| `Federation.OnlyFirstDomainIsEnsured` | src/resources/keystone_groups.py:54-70 | a project finds its group in its own domain exactly if the first project deriving that name has the same domain |
| `Federation.SharedNameExample` | src/resources/keystone_groups.py:69-70 | two projects sharing a group name across domains: the second group is not ensured |
| `Federation.RulesAreDeterministic` | src/resources/federation.py:153-156 | with distinct project names the mapping does not depend on the order of the projects |
| `StableSort.SortOrders` | src/resources/federation.py:154 | the sort orders its input and keeps its elements |
| `StableSort.SortIsStable` | src/resources/federation.py:154 | entries with equal keys keep their order |
| `StableSort.TextLeqIs` | src/resources/federation.py:154 | text order: the beginning of the other, or smaller at the first difference |
| `Blocks.NestedOrDisjoint` | src/config_validator.py:60 | blocks without host bits are nested or disjoint |
| `Blocks.OverlapMeansShared` | src/config_validator.py:60 | the overlap test holds exactly if an address is in both |
| `Subnets.SubnetDict.AutoPopulate` | src/config_resolver.py:161-207 | gateway and pool are filled in place; the one block whose gateway does not exist raises |
| `Subnets.DefaultsAre` | src/config_resolver.py:161-207 | from the text of the block: the gateway is the address after the network address, the pool the usable addresses less a gateway at either end, and nothing given is touched |
| `Subnets.EnumerationIsClosedForm` | src/config_resolver.py:190-201 | enumerating and removing gives the hull of the usable addresses, cut only where the gateway is at an end |
| `Subnets.DefaultsAreValid` | src/config_resolver.py:170-201 | a block alone passes validation with its defaults exactly if it has no host bits and at least two addresses |
| `Subnets.SingleAddressExample` | src/config_resolver.py:170-201 | blocks of one address: a gateway outside the block, or none to give |
| `Subnets.GivenGatewayDecides` | src/config_resolver.py:184-201 | with an explicit gateway the defaults pass exactly if the block has no host bits and holds the gateway |
| `Subnets.ProblemList.ValidateSubnet` | src/models/network.py:48-105 | problems appended in order, and the subnet kept, dropped or failing to be constructed |
| `Subnets.ValidationExact` | src/models/network.py:56-105 | there is no problem exactly if block, gateway and pools are sound; and an error is raised instead exactly if the pools are neither a list nor empty, or go unchecked for want of a block and one lacks an end |
| `Subnets.ProblemsAre` | src/models/network.py:56-105 | exactly which problems are reported: block, gateway, and each pool under its index |
| `Subnets.CheckCidrOverlaps` | src/config_validator.py:41-61 | the report of the double loop over projects that are not absent |
| `Subnets.ClashesExact` | src/config_validator.py:56-61 | it reports exactly the overlapping pairs |
| `Subnets.BuildProjects` | src/config_loader.py:253-288 | a configuration is accepted exactly if every project is acceptable and, where that is enforced, no two blocks share an address; accepted projects have the resolved, sound subnets |
| `Subnets.AcceptedSubnetsAreDisjoint` | src/config_loader.py:282-288 | pools and gateways of two projects that are not absent share no address |
| `Teardown.Cloud.TeardownProject` | src/resources/teardown.py:337-377 | the loop over the table and the final deletion end as specified |
| `Teardown.Cloud.Step` | src/resources/teardown.py:341-361 | one row of the table: an absent service skips it, any other listing failure ends the teardown |
| `Teardown.Cloud.SafeDelete` | src/resources/teardown.py:184-208 | one item: not found counts as deleted, any other failure as failed |
| `Teardown.Cloud.PrepareRouterDeletion` | src/resources/teardown.py:211-221 | interfaces detached, then the gateway cleared |
| `Teardown.Cloud.Retry` | src/utils.py:135-186 | a call under the retry rule |
| `TeardownTheorems.ReportedButKept` | src/resources/teardown.py:195-221 | an existing item is reported as deleted and still there exactly if it is a router and the script loses the responses to a detachment until nothing is left to detach and answers it then, all earlier ones done |
| `TeardownTheorems.OneLossSuffices` | src/resources/teardown.py:211-221 | with one interface per subnet: one lost response before the answer is enough |
| `TeardownTheorems.PreparationFinds` | src/resources/teardown.py:211-221 | without lost responses the preparation of an existing router is never answered by not found, and detaches everything |
| `TeardownTheorems.CompletedMeansEmpty` | src/resources/teardown.py:363-377 | without lost responses and with every service there, a teardown that raises nothing has left only default security groups and no project |
| `TeardownLeftovers.CompletedLeaves` | src/resources/teardown.py:337-377 | under any script, a teardown that raises nothing leaves exactly what was there and whose service was absent at its listing, or whose router detachment was repeated after a lost response; the project is gone all the same |
| `TeardownLeftovers.AbsentExample` | src/resources/teardown.py:343-346 | a service absent at one listing: the network stays, the project goes |
| `TeardownTheorems.FaultFreeTeardownEmpties` | src/resources/teardown.py:235-274 | without faults the order of the table satisfies an API that checks dependencies: the teardown completes and empties the project |
| `TeardownTheorems.EverythingIsAttempted` | src/resources/teardown.py:337-377 | whatever fails, every resource is attempted, the project last, and an error is raised exactly if a deletion failed |
| `TeardownReports.AttemptsAreInOrder` | src/resources/teardown.py:337-377 | at every end: only what was there is attempted, default groups aside, each once and in the order of the table, the project once and last unless a listing failed |
| `TeardownReports.PreparedIsBare` | src/resources/teardown.py:211-221 | a router whose preparation succeeds has no interface and no gateway left, whatever responses were lost |
| `TeardownLeftovers.DefaultGroupsStay` | src/resources/teardown.py:267-274 | default security groups are there after every teardown, however it ends |
| `TeardownTheorems.AbortKeepsProject` | src/resources/teardown.py:341-346 | a listing that fails for good ends the teardown with the project still there |
| `TeardownTheorems.LostDetachExample` | src/resources/teardown.py:195-204 | a lost response while detaching leaves a router behind without an error |
| `RouterIps.Tracker.TrackRouterIps` | src/resources/network.py:389-511 | the snapshot, the releases and the two conditional saves |
| `RouterIps.RunShows` | src/resources/network.py:393-398 | a complete run stores the routers with an external address as observed, in order |
| `RouterIps.RunReleases` | src/resources/network.py:445-509 | the releases of a complete run, one by one: routers gone under their stored name, routers moved under their present name, address, time and reason, less the addresses in use |
| `RouterIps.CompleteRunPartitions` | src/resources/network.py:503-509 | after a complete run the trail holds exactly the known addresses that are not active |
| `RouterIps.AddressFate` | src/resources/network.py:424-509 | over any number of passes, cut anywhere, listings and cuts alone decide for every address whether it is active and whether it is in the trail |
| `RouterIps.AddressesAreConserved` | src/resources/network.py:424-509 | over any number of passes, cut anywhere, an address once known is in neither list exactly if some pass died between its saves when the address had just gone and was in no trail, and no later listing showed it |
| `RouterIps.ForgottenStaysOut` | src/resources/network.py:499-509 | what is in neither list stays out of both until a listing shows it again |
| `RouterIps.ListsAreDisjoint` | src/resources/network.py:503-509 | after a pass that gets through no address is active and released |
| `RouterIps.ForgetsExample` | src/resources/network.py:499-509 | a router that goes, a pass that dies between its saves, and a trail that never gets the address |
| `RouterIps.SecondRunIsIdle` | src/resources/network.py:499-509 | a complete run over the same routers stores nothing new |

Methods that only make one call or one save on behalf of the rows above, and lemmas that only serve the
proofs of these rows, are not listed.

## Left out

- Dry runs, offline runs, action messages, logging, waiting times between retries: presentation, or one branch each.
- The OpenStack SDK, YAML and JSON reading, `fnmatch`, `deepmerge`, placeholder replacement: library behaviour. Flavor matching is an arbitrary predicate, a parsed document is a value.
- Quota parsing and clamping, security group presets, the other `validate` type checks, static mapping rules and the push of the mapping: easy members.
- Reservation runs of the same project by two processes at once; within a run others may change access before every call. The same goes for floating IPs, where nobody else acts during a run.
- Floating IPs with a desired count of -1: the code compares it as an ordinary number, the model takes counts of at least 0, the theorems at least 1. The choice of the external network from a router's gateway is an input.
- FloatingIps.Pool.EnsurePreallocatedFips: creates and reclaims are modelled attempt by attempt; for the other calls, which do the same when repeated, one fault stands for all attempts. A delete of a missing id is taken to succeed, as the SDK does by default.
- StateStore.InMemoryStateStore.Save: a value that contains the dictionary it is saved into, which would make an object contain itself, is left out. Python's deep copy keeps sharing inside the copy; the model promises copies without sharing only of originals without sharing.
- ReservationTheorems.LeakedSet: states the leak for runs that others do not disturb; for disturbed ones `UncutRunsDoNotLeak` and `UncutHistoriesTrackEverything` bound it.
- StateStore.SavesMirror: serialisation looks at the outermost value only. A container that holds an enum member, an address or a dataclass instance makes the YAML dump raise while memory keeps it, and tuples become lists in a file; values here are what YAML can hold.
- The order of keys in a dictionary is not modelled, nor are YAML anchors and aliases, which can make two parts of a loaded document one object.
- StoreConcurrency.FileIsSerial: one state key and one call per process; several keys are independent files, several calls are several processes.
- Digits other than ASCII ones, which the pattern also accepts, and whitespace other than ASCII.
- Error texts of the parser: an error is its label and its kind.
- Lifecycle.Reconciler.Reconcile: the handlers of a present run are steps that can fail but change nothing modelled there; several projects in one run and runs without a state store are not modelled.
- IPv6 subnets, and gateways given as numbers instead of text.
- Subnets.AcceptedSubnetsAreDisjoint: pools and gateways as validated; addresses that OpenStack hands out otherwise are not part of it.
- Teardown.Cloud.PrepareRouterDeletion: a port with several subnets counts as that many attachments; snapshots, subnets and networks of other projects are not part of the world.
- Teardown of the safety check for servers and volumes: one branch.
- RouterIps: the check for a gateway on another network only records an action.
- ReservationResults.CompletedRunNotes: an unmatched pattern is a pair of entry name and pattern; the code joins the two by a colon, so that pairs that read the same count once.
- FloatingIpResults.ServedRunStores: of an attachment the model keeps whether there is one, not the port and the device.
