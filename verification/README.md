# Orlando protocols in Dafny

Orlando is a virtual-actor framework: grains are activated on demand on the
silos of a cluster, found through a consistent-hash ring, and kept durable by
stores and journals.  This project models the protocols that make that safe and
proves what they keep over every run.

| file | protocol |
|---|---|
| `Rings.dfy` | the consistent-hash ring |
| `SwimSilo.dfy`, `SwimRing.dfy`, `SwimCluster.dfy` | SWIM membership on one silo, its agreement with the ring, and N silos over an unreliable network |
| `Journal.dfy` | event sourcing with snapshots |
| `Activation.dfy`, `SingleActivation.dfy` | mailbox lifecycle and grain directory, and their interleavings |
| `CrossCluster.dfy`, `Failover.dfy` | epoch-fenced ownership across clusters and timed failover |
| `StateStore.dfy`, `Persistence.dfy` | etags and optimistic concurrency, and the persistent mailbox |
| `Replication.dfy` | sink, channel, pump, log, consumer and replica |
| `MembershipTable.dfy` | the versioned membership table |
| `Transport.dfy`, `CallChain.dfy`, `RateLimiter.dfy` | hop-limited routing, deadlock detection, rate limiting |
| `Text.dfy`, `Grains.dfy` | textual keys and counters, grain identity |

Objects that the framework updates in place are classes here; each of their
methods is proved equal to a function on values, and the whole-run theorems are
about those functions.  A run is a sequence of steps, each enabled where it is
taken, so a theorem about all runs is a theorem about all interleavings.

The hash is an arbitrary function into 2^64 positions.  Where vnodes must not
collide, that is assumed only of the silo ids at hand.  Counters are unbounded
naturals.  Clock readings, message loss, handler panics, store failures and the
order in which maps are enumerated are inputs of the model.  Encoding may
fail; where it succeeds, decoding is assumed to undo it.

## What the code does not keep

These expectations fail; each has its exact condition in the table.

- A gossip batch that admits a silo and buries it again leaves the silo on the
  ring without a member record (`SwimRing.BatchAgreesIff`).
- `notify_join` checks the ring before it takes the lock and then overwrites the
  record, so it can lower an incarnation; a seed's answer and a batch that
  readmits a silo can, too (`SwimRing.RecordFallsIff`,
  `SwimRing.NotifyJoinRaceLowersRecord`).
- A suspect that refutes between the scan for expired suspects and their burial
  is buried all the same (`SwimRing.SurvivesBurialIff`,
  `SwimRing.RefutationAfterScanIsInVain`).
- `notify_leave` has no guard for the local silo and takes it off its own ring,
  as does declaring it dead once a `join` has recorded it
  (`SwimRing.RingMatchesTableIff`, `SwimRing.NotifyLeaveOfSelfEmptiesRing`).
- A silo does not answer a suspicion at an incarnation below its own, so a silo
  that missed its last answer goes on suspecting it
  (`SwimCluster.SuspicionIsAnsweredIff`).
- A silo that restarts under its old id can be remembered above its own
  incarnation (`SwimCluster.RestartKeepsBoundIff`,
  `SwimCluster.RestartAfterRefutationBreaksBound`).
- Journaled grains: events whose append failed or that cannot be encoded are
  applied to memory all the same (`Journal.AskRecoversInRunIff`), and later asks
  do not heal that (`Journal.LaterAskDoesNotHeal`); lifecycle hooks change the
  state without journaling it (`Journal.AlwaysRecoversIffHarmless`); events that
  cannot be loaded are taken for none, and the next snapshot hides them for good
  (`Journal.FailedEventLoadIsCompleteIff`, `Journal.FailedLoadDamageLasts`); and
  what a panicking `on_deactivate` left is snapshotted
  (`Journal.DeactivationKeepsFoldIff`, `Journal.PanickedHookIsRecovered`).
- A persistent grain whose load failed overwrites what was stored as soon as it
  saves anything (`Persistence.FailedLoadOverwritesIff`,
  `Persistence.FailedLoadLosesState`), and what a panicking `on_deactivate` left
  is stored (`Persistence.PanickedHookIsStored`).
- A replicated state is lost when the channel is full
  (`Replication.SavedStateArrivesIffRoom`) or it is read together with a delta
  (`Replication.DeltaHidesItsBatch`).
- Removing a directory entry from outside the mailbox admits a second activation
  (`SingleActivation.OutsideRemovalKeepsExclusiveIff`).  Drain does so and refuses
  later callers, so it concerns callers already past the check
  (`SingleActivation.DrainStopsActivations`); after one removal
  by the rebalancer activations can overlap forever
  (`SingleActivation.OneRemovalOverlapsForever`).
- A deregistration forgets the epoch fence (`CrossCluster.OneClusterPerEpoch`,
  `CrossCluster.WithdrawalRegrantsEpoch`).
- Two clusters that look up an unowned grain at the same time both serve it
  (`Transport.ClaimStandsIff`, `Transport.RacingClustersBothHandle`).
- A grain key with a comma hides its grain from deadlock detection and can
  accuse another one (`CallChain.AskedIffUnmentioned`,
  `CallChain.CommaCycleIsAdmitted`, `CallChain.CommaReportsInnocentGrain`).
- A hop count too large for 32 bits counts as none (`Transport.SuppliedCount`).
- Silos that agree on the ring never reach an activation that is not on the
  owner: the call goes back and forth until its hops are spent
  (`Transport.DispatchedIffOwnerServes`, `Transport.TwoSilosPassTheCall`).
- A rate limit of zero still admits the first call of every window
  (`RateLimiter.SpansBoundedIffLimitPositive`).

Two comments in the sources say more than the code does, and the model follows
the code.  `crates/orlando-persistence/src/store.rs:47-50` says state is persisted
before the reply, but the reply is sent inside the handler, before the save; the
durable point proved here is the return to Idle.
`crates/orlando-cluster/src/failover.rs:188-191` says the next cycle retries the
remaining grains, but a promoted peer is left alone until it is seen Healthy
(`Failover.PromotedUntilHealthy`).

## Model

| member | source | states |
|---|---|---|
| `Rings.SuccessorIsNearest` | crates/orlando-cluster/src/hash_ring.rs:44-54 | the key `get` picks is the ring position at the least clockwise distance from the grain, wrap-around included |
| `Rings.GetIsClockwiseSuccessor` | crates/orlando-cluster/src/hash_ring.rs:44-54 | the clockwise-successor specification determines the answer of `get`; no answer exactly when the ring is empty |
| `Rings.AddMovesKeysOnlyToNewSilo` | crates/orlando-cluster/src/hash_ring.rs:30-35 | after adding a silo every key is served as before or by the new silo, whatever collides |
| `Rings.RemoveMovesOnlyOwnKeys` | crates/orlando-cluster/src/hash_ring.rs:37-42 | removing a silo that owns its vnodes moves only keys it served |
| `Rings.AddThenRemoveRestores` | crates/orlando-cluster/src/hash_ring.rs:30-42 | add-then-remove gives back the ring exactly when none of the new vnode positions was taken |
| `Rings.AddCommutes` | crates/orlando-cluster/src/hash_ring.rs:30-35 | two silos can be added in either order exactly when their vnodes do not collide |
| `Rings.RingDependsOnlyOnSet` | crates/orlando-cluster/src/hash_ring.rs:30-35 | without collisions, two sequences of additions with the same set of silos build the same ring |
| `Rings.CollisionMakesOrderMatter` | crates/orlando-cluster/src/hash_ring.rs:30-35 | with a collision the order of addition decides who serves the position |
| `Rings.SameIdsRouteAlike` | crates/orlando-cluster/src/hash_ring.rs:44-54 | rings that hold the vnodes of the same silo ids send every key to the same silo id |
| `Rings.SpreadIsCollisionFree` | crates/orlando-cluster/src/hash_ring.rs:30-35 | if the hash sends different vnode labels to different positions, the vnodes of different silos never collide, whatever the silo ids contain |
| `Rings.SpreadFillsVnodes` | crates/orlando-cluster/src/hash_ring.rs:30-35 | and every silo gets its full number of positions |
| `Text.LabelInjective` | crates/orlando-cluster/src/hash_ring.rs:10-14 | a label of a text and a number tells both, whatever the text contains |
| `Rings.HashRing.constructor` | crates/orlando-cluster/src/hash_ring.rs:23-28 | a new ring is empty |
| `Rings.HashRing.Add` | crates/orlando-cluster/src/hash_ring.rs:30-35 | the insertion loop leaves the old ring with exactly the silo's vnodes pointing to it |
| `Rings.HashRing.Remove` | crates/orlando-cluster/src/hash_ring.rs:37-42 | the removal loop drops exactly the silo's vnode positions |
| `Rings.HashRing.Members` | crates/orlando-cluster/src/hash_ring.rs:56-65 | every silo id on the ring once, with the address at its first ring position, in the order of those positions |
| `SwimSilo.QueueKeepsNewest` | crates/orlando-cluster/src/swim.rs:89-97 | the bounded gossip queue holds the newest 1024 of everything enqueued, in order |
| `SwimSilo.DrainsConserveQueue` | crates/orlando-cluster/src/swim.rs:79-82 | draining hands out every queued rumour once, in order: over any drains, what was handed out and what is left are the queue as it was |
| `SwimSilo.SwimState.constructor` | crates/orlando-cluster/src/swim.rs:69-77 | a new silo knows no members, is at incarnation 0 and has only itself on its ring |
| `SwimSilo.SwimState.DrainGossip` | crates/orlando-cluster/src/swim.rs:79-83 | returns the oldest n queued updates and keeps the rest |
| `SwimSilo.SwimState.EnqueueGossip` | crates/orlando-cluster/src/swim.rs:89-97 | appends, dropping the oldest update when the queue is full |
| `SwimSilo.SwimState.UpdateRing` | crates/orlando-cluster/src/swim.rs:186-195 | the ring loses all buried silos and then gains all admitted ones |
| `SwimSilo.SwimState.ApplyGossip` | crates/orlando-cluster/src/swim.rs:103-196 | the loop leaves table, incarnation, queue and ring as the one-update-at-a-time table semantics and the batched ring update say |
| `SwimSilo.SwimState.SuspectMember` | crates/orlando-cluster/src/swim.rs:199-221 | an Alive member becomes Suspect and the rumour is queued at its recorded incarnation; any other member is left alone |
| `SwimSilo.SwimState.DeclareDead` | crates/orlando-cluster/src/swim.rs:223-243 | a known member leaves table and ring and its Dead rumour is queued |
| `SwimSilo.SwimState.ScanExpired` | crates/orlando-cluster/src/swim.rs:475-492 | lists each suspect older than the timeout once and no one else |
| `SwimSilo.SwimState.BuryAll` | crates/orlando-cluster/src/swim.rs:494-499 | table, queue and ring are those of burying the listed silos one after the other |
| `SwimSilo.SwimState.ExpireSuspects` | crates/orlando-cluster/src/swim.rs:470-500 | undisturbed, exactly the suspects older than the timeout are buried, with their vnodes removed and their Dead rumours queued in the order of the scan |
| `SwimSilo.DeathsLeaveTheOthers` | crates/orlando-cluster/src/swim.rs:494-499 | exactly the listed silos lose their records; all others keep theirs |
| `SwimSilo.DeathSpreads` | crates/orlando-cluster/src/swim.rs:223-241 | a burial queues a rumour that buries the silo in every table that records it no higher |
| `SwimSilo.SwimState.Join` | crates/orlando-cluster/src/membership.rs:125-140 | the joiner goes on the ring; an unknown one gets a record at incarnation 0 and a Join rumour |
| `SwimSilo.SwimState.IsKnown` | crates/orlando-cluster/src/membership.rs:166-172 | the check made without the lock: whether the silo is on the ring |
| `SwimSilo.SwimState.NotifyJoin` | crates/orlando-cluster/src/membership.rs:174-189 | on a check that said unknown, at whatever earlier time, the silo is added to the ring and its record overwritten at incarnation 0; otherwise nothing changes |
| `SwimSilo.SwimState.NotifyLeave` | crates/orlando-cluster/src/membership.rs:209-227 | on a check that said known, at whatever earlier time, the silo is dropped from ring and table; otherwise nothing changes |
| `SwimSilo.SwimState.JoinCluster` | crates/orlando-cluster/src/cluster_silo.rs:223-245 | every silo of the seed's answer goes on the ring, and every one but the local silo is recorded at incarnation 0 |
| `SwimSilo.IncarnationNeverFalls` | crates/orlando-cluster/src/swim.rs:115-167 | over every sequence of SWIM steps through which a member stays in the table, its recorded incarnation never falls |
| `SwimSilo.GossipOnlyRaises` | crates/orlando-cluster/src/swim.rs:115-167 | gossip alone only raises (incarnation, suspected) lexicographically |
| `SwimSilo.StaleRumourHasNoEffect` | crates/orlando-cluster/src/swim.rs:142-167 | a Suspect or Dead rumour older than an incarnation accepted earlier in the run changes nothing about the member |
| `SwimRing.OneByOneAgrees` | crates/orlando-cluster/src/swim.rs:110-184 | if each update touched the ring on its own, the ring would hold exactly the member table plus the local silo |
| `SwimRing.BatchedSameAt` | crates/orlando-cluster/src/swim.rs:186-195 | away from silos the batch both admitted and buried, removals-then-additions leave the entries one-by-one updates would |
| `SwimRing.FollowsTable` | crates/orlando-cluster/src/swim.rs:115-184 | the updates of a batch that name a silo and its old record alone determine its record afterwards and whether the batch put it on the ring |
| `SwimRing.BatchAgreesIff` | crates/orlando-cluster/src/swim.rs:110-195 | a gossip batch leaves ring and table agreeing, and the ring equal to the one-by-one ring, exactly when following each named silo through it finds none admitted on the way and gone at the end |
| `SwimRing.OwnJoinLingers` | crates/orlando-cluster/src/swim.rs:186-195 | every silo a batch admits and then buries stays on the ring without a member record |
| `SwimRing.JoinThenDeadLeavesRingAhead` | crates/orlando-cluster/src/swim.rs:110-195 | the smallest such batch: join a silo, then report it dead |
| `SwimRing.NoDeathAfterJoinSuffices` | crates/orlando-cluster/src/swim.rs:115-167 | a batch with no Dead update after a Join of the same silo never buries its own join |
| `SwimRing.StepAgrees` | crates/orlando-cluster/src/membership.rs:108-232 | every join, notify, seed-reply, gossip, suspicion and death step keeps ring and table in agreement, unless it tells the local silo to leave, declares it dead while it is recorded, or is a batch that buries its own join |
| `SwimRing.StepAgreesIff` | crates/orlando-cluster/src/membership.rs:108-232 | a step keeps ring and table in agreement exactly when it is none of those three |
| `SwimRing.RingMatchesTable` | crates/orlando-cluster/src/swim.rs:110-243 | in every run from a fresh silo without those three kinds of step the ring's silo ids are the member-table ids plus the local id |
| `SwimRing.RingMatchesTableIff` | crates/orlando-cluster/src/swim.rs:110-243 | for every run from a fresh silo, ring and table agree after every step exactly when the run has none of those three kinds of step |
| `SwimRing.NotifyLeaveOfSelfEmptiesRing` | crates/orlando-cluster/src/membership.rs:196-227 | a `notify_leave` that names the local silo passes its check and leaves a fresh silo with an empty ring |
| `SwimRing.SurvivesBurialIff` | crates/orlando-cluster/src/swim.rs:475-499 | after every run of membership steps between the scan for expired suspects and their burial, a recorded silo survives the burial exactly when it was not an expired suspect at the scan |
| `SwimRing.RefutationAfterScanIsInVain` | crates/orlando-cluster/src/swim.rs:475-499 | a run from a fresh silo in which a silo joins, is suspected, expires, is scanned, refutes, is Alive, and is buried |
| `SwimRing.SuspicionHasCause` | crates/orlando-cluster/src/swim.rs:358-397 | in every run from a fresh silo, a suspicion was raised by some step at the time it carries, and no answered ping or overwritten record came after |
| `SwimRing.ScanFindsOldSuspicion` | crates/orlando-cluster/src/swim.rs:477-492 | in every run a scan lists a silo only if some step suspected it more than the timeout ago and it has answered no ping since |
| `SwimRing.SilentMemberIsBuried` | crates/orlando-cluster/src/swim.rs:393-500 | a member that fails a ping and is not heard of again is buried by a scan past the timeout, whatever else happens in between, and its death is queued as gossip if it is buried last |
| `SwimRing.ConvergedSilosRouteAlike` | crates/orlando-cluster/src/hash_ring.rs:44-54 | two silos whose runs end with the same live ids place every grain on the same silo |
| `SwimRing.WithoutReadmissionOnlyRises` | crates/orlando-cluster/src/swim.rs:115-184 | a batch that does not readmit a silo never lowers its record, and readmission takes a Dead rumour at or above the record |
| `SwimRing.RecordFallsIff` | crates/orlando-cluster/src/membership.rs:108-232 | for every membership step, the recorded incarnation of a member present before and after falls exactly when `notify_join` or a seed's answer overwrites a record above zero, or a batch readmits the silo and does not raise it as far again |
| `SwimRing.NotifyJoinOverwritesOnlyAfterRace` | crates/orlando-cluster/src/membership.rs:166-189 | in every run, if `notify_join` saw its silo off the ring and its insert finds a record, a step between check and insert admitted that silo |
| `SwimRing.NotifyJoinRaceLowersRecord` | crates/orlando-cluster/src/membership.rs:166-189 | a run from a fresh silo in which that race resets a record from 1 to 0 |
| `SwimCluster.UpdateKeepsBound` | crates/orlando-cluster/src/swim.rs:115-184 | one update keeps every incarnation below its owner's and raises the own one exactly on a suspicion at the current incarnation |
| `SwimCluster.StepKeepsNoneAbove` | crates/orlando-cluster/src/swim.rs:103-242 | every cluster event, with messages lost, duplicated or reordered, keeps the bound and no own incarnation falls |
| `SwimCluster.NoIncarnationAboveOwn` | crates/orlando-cluster/src/swim.rs:103-242 | in every run of any number of silos no table, queue or in-flight rumour holds an incarnation of a silo above that silo's own |
| `SwimCluster.RefutationAddsExactlyOne` | crates/orlando-cluster/src/swim.rs:127-141 | in every run each self-refutation raises the incarnation by exactly one, to one above the suspicion it answers |
| `SwimCluster.RestartKeepsBoundIff` | crates/orlando-cluster/src/swim.rs:69-77 | a restart under the old id keeps the bound exactly when no other silo, queue or message remembers it above incarnation zero |
| `SwimCluster.RestartBeforeRefutationIsSafe` | crates/orlando-cluster/src/swim.rs:69-77 | in every run a silo that never raised its incarnation may restart |
| `SwimCluster.RestartAfterRefutationBreaksBound` | crates/orlando-cluster/src/swim.rs:127-141 | a run of two silos in which a silo refutes once, sends that out, and its restart breaks the bound |
| `SwimCluster.DeathIsHeardIff` | crates/orlando-cluster/src/swim.rs:154-167 | after every run, a silo that declares a member dead and sends that makes a silo it reaches forget the member exactly when that one had not recorded a higher incarnation |
| `SwimCluster.SuspicionIsAnsweredIff` | crates/orlando-cluster/src/swim.rs:127-141 | after every run, a silo that learns it is suspected answers exactly when the suspicion is at its own incarnation; at an older one it changes nothing and queues nothing |
| `SwimCluster.AnswerClearsSuspicion` | crates/orlando-cluster/src/swim.rs:115-126 | after every run, the answer makes the suspecting silo record it as Alive at the new incarnation |
| `SwimCluster.JoinIsHeard` | crates/orlando-cluster/src/swim.rs:168-184 | after every run, a silo that joins at one silo is recorded as new by any other that did not know it and gets its Join rumour |
| `Journal.RecoveryIsFold` | crates/orlando-persistence/src/journaled_mailbox.rs:123-195 | snapshot plus suffix replay is the fold of the whole journal, whether or not the snapshot could be read or decoded |
| `Journal.RunNumbered` | crates/orlando-persistence/src/journaled_mailbox.rs:25-121 | in every run, with any failures, the journal holds exactly the events ever appended, numbered from 1, and no readable snapshot or live activation is numbered beyond them |
| `Journal.RecoveryInEveryRun` | crates/orlando-persistence/src/journaled_mailbox.rs:123-195 | in every run, with any failures, `load_state` counts all events ever appended and applies exactly those after the snapshot it starts from, in order |
| `Journal.RunRecords` | crates/orlando-persistence/src/journaled_mailbox.rs:25-121 | over every run of asks, snapshots, crashes, panics and reactivations with working appends and loads and harmless hooks, a snapshot is moreover the fold of a prefix, and a live activation is its hook's state with the later events applied |
| `Journal.RecoveryAfterAnyRun` | crates/orlando-persistence/src/journaled_mailbox.rs:123-195 | in every such run `load_state` returns the fold over all events ever appended, and their count |
| `Journal.AlwaysRecoversIffHarmless` | crates/orlando-persistence/src/journaled_mailbox.rs:50-121 | recovery is the fold in every such run exactly when the hooks are harmless: the periodic and final snapshots they let through hold the fold of the journal |
| `Journal.NeutralHooksMatchRecovery` | crates/orlando-persistence/src/journaled_mailbox.rs:25-121 | hooks that leave the state alone are harmless, and then a live activation holds exactly what recovery would return |
| `Journal.CounterCountsSinceMark` | crates/orlando-persistence/src/persistent_silo.rs:658-700 | over the asks of an activation, however appends and saves fare, the counter is the number of events journaled since its last snapshot or its start |
| `Journal.SnapshotIffIntervalPassed` | crates/orlando-persistence/src/persistent_silo.rs:680-700 | an ask ends with a snapshot exactly when it has events, the state can be encoded and saved, and the interval has passed since the last one, counted in journaled events |
| `Journal.FewerThanIntervalUncovered` | crates/orlando-persistence/src/persistent_silo.rs:680-700 | where saves and encodings work, fewer events than the interval are ever without a snapshot between asks |
| `Journal.AskRecoversIff` | crates/orlando-persistence/src/persistent_silo.rs:637-713 | whatever fails in an ask and whatever memory held before it, recovery agrees with memory afterwards exactly when the journal leads to the same state; or, if a snapshot was taken and can be read, when events were appended or those above the activation's number change nothing |
| `Journal.AskRecoversInRunIff` | crates/orlando-persistence/src/persistent_silo.rs:637-713 | the same of one more ask after every run, with any failures |
| `Journal.RecordedAskRecoversIff` | crates/orlando-persistence/src/persistent_silo.rs:637-713 | where recovery led to the fold of the journal and the activation is at its end, whatever memory holds, recovery agrees with memory after the ask exactly when memory is the fold of the journal as it is then, or a snapshot was taken and can be read |
| `Journal.FailedAppendDivergesIff` | crates/orlando-persistence/src/persistent_silo.rs:658-713 | there, after a failed append recovery agrees with memory exactly when memory is the fold of the journal as it was, or a snapshot was already due, was saved, and can be read |
| `Journal.LaterAskDoesNotHeal` | crates/orlando-persistence/src/persistent_silo.rs:637-713 | a run in which an append fails and the next ask succeeds in full, and recovery and memory still differ |
| `Journal.FailedAppendLosesEvent` | crates/orlando-persistence/src/persistent_silo.rs:658-678 | a two-step run in which a failed append makes recovery and memory differ, for every event that changes the first state |
| `Journal.OverdueSnapshotCoversFailedAppend` | crates/orlando-persistence/src/persistent_silo.rs:658-700 | a run in which a snapshot is overdue when the append fails: recovery agrees with memory if the snapshot can be read and not otherwise |
| `Journal.FailedEventLoadIsCompleteIff` | crates/orlando-persistence/src/journaled_mailbox.rs:160-167 | when events cannot be loaded recovery is complete exactly when the snapshot it starts from is numbered as the last event |
| `Journal.FailedLoadDamageLasts` | crates/orlando-persistence/src/journaled_mailbox.rs:88-167 | after every run that left no snapshot, one failed event load, one ask and a graceful end write a snapshot that hides all earlier events from every later recovery that can read it |
| `Journal.DeactivationKeepsFoldIff` | crates/orlando-persistence/src/journaled_mailbox.rs:88-107 | after a graceful deactivation recovery is the fold exactly when the events above the activation's number lead there from the state `on_deactivate` left, even by panicking; or, if its snapshot is not saved or not readable, when recovery led there before |
| `Journal.PanickedHookIsRecovered` | crates/orlando-persistence/src/journaled_mailbox.rs:90-107 | a two-step run without any event after which recovery returns whatever the panicking hook left |
| `Journal.InMemoryJournalStore.constructor` | crates/orlando-persistence/src/memory_journal_store.rs:41-46 | a new store holds an empty journal for every grain |
| `Journal.InMemoryJournalStore.Append` | crates/orlando-persistence/src/memory_journal_store.rs:50-76 | appends the payloads under consecutive sequence numbers; other grains keep their journals |
| `Journal.InMemoryJournalStore.LoadEventsAfter` | crates/orlando-persistence/src/memory_journal_store.rs:89-105 | returns the entries above the sequence, in order |
| `Journal.InMemoryJournalStore.SaveSnapshot` | crates/orlando-persistence/src/memory_journal_store.rs:107-120 | replaces the grain's snapshot only |
| `Journal.LoadState` | crates/orlando-persistence/src/journaled_mailbox.rs:123-195 | the load-and-replay loop computes the recovery function, unreadable snapshots and failed event loads included |
| `Journal.JournaledState.constructor` | crates/orlando-persistence/src/journaled_mailbox.rs:38-54 | an activation starts from the recovered state after its hook, the recovered sequence, and no events counted |
| `Journal.JournaledState.Persist` | crates/orlando-persistence/src/persistent_silo.rs:643-673 | appends exactly the events that could be encoded, if any and if the append works, and then advances sequence and event count |
| `Journal.JournaledState.ApplyAll` | crates/orlando-persistence/src/persistent_silo.rs:675-678 | the apply loop folds the events into the state |
| `Journal.JournaledState.SnapshotIfDue` | crates/orlando-persistence/src/persistent_silo.rs:680-711 | snapshots the state at the current sequence exactly when one is due, the state can be encoded and the save works |
| `Journal.JournaledState.HandleAsk` | crates/orlando-persistence/src/persistent_silo.rs:637-713 | append, apply and snapshot trigger together do what the ask step says, failures included; other grains are untouched |
| `Journal.JournaledState.Deactivate` | crates/orlando-persistence/src/journaled_mailbox.rs:90-107 | the hook's state, or what its panic left, is snapshotted at the current sequence if it can be encoded and saved |
| `Activation.RunMailbox` | crates/orlando-core/src/mailbox.rs:22-91 | however the loop ends the activation is Closed and removed; the messages up to the first panic or timeout were handled, and `on_deactivate` runs exactly when nothing panicked |
| `Activation.HandledUpToFirstStop` | crates/orlando-core/src/mailbox.rs:43-72 | the handled messages are those before the first timeout, up to and including the first that panics, and the loop ends in a panic exactly when the last of them panicked |
| `Activation.GetOrInsertAnswers` | crates/orlando-runtime/src/directory.rs:182-259 | a call to a grain with an open entry gets it, with the directory full, draining or neither; it is turned away exactly when there is none and the directory is full or draining; otherwise the grain gets a new activation |
| `Activation.GrainDirectory.constructor` | crates/orlando-runtime/src/directory.rs:35-51 | a new directory has no activations, the given limit, and is not draining |
| `Activation.GrainDirectory.GetOrInsertSender` | crates/orlando-runtime/src/directory.rs:182-259 | the draining, full, live-entry, stale-entry and vacant branches give the sender and the map of the directory specification |
| `Activation.GrainDirectory.Remove` | crates/orlando-runtime/src/directory.rs:157-172 | drops the grain's entry and no other |
| `SingleActivation.StepKeepsExclusive` | crates/orlando-runtime/src/directory.rs:220-258 | every caller or mailbox step keeps the invariant that a non-deregistered activation is its grain's directory entry |
| `SingleActivation.AtMostOneActivation` | crates/orlando-runtime/src/directory.rs:220-258 | in every interleaving of callers and mailbox tasks at most one activation of a grain has not deregistered, two never handle messages at once, and no stale entry is ever replaced |
| `SingleActivation.AnswersAreLive` | crates/orlando-runtime/src/directory.rs:182-259 | in every interleaving, with any removals and drains, a caller gets the sender in the directory, of an activation of that grain which has not deregistered, and is turned away exactly at the check, when the directory is full or draining and has no entry for the grain |
| `SingleActivation.LiveActivationIsReached` | crates/orlando-runtime/src/directory.rs:186-218 | in every interleaving, a call to a grain whose entry was not removed from outside and which has a live activation gets that activation, with the directory full or draining |
| `SingleActivation.CheckThenEntryIsGetOrInsert` | crates/orlando-runtime/src/directory.rs:182-259 | with nothing in between, the check and the map entry together are `get_or_insert` |
| `SingleActivation.DrainStopsActivations` | crates/orlando-runtime/src/directory.rs:80-103 | in every interleaving, once a drain has begun no more activations are created than callers were past the check at that time |
| `SingleActivation.OutsideRemovalKeepsExclusiveIff` | crates/orlando-cluster/src/rebalancer.rs:84-95 | removing an entry from outside the mailbox keeps the invariant exactly when there was no entry |
| `SingleActivation.OutsideRemovalAllowsSecondActivation` | crates/orlando-runtime/src/directory.rs:88-103 | after such a removal the next caller gets a second activation beside the first |
| `SingleActivation.LiveBoundedByRemovals` | crates/orlando-runtime/src/directory.rs:157-258 | in every interleaving with any removals from outside, a grain has at most one live activation more than its entry was removed |
| `SingleActivation.RemovalsPileUp` | crates/orlando-cluster/src/rebalancer.rs:84-95 | that bound is reached for every number of removals by the rebalancer, whatever the activation limit |
| `SingleActivation.OverlapGoesOn` | crates/orlando-core/src/mailbox.rs:84-91 | the earlier activation's own removal takes out the later one's entry, so a third starts while the second runs |
| `SingleActivation.OneRemovalOverlapsForever` | crates/orlando-cluster/src/rebalancer.rs:84-95 | one removal by the rebalancer is enough: for every n some run with a single removal reaches the n-th overlap |
| `SingleActivation.ActivationsBounded` | crates/orlando-runtime/src/directory.rs:200-258 | with the limit check and the insert as separate steps, activations never exceed the limit minus one plus the number of callers, hence never the limit when calls are serial |
| `SingleActivation.BoundIsReached` | crates/orlando-runtime/src/directory.rs:200-258 | for every limit and every number of callers some run reaches that bound |
| `CrossCluster.EpochsNeverFall` | crates/orlando-cluster/src/cross_cluster_directory.rs:100-132 | in every run of registrations, promotions and deregistrations a grain's record, until it is withdrawn, gives way only to a strictly larger epoch |
| `CrossCluster.AnswerIsRecorded` | crates/orlando-cluster/src/cross_cluster_directory.rs:100-132 | the answer to an attempt is the record the directory then holds |
| `CrossCluster.OneClusterPerEpoch` | crates/orlando-cluster/src/cross_cluster_directory.rs:100-132 | in every run two answers about a grain with the same epoch are the same, unless its record was withdrawn between them |
| `CrossCluster.WinsIffNotFenced` | crates/orlando-cluster/src/cross_cluster_directory.rs:110-132 | an attempt wins exactly when its epoch beats the record; otherwise nothing changes and the standing record is returned |
| `CrossCluster.WithdrawnIffOwnerDeregisters` | crates/orlando-cluster/src/cross_cluster_directory.rs:134-152 | a record is withdrawn exactly by a deregistration of its recorded owner |
| `CrossCluster.WithdrawalRegrantsEpoch` | crates/orlando-cluster/src/cross_cluster_directory.rs:134-152 | a run in which a withdrawal lets the same epoch be granted to two clusters, for every epoch and clusters |
| `CrossCluster.ContestDecides` | crates/orlando-cluster/src/cross_cluster_directory.rs:100-152 | after every run, the record of a key that had none before some attempts is decided by following the attempts on that key alone |
| `CrossCluster.FirstLargestHolds` | crates/orlando-cluster/src/cross_cluster_directory.rs:110-132 | of any attempts on a key without withdrawals, the first with the largest epoch holds the grain |
| `CrossCluster.GrainsAreIndependent` | crates/orlando-cluster/src/cross_cluster_directory.rs:85-87 | attempts on a grain leave every other grain's record alone when type names contain no '/' |
| `CrossCluster.InMemoryCrossClusterDirectory.constructor` | crates/orlando-cluster/src/cross_cluster_directory.rs:81-83 | a new directory is empty |
| `CrossCluster.InMemoryCrossClusterDirectory.RegisterGrain` | crates/orlando-cluster/src/cross_cluster_directory.rs:100-132 | both fenced branches and the write leave the directory and answer of the fenced compare-and-swap |
| `CrossCluster.InMemoryCrossClusterDirectory.DeregisterGrain` | crates/orlando-cluster/src/cross_cluster_directory.rs:134-152 | only the owner's own entry is removed |
| `CrossCluster.InMemoryCrossClusterDirectory.ListOwnedBy` | crates/orlando-cluster/src/cross_cluster_directory.rs:154-167 | lists exactly the grains the cluster owns, each once |
| `Failover.SweepIff` | crates/orlando-cluster/src/failover.rs:96-193 | a sweep is attempted at a check exactly when the peer is Unreachable there, its grace period ended at an earlier check of the same outage and no sweep has completed since |
| `Failover.SweepOnlyAfterGrace` | crates/orlando-cluster/src/failover.rs:103-155 | a sweep runs only on a peer seen Unreachable at a check at least the grace period earlier and never Healthy since |
| `Failover.PromotedUntilHealthy` | crates/orlando-cluster/src/failover.rs:96-193 | once promoted, the phase stays so until the peer is seen Healthy |
| `Failover.OneSweepPerOutage` | crates/orlando-cluster/src/failover.rs:96-193 | between two completed sweeps of a peer it was seen Healthy |
| `Failover.SweepMovesGrains` | crates/orlando-cluster/src/failover.rs:136-193 | an undisturbed sweep moves exactly the peer's grains whose promotion does not fail, one epoch up, touches nothing else, and leaves the peer nothing if none fails |
| `Failover.SweepLosesNothing` | crates/orlando-cluster/src/failover.rs:156-187 | in an undisturbed sweep every grain is promoted or its promotion failed, as often as there are failing grains in the list; none is lost to another cluster |
| `Failover.SweepRecordsLargestEpoch` | crates/orlando-cluster/src/failover.rs:156-191 | in an undisturbed sweep the recorded epoch is the largest new epoch of the promoted grains, and zero if none was promoted |
| `Failover.FailoverManager.constructor` | crates/orlando-cluster/src/failover.rs:65-80 | every peer starts in the Monitoring phase |
| `Failover.FailoverManager.PromoteGrain` | crates/orlando-cluster/src/failover.rs:204-242 | registers the grain locally one above the epoch that was seen and returns the directory's answer |
| `Failover.FailoverManager.Sweep` | crates/orlando-cluster/src/failover.rs:156-187 | the promotion loop leaves the directory, the largest granted epoch and the counts of promoted, lost and failed grains of the sweep specification |
| `Failover.FailoverManager.CheckPeer` | crates/orlando-cluster/src/failover.rs:96-193 | one peer's turn advances its phase as specified, leaves the other peers' phases alone, sweeps exactly when a sweep is due and the listing works, and records the largest epoch granted |
| `StateStore.InMemoryStateStore.constructor` | crates/orlando-persistence/src/memory_store.rs:27-32 | a new store is empty with its counter at its start |
| `StateStore.InMemoryStateStore.NextEtag` | crates/orlando-persistence/src/memory_store.rs:34-37 | returns the rendered counter and advances it |
| `StateStore.InMemoryStateStore.Save` | crates/orlando-persistence/src/memory_store.rs:46-51 | stores the bytes under a new etag; other grains are untouched |
| `StateStore.InMemoryStateStore.Delete` | crates/orlando-persistence/src/memory_store.rs:53-57 | removes the grain's record only |
| `StateStore.InMemoryStateStore.SaveWithEtag` | crates/orlando-persistence/src/memory_store.rs:69-110 | writes exactly when the expected etag, or expected absence, matches, and leaves the data alone otherwise |
| `OptimisticConcurrency.EtagsAreUnique` | crates/orlando-persistence/src/memory_store.rs:34-110 | in every interleaving of saves, deletes and conditional saves on any grains each successful write carries an etag never used before |
| `OptimisticConcurrency.SucceedsIffUntouched` | crates/orlando-persistence/src/memory_store.rs:69-110 | a conditional save against an etag goes through exactly when nothing wrote or deleted the grain since that etag was issued |
| `OptimisticConcurrency.CommitAppliesToCurrent` | crates/orlando-persistence/src/memory_store.rs:59-110 | a load/modify/conditional-save that goes through writes its update of the value it replaces |
| `OptimisticConcurrency.NoLostUpdates` | crates/orlando-persistence/src/memory_store.rs:59-110 | after every interleaving the store holds what the committed operations yield when run one after the other |
| `OptimisticConcurrency.AbsenceIsNotFenced` | crates/orlando-persistence/src/memory_store.rs:75-90 | a client that saw no state may save although the grain was written and deleted in between |
| `Persistence.LoopStaysConsistent` | crates/orlando-persistence/src/persistent_mailbox.rs:222-314 | under every strategy an Idle loop holds the handler fold over its completed turns and the store the fold over a prefix of them |
| `Persistence.WriteThroughIdleIsDurable` | crates/orlando-persistence/src/persistent_mailbox.rs:222-352 | under write-through, whenever the loop is Idle after a message the store holds exactly the in-memory state |
| `Persistence.WriteThroughStopsAtFault` | crates/orlando-persistence/src/persistent_mailbox.rs:222-314 | the write-through loop completes exactly the turns before the first panic, failed save or failed encoding |
| `Persistence.WriteBackLosesLessThanInterval` | crates/orlando-persistence/src/persistent_mailbox.rs:316-352 | under write-back every completed turn not yet saved was done less than the interval after the last save or the loop's start |
| `Persistence.WriteBackSavesIff` | crates/orlando-persistence/src/persistent_mailbox.rs:331-340 | under write-back a turn ends in a save exactly when its state could be saved and the interval has passed since the last saving turn, or the loop's start |
| `Persistence.WriteOnDeactivateSavesNothing` | crates/orlando-persistence/src/persistent_mailbox.rs:341-350 | under write-on-deactivate the loop leaves the store alone, stops only at a panic, and hands every state it could encode to the replication sink |
| `Persistence.WriteOnDeactivateIsAllOrNothing` | crates/orlando-persistence/src/persistent_mailbox.rs:43-93 | under write-on-deactivate an activation is stored as a whole or not at all |
| `Persistence.EverySaveIsSent` | crates/orlando-persistence/src/persistent_mailbox.rs:262-272 | under write-through and write-back an activation replicates every durable state: what is stored at its end is the last payload it sent, or what was stored before if it sent none |
| `Persistence.GracefulEndStores` | crates/orlando-persistence/src/persistent_mailbox.rs:66-86 | under every strategy a graceful end whose final save works in three attempts stores what `on_deactivate` made of the state, or what it left behind by panicking |
| `Persistence.PanickedHookIsStored` | crates/orlando-persistence/src/persistent_mailbox.rs:208-212 | a hook that panics in an activation without messages replaces whatever was stored by what it left |
| `Persistence.NextActivationStartsFromSurvivors` | crates/orlando-persistence/src/persistent_mailbox.rs:43-93 | over every sequence of write-through activations, with failed loads, panics in handlers and hooks, failed saves, failed final saves and crashes, the next activation that loads starts from exactly the messages before each fault |
| `Persistence.FailedLoadOverwritesIff` | crates/orlando-persistence/src/persistent_mailbox.rs:444-473 | under every strategy an activation whose load failed replaces what was stored by bytes that owe nothing to it exactly when it saves anything at all, and otherwise leaves it |
| `Persistence.FailedLoadLosesState` | crates/orlando-persistence/src/persistent_mailbox.rs:444-473 | one message after a failed load: whatever was stored, the store ends up with the message applied to the default |
| `Persistence.SaveWithRetry` | crates/orlando-persistence/src/persistent_mailbox.rs:538-559 | saves exactly when one of the first three attempts succeeds, and touches no other grain |
| `Persistence.FinishTurn` | crates/orlando-persistence/src/persistent_mailbox.rs:250-352 | after a handler returned, the store, the last-save time, the state of the loop and what is handed to the replication sink follow the strategy's plan |
| `Persistence.SequentialLoop` | crates/orlando-persistence/src/persistent_mailbox.rs:222-314 | the message loop ends with the state, fault, stored bytes and replicated payloads of the loop specification |
| `Persistence.RunActivation` | crates/orlando-persistence/src/persistent_mailbox.rs:43-93 | load, activate, loop, deactivate and final save leave the stored bytes and replicated payloads of the activation specification, a panicking `on_deactivate` included |
| `Replication.PumpKeepsSound` | crates/orlando-cluster/src/replication_producer.rs:15-44 | the pump never meets a sequence conflict: what is in the channel lies above what is in the log |
| `Replication.StepKeepsSound` | crates/orlando-persistence/src/replication_log.rs:87-175 | every save, send, drop, pump, truncate and poll step keeps the chain sound and the consumer's cursor from falling |
| `Replication.ReplicaNeverGoesBack` | crates/orlando-cluster/src/replication_consumer.rs:64-145 | in every run the replica's sequence never decreases |
| `Replication.ReplicaShowsDurableState` | crates/orlando-cluster/src/store_wrapper.rs:37-60 | in every run the replica shows the payload sent under its sequence, and that is a state the primary had made durable |
| `Replication.ReplicaFollowsSaveOrder` | crates/orlando-cluster/src/replication_consumer.rs:64-145 | the durable states a replica shows succeed each other in the order the primary saved them |
| `Replication.PollConsumes` | crates/orlando-cluster/src/replication_consumer.rs:64-145 | one poll consumes exactly the first hundred unread entries |
| `Replication.TruncationKeepsNewestIff` | crates/orlando-persistence/src/replication_log.rs:156-175 | truncation keeps the newest entry exactly when it cuts at or below it |
| `Replication.CatchesUp` | crates/orlando-cluster/src/replication_consumer.rs:64-145 | in every run whose truncations kept the newest entry, ceil(n / 100) successful polls over n unread entries leave the replica showing the newest entry's payload |
| `Replication.PumpMovesChannel` | crates/orlando-cluster/src/replication_producer.rs:15-44 | where every append is accepted the pump moves the whole channel to the end of the log |
| `Replication.PumpEachAppends` | crates/orlando-cluster/src/replication_producer.rs:15-44 | the pump's steps take entries out of the channel and append the accepted ones in order; one whose append failed is in neither |
| `Replication.SettlesAtLastQueued` | crates/orlando-cluster/src/replication_producer.rs:15-44 | after every run whose truncations kept the newest entry, pumping the channel and polling ceil(n / 100) times shows the last payload in the pipe |
| `Replication.SavedStateArrivesIffRoom` | crates/orlando-persistence/src/replication_sink.rs:45-71 | after every such run, one more save and send: once settled, the replica shows the new state if the channel had room, and otherwise what it would have shown without |
| `Replication.TruncatedExactly` | crates/orlando-persistence/src/replication_log.rs:156-175 | truncation drops exactly the entries below the cut |
| `Replication.DeltaHidesItsBatch` | crates/orlando-cluster/src/replication_consumer.rs:91-110 | a full state that is read together with a delta is never shown, however often the log is polled |
| `Replication.InMemoryReplicationLog.constructor` | crates/orlando-persistence/src/replication_log.rs:76-78 | a new log is empty |
| `Replication.InMemoryReplicationLog.Append` | crates/orlando-persistence/src/replication_log.rs:87-109 | appends, or reports a conflict at or below the last sequence and changes nothing |
| `Replication.InMemoryReplicationLog.Read` | crates/orlando-persistence/src/replication_log.rs:111-136 | the filtering loop returns the first entries above the sequence, up to the limit |
| `Replication.InMemoryReplicationLog.TruncateBefore` | crates/orlando-persistence/src/replication_log.rs:156-175 | keeps exactly the entries at or above the cut and reports how many went |
| `Replication.ReplicationConsumer.constructor` | crates/orlando-cluster/src/replication_consumer.rs:43-62 | a consumer starts at sequence zero |
| `Replication.ReplicationConsumer.PollOnce` | crates/orlando-cluster/src/replication_consumer.rs:64-145 | one turn of the polling loop moves cursor and replica as specified; a failed read changes nothing |
| `Replication.ReplicationSink.constructor` | crates/orlando-persistence/src/replication_sink.rs:28-43 | a sink numbers from the given start with an empty channel |
| `Replication.ReplicationSink.SendSnapshot` | crates/orlando-persistence/src/replication_sink.rs:45-71 | queues the payload under the next number, or drops it and spends the number |
| `Replication.ReplicationSink.PumpAll` | crates/orlando-cluster/src/replication_producer.rs:15-44 | draining the channel leaves the log with the accepted entries appended in order, and the logs of other grains alone |
| `MembershipTable.ListingUnique` | crates/orlando-cluster/src/membership_table.rs:184-192 | whatever order the rows are enumerated in, the sorted view is the same |
| `MembershipTable.RingServesOnlyActive` | crates/orlando-cluster/src/membership_table.rs:111-117 | the ring of a view serves every position from a row that is Active |
| `MembershipTable.RingHoldsActive` | crates/orlando-cluster/src/membership_table.rs:90-117 | where vnodes do not collide, the ring of a view holds every vnode of each Active silo and no other |
| `MembershipTable.VersionCountsWinners` | crates/orlando-cluster/src/membership_table.rs:201-216 | successful updates carry versions 1, 2, 3, ...: the version is their count |
| `MembershipTable.AtMostOneWinnerPerVersion` | crates/orlando-cluster/src/membership_table.rs:201-216 | a winner produces the version one above the one it expected, and writers sharing an expected version have at most one winner |
| `MembershipTable.TableIsFoldOfWinners` | crates/orlando-cluster/src/membership_table.rs:201-229 | in every interleaving, heartbeats aside, the table is the fold of the winning updates |
| `MembershipTable.RowsCarryLastSign` | crates/orlando-cluster/src/membership_table.rs:201-229 | in every interleaving each row carries the last sign of life of its silo, from its last winning update or a heartbeat since |
| `MembershipTable.SameUpdatesSameRing` | crates/orlando-cluster/src/membership_table.rs:111-117 | tables with the same winning updates are at the same version, list the same rows in the same order up to heartbeat times, and build the same ring |
| `MembershipTable.InMemoryMembershipTable.constructor` | crates/orlando-cluster/src/membership_table.rs:179-181 | a new table is empty at version zero |
| `MembershipTable.InMemoryMembershipTable.ReadAll` | crates/orlando-cluster/src/membership_table.rs:184-199 | the view lists every row once, sorted by silo id, at the table's version |
| `MembershipTable.InMemoryMembershipTable.TryUpdateEntry` | crates/orlando-cluster/src/membership_table.rs:201-216 | writes the row and bumps the version exactly when the expected version is current |
| `MembershipTable.InMemoryMembershipTable.UpdateIAmAlive` | crates/orlando-cluster/src/membership_table.rs:218-229 | sets the heartbeat of a known row and leaves the version alone; an unknown silo is an error |
| `CallChain.PushAddsPieces` | crates/orlando-core/src/request_context.rs:84-101 | pushing a grain makes `is_in_call_chain` true of exactly the ids whose rendering is a comma-separated piece of the pushed one, besides those found before |
| `CallChain.PushedIsFoundIffNoComma` | crates/orlando-core/src/request_context.rs:84-101 | a grain just pushed is found again exactly when its rendering has no comma |
| `CallChain.ChainAnswers` | crates/orlando-core/src/request_context.rs:84-101 | for any ids, `is_in_call_chain` answers whether the grain was in the chain before or its rendering is a comma-separated piece of a pushed one |
| `CallChain.ChainAnswersExactly` | crates/orlando-core/src/request_context.rs:84-101 | for ids without commas and type names without '/' it answers exactly whether the grain was in the chain before or was pushed |
| `CallChain.AskedIffUnmentioned` | crates/orlando-core/src/envelope.rs:100-112 | for any ids, a chain of nested asks, each in the context its handler was entered with, is admitted exactly when no grain is mentioned before it is asked, and then the last context has them all pushed |
| `CallChain.NestedIffNoRepeats` | crates/orlando-core/src/grain_ref.rs:71-84 | of ids without commas and type names without '/', a chain of nested asks is admitted exactly when no grain occurs in it twice |
| `CallChain.AsksKeepValues` | crates/orlando-core/src/request_context.rs:84-94 | the other values of the context travel along unchanged |
| `CallChain.CommaCycleIsAdmitted` | crates/orlando-core/src/request_context.rs:96-101 | a grain whose rendering has a comma may ask itself to any depth |
| `CallChain.DepthBounded` | crates/orlando-core/src/envelope.rs:100-112 | an admitted chain of nested asks, each in the context its handler was entered with, is at most as deep as there are grains |
| `CallChain.CommaReportsInnocentGrain` | crates/orlando-core/src/request_context.rs:84-101 | a key with a comma makes an ask of a grain that was never called fail as a deadlock |
| `Grains.KeyOfInjective` | crates/orlando-cluster/src/cross_cluster_directory.rs:85-87 | grains whose type names contain no '/' never share a key |
| `Grains.SharesKeyIffSlash` | crates/orlando-cluster/src/cross_cluster_directory.rs:85-87 | a grain shares its key with another one exactly when its type name or its key contains a '/' |
| `Transport.HopCountTravels` | crates/orlando-cluster/src/transport.rs:288-323 | the hop count one silo renders into the context is the count the next one parses, plus one; grain, payload and all other values are unchanged |
| `Transport.SuppliedCount` | crates/orlando-cluster/src/transport.rs:290-302 | a count the caller supplies leaves that many forwards less, but all of them again once it does not fit 32 bits |
| `Transport.RefusedForSizeIff` | crates/orlando-cluster/src/transport.rs:278-286 | a call is refused for its size exactly when it is too large, and then at once |
| `Transport.ResidencyBypassedIff` | crates/orlando-cluster/src/transport.rs:172-225 | a cluster outside a type's residency list serves such a grain exactly when the directory fails, or names this cluster or an unknown peer; an unowned one goes to an allowed peer or is refused |
| `Transport.CrossCheckDecides` | crates/orlando-cluster/src/transport.rs:143-226 | exactly when a call must cross and to which endpoint, when it is refused, and when the grain is claimed |
| `Transport.RecordedOwnerDecides` | crates/orlando-cluster/src/transport.rs:168-187 | a lookup that finds another cluster's record sends the call there if it is a peer; otherwise a recorded grain is handled here and not claimed |
| `Transport.LookUpOwner` | crates/orlando-cluster/src/transport.rs:160-168 | the directory's answer at the time of the lookup, or a failure |
| `Transport.CheckCrossCluster` | crates/orlando-cluster/src/transport.rs:143-226 | on an answer looked up earlier, the branches and the loop over allowed clusters decide as specified, and a grain that was unowned then is registered at epoch 1 against whatever the directory holds by now |
| `Transport.ClaimStandsIff` | crates/orlando-cluster/src/transport.rs:188-218 | whatever attempts come in between lookup and claim, the call is handled here, and this cluster ends up as the owner exactly when following those attempts leaves the grain unheld, held at epoch 0, or held by this cluster |
| `Transport.RacingClustersBothHandle` | crates/orlando-cluster/src/transport.rs:216-218 | two clusters that look up an unowned grain at the same time both handle the call, though only the first to claim it owns it |
| `Transport.Route` | crates/orlando-cluster/src/transport.rs:267-406 | for arbitrary, disagreeing and changing views of every silo a call ends after at most three silo-to-silo forwards, fewer if hops are already spent, and at most one cluster crossing |
| `Transport.PassedOnUntilRefused` | crates/orlando-cluster/src/transport.rs:288-406 | where every silo passes the call on it is forwarded exactly as often as its hop count permits and then refused |
| `Transport.AgreementReachesOwner` | crates/orlando-cluster/src/transport.rs:132-139 | where silos agree on the ring's members and the owner would serve the call, the owner dispatches it after at most one forward; only a call entering elsewhere with its hops spent is refused |
| `Transport.OwnedElsewhereIsForwarded` | crates/orlando-cluster/src/transport.rs:337-340 | on any silo that would handle the position itself, a grain that a reachable peer cluster owns is dispatched by that cluster's gateway, with or without a residency list |
| `Transport.OtherClusterServes` | crates/orlando-cluster/src/transport.rs:288-340 | where silos agree on the ring and the owning silo finds that the call must cross, the other cluster's gateway dispatches it after at most one forward, wherever it enters, or its hops are used up |
| `Transport.MisplacedActivationIsNeverReached` | crates/orlando-cluster/src/transport.rs:342-406 | where silos agree but the grain is active only on another silo, owner and holder pass the call to each other until its hops run out |
| `Transport.TwoSilosPassTheCall` | crates/orlando-cluster/src/transport.rs:342-406 | two silos with the same ring, a grain owned by one and active on the other: every call is passed between them until its hops are spent |
| `Transport.DispatchedIffOwnerServes` | crates/orlando-cluster/src/transport.rs:267-406 | among agreeing silos a call is dispatched exactly when the owner would serve it and it enters at the owner or with a hop to spare |
| `RateLimiter.SpanAdmitsAtMost` | crates/orlando-cluster/src/membership.rs:42-54 | for non-decreasing call times every span shorter than k seconds admits at most (k + 1) * max calls, whatever came before |
| `RateLimiter.BoundIsReached` | crates/orlando-cluster/src/membership.rs:42-54 | for every limit and every k some span reaches that bound |
| `RateLimiter.SpansBoundedIffLimitPositive` | crates/orlando-cluster/src/membership.rs:42-54 | the bound holds of every limiter and every span exactly when the limit is positive |
| `RateLimiter.Limiter.constructor` | crates/orlando-cluster/src/membership.rs:34-39 | a limiter starts an empty window now |
| `RateLimiter.Limiter.Check` | crates/orlando-cluster/src/membership.rs:42-54 | admits and updates the window as specified |

## Left out

- gRPC and TCP transports, connection pools, TLS, authentication, discovery, the health server and the client SDK: plumbing; a remote call is a step of the model.
- SQLite, Postgres, Redis and file backends: other engines; the etag results are about the in-memory store and do not carry over, since SQLite versions restart after a delete.
- The encoders and the protobuf conversion of gossip: decoding is assumed to undo encoding.
- FNV-1a: the hash is any function.
- Overflow of u64 and u32 counters, except where hop counts are parsed: counters are naturals.
- Broadcast change notifications and the dropping of pooled connections: no effect on the modelled state.
- The number of map entries in the grain directory is read in one step; the concurrent map's shards are not modelled.
- Worker pools, and of the drain procedure everything but its removal of entries: cancellation and waiting do not touch the directory's state.
- Single activation of persistent grains: the loop drops its receiver before the final save and the removal, so the invariant is not claimed there.
- The reentrant message loop, whose saves happen outside the state lock, and versioned grains, whose version record is written only at deactivation.
- Delta replication: reserved in the sources; the consumer skips such entries, and so does the model.
- Health checking: peer statuses are an arbitrary input sequence.
- Global single activation across clusters is not claimed: the answer of `register` is discarded before local dispatch.
- A forward whose reply is lost after the next silo acted on it: a failed connection is modelled, a lost reply is not.
- Filters, observers, timers, metrics and macros: they do not take part in the modelled protocols.
