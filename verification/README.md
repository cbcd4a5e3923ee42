# Helios coordination layer: a verified model

Helios nodes coordinate through two shared services: compare-and-swap rows in the Hydra database,
reached through Daruk, and ephemeral ballots and one-shot watches in ZooKeeper. The code argues that
nothing is claimed twice, nothing is lost, and nobody acts on what has been taken from them. This
project states those arguments in Dafny and proves them, for every input and every interleaving.

`dafny verify dfyconfig.toml` checks the whole project.

How it is laid out:

- `Daruk.dfy` models the operation table and the store under it: rows of cells that may be null and
  may each carry an expiry, and one generic conditional write. `VdiskOwnership`, `VmPlacement` and
  `ClusterLock` each state a protocol over one kind of row, prove its laws on that small protocol, and
  then prove that every run of requests over the store, by any number of callers, is a history of it.
- `TaskSequences`, `Schedules` and `VlanBackfill` are machines of many clients over one kind of row. Each
  proves its laws on the machine and then that the machine is what runs over the store: its actions,
  sent as requests and interleaved with other requests, keep the rows and the machine the same. The other
  requests are any that do not claim for the same component, any that do not claim the same job, and for
  VLANs any to other tables.
- `ZkRouting`, `ZkWatches` and `Election` are the ZooKeeper client as state machines whose steps are
  what the client's locks and the server make atomic, beside the objects whose methods are those steps.
- `Migrations`, `SchemaRuns` and `SchemaCatalogue` are the migration ledger: lists of statements, runs
  with crashes and stale reads, and the repository's own list.
- `Dispatch` is Catalyst's queues against its recorded tasks.
- `CqlText` (with `Replication`), `Ensemble` (with `MemberSpecs`), `Retention` and `Nbd` (with `Wire`)
  are the sequential algorithms.

What the model assumes of the parts it does not contain:

- Each lightweight transaction is atomic and all expiry is judged by one database clock.
- Reads in an election are linearised: each sees the state it is evaluated against. The ensemble's
  child counter does not wrap, and only ballots stand under a service's parent.
- One thread at a time is inside the ZooKeeper client's `connect`.
- A reply that does not decode is not among those a watch's read can get: it raises an error that the
  re-arming code does not catch, and the rest of that event goes untold.
- One migrator runs at a time. `SchemaRuns.FinishedRunsConverge` assumes that a run begun from a stale
  ledger read does not crash in the middle; `SchemaRuns.StaleCrashBringsBack`,
  `SchemaRuns.StaleCrashKeepsTable` and `SchemaCatalogue.StaleCrashTouchesOneTable` say exactly what such
  a crash costs.
- In Catalyst a submission, a scheduled run, a poll, a report, a sweep and taking the candidacy are each
  one step, task ids are never given out twice, and workers never report `pending`.
- While backfills run, nobody releases or reclaims a VLAN.
- In a run of the snapshot job over one vdisk deciding, taking and pruning are each one step, and only
  retention removes policy snapshots, each from the storage service and from the index together.

Where the code and its comments part ways, the model follows the code:

- Releasing a migration lock is said to be the holder's alone (daruk.py:225-226): an unlock is conditioned
  on the row reading locked and not on who locked it. `VmPlacement.UnlockApplies` and
  `VmPlacement.LetsGoOf` say when an unlock applies and whose lock it lets go of, `VmPlacement.LateUnlockDropsLaterLock` is a late unlock
  that drops another attempt's lock, and `VmPlacement.LockCanBeForged` a commit with no lock behind it.
- A data watch on a node that is not there reads twice, and what the second read sees is thrown away
  (helios_zk.py:823-837). `ZkWatches.NoChangeIsMissed` says exactly which changes nobody then hears of,
  and `ZkWatches.CreationIsMissed` is one. Nothing orders the callers of two overlapping reads of one watch:
  `ZkWatches.OldAnswerComesLast` hands over the older answer last.
- A row in flight on the first pass of a tenure is said to belong to a dispatcher that has stopped
  (catalyst.py:740-745): work submitted and handed out before that pass is in flight too.
  `Dispatch.SweepsLeaveWorkersAlone` says exactly which rows a sweep changes, and `Dispatch.FirstSweepFailsOwnWorker` is one that a worker of this tenure holds.
- The row of a scheduled run is said to be recorded by the time it is queued or left to the dispatching
  node (catalyst.py:310-316): whether its insert landed is not looked at (catalyst.py:419-430).
  `Dispatch.NothingElseIsQueued` says exactly what is then on a queue without a row,
  `Dispatch.ScheduledRunIsLost` exactly when a run whose tick was claimed is lost for good, and
  `Dispatch.LostElsewhere` and `Dispatch.LostInTheQueue` are two that are.
- Two runs of the snapshot job close together are said to compute the same name (helios_snapshots.py:172-182):
  they do in one minute and not across its end. `Retention.OverlappingRunsBothRecord` says exactly when both
  record, and `Retention.StraddlingAMinute` is two a millisecond apart.
- A VLAN whose claim is refused and cannot then be read back is reported as if the backfill's own choice
  held it (helios_schema.py:146-154). `VlanBackfill.BackfillIsConfluent` says exactly when the report is
  then right, and `VlanBackfill.BlindReportIsWrong` is one that is wrong.

## Model

| member | source | states |
|---|---|---|
| Daruk.CoerceAcceptsExactly | daruk.py:731-763 | a value is accepted exactly when it is the rendering of a value of the declared kind, so a boolean is never taken for an integer and nothing is converted |
| Daruk.FillParams | daruk.py:777-784 | the loop over declared parameters succeeds exactly when every one of them binds, and then has filled each from the body or its default |
| Daruk.BindLwt | daruk.py:766-785 | a body binds exactly when it is an object, names no unknown parameter and every declared parameter binds |
| Daruk.TableIsClosed | daruk.py:175-600 | every placeholder of every modelled statement is a declared or fixed parameter |
| Daruk.BindingIsFaithful | daruk.py:766-785 | executing with the bound values reads the same key and judges the same guard as the request's own arguments |
| Daruk.SwapExecutes | daruk.py:298-334 | a one-column swap applies exactly when the column holds the expected value, null included, and then assigns the new one |
| Daruk.GuardThrough | daruk.py:175-600 | a call that applied met its guard: each tested column compared as the statement says, or no row existed |
| Daruk.GuardDecides | daruk.py:175-600 | outside the lock table a well-formed conditional call applies exactly when every condition of its statement holds of the row |
| Daruk.InsertDecides | daruk.py:245-281 | a well-formed IF NOT EXISTS insert applies exactly when there is no row |
| Daruk.RefusalTells | daruk.py:788-815 | a refusal reports the values the row has then, of the tested columns, or of every column where the row was not to exist |
| Daruk.ColumnAssigned | daruk.py:175-600 | a call that applied assigns the bound values to its columns and keeps every other column |
| Daruk.ColumnKept | daruk.py:175-600 | a call that did not apply to a row leaves every column of that row alone |
| Daruk.CreatesSetTheirOwn | daruk.py:245-281 | every create sets each column it declares, but its key, to the parameter of that name |
| Daruk.CreateWritesAll | daruk.py:245-281 | where such a create applies, each of those columns holds what the request bound, given or by default |
| Daruk.VerdictReadsBack | daruk.py:788-815 | in whatever order the columns are listed, the verdict and the values that beat the caller are read back exactly |
| Daruk.RunObeys | daruk.py:829-862 | where each single request obeys a protocol, every run of requests over the store, by any number of callers, does at every index |
| Daruk.StaysUpheld | daruk.py:829-862 | what each action of a machine and each other request keep between the machine and the store holds after any interleaving of them |
| Daruk.Hydra.ExecuteBound | daruk.py:829-862 | one prepared statement with its bound values is one guarded write of the store |
| Daruk.Hydra.HandleLwt | daruk.py:829-862 | a request, from body to answer, is one call of its table entry: bad requests, refusals with the current values, and applied writes; where the driver raises, the write either never ran or ran in full and its answer was lost |
| VdiskOwnership.CountersNeverDecrease | daruk.py:539-600 | over any history neither the epoch nor the drain counter goes back, and an epoch has one owner |
| VdiskOwnership.DeposedOwnerIsFenced | daruk.py:539-600 | after an applied takeover no drain commit or replica change with an older epoch applies, and no later takeover reaches that epoch again |
| VdiskOwnership.DrainedExactlyOnce | daruk.py:558-570 | no two applied drain commits leave the same counter value |
| VdiskOwnership.Step | daruk.py:503-600 | one request of any kind follows the protocol of every created vdisk and leaves it created |
| VdiskOwnership.AppliesExactly | daruk.py:539-600 | a well-formed takeover, drain or replica change applies exactly when the protocol lets it: when the vdisk is as the caller expected |
| VdiskOwnership.CreateStep | daruk.py:503-532 | an applied create request leaves a created vdisk with numeric counters, whatever it said |
| VdiskOwnership.CreateApplies | daruk.py:503-532 | a well-formed create applies exactly when the vdisk is not there |
| VdiskOwnership.RunIsHistory | daruk.py:503-600 | every run of requests over the store, by callers that propose larger counters, is a history of each created vdisk |
| VdiskOwnership.EveryRunIsFenced | daruk.py:503-600 | fencing and the exactly-once drain on every run over the store |
| VdiskOwnership.FencedFromCreation | daruk.py:503-600 | and fencing holds on every run from the applied create on |
| VmPlacement.PlacementChain | daruk.py:175-281 | applied placement changes form a chain: each expected the host the previous one left |
| VmPlacement.OneCallerMovesAway | daruk.py:175-256 | of callers that expected the same host, a second can move the VM away only after it was placed there again |
| VmPlacement.LocksAlternate | daruk.py:215-256 | between two applied migration locks there is an applied unlock or commit |
| VmPlacement.ReadsLocked | daruk.py:175-281 | a row that began unlocked reads locked exactly when what last wrote its status was a lock or the lock's own text |
| VmPlacement.CommitHoldsLock | daruk.py:215-256 | of a row that reads locked, as a commit needs, an applied lock that nothing has let go of stands behind it exactly when what last wrote the status was a lock |
| VmPlacement.LockCanBeForged | daruk.py:245-281 | over any store that does not know the VM, a create that names the lock's text as its status applies, and then a commit, with no lock behind it |
| VmPlacement.LetsGoOf | daruk.py:215-256 | an applied unlock or commit lets go of the lock taken at an earlier event exactly when no unlock or commit has been applied since |
| VmPlacement.UnlockApplies | daruk.py:215-256 | a well-formed unlock applies exactly when the row reads locked, and a lock exactly when it does not, whoever sends them |
| VmPlacement.HostDecides | daruk.py:175-214 | a well-formed claim, release or state change applies exactly when the VM is on the host its caller expected, and then sets the state it gives |
| VmPlacement.CommitDecides | daruk.py:236-256 | a well-formed hand-over applies exactly when the VM is on the expected host and reads locked |
| VmPlacement.CreateDecides | daruk.py:257-281 | a well-formed create applies exactly when there is no such VM |
| VmPlacement.LateUnlockDropsLaterLock | daruk.py:215-243 | over any store where the VM is unlocked, lock, unlock, lock, unlock all apply, and the last drops the second lock |
| VmPlacement.Step | daruk.py:175-281 | one request of any kind follows the protocol of every VM row |
| VmPlacement.RunIsHistory | daruk.py:175-281 | every run over the store, by any callers, is a history of every VM |
| ClusterLock.HeldByLastAcquire | daruk.py:372-417 | a row that stands was put there by the last applied acquisition, and no release followed |
| ClusterLock.StandingMeansReadable | daruk.py:138-152 | with renewals no shorter than the acquisition, at every clock value a lock row that exists has a readable token |
| ClusterLock.ShortRenewalStrands | daruk.py:389-409 | a renewal leaves a row that is never stuck exactly when it reaches as far as the row's own marker |
| ClusterLock.HeldUntilDeadline | daruk.py:372-417 | until it is released or runs out, the row carries the acquisition's token and its deadline |
| ClusterLock.HeldExclusively | daruk.py:372-417 | until then no acquisition applies and no other token renews or releases |
| ClusterLock.StaleTokenIsRefused | daruk.py:389-417 | with fresh tokens, a renewal or release from an acquisition that was replaced never applies |
| ClusterLock.ViewIsExact | daruk.py:138-152 | existence and readability in the protocol are the store's, cell by cell and at every clock value |
| ClusterLock.Step | daruk.py:372-417 | one request of any kind follows the protocol of every lock, a TTL of 0 meaning no expiry |
| ClusterLock.AppliesExactly | daruk.py:372-417 | a well-formed acquisition, renewal or release applies exactly when the protocol lets it: when no row stands, or when the token can be read and is the caller's, and never with a negative TTL |
| ClusterLock.RefusedAcquireNamesHolder | daruk.py:372-388 | a refused acquisition is told the holder and the token that stand, as long as they can be read |
| ClusterLock.RunIsHistory | daruk.py:372-417 | every run ordered by the database's clock is a history of the lock |
| ClusterLock.NoLockIsStranded | daruk.py:372-417 | on every run over the store a lock row that exists has a readable token, at every clock value |
| TaskSequences.ClaimTaskSequence | helios_schema.py:893-939 | the retry loop returns what the claim's state machine returns on the same replies: a number, or none after the attempts run out, a reply is lost, or a refusal reports something that is no number |
| TaskSequences.OutcomeExactly | helios_schema.py:893-939 | a call returns a number exactly if an attempt within its budget wins and all before it were beaten, and then the one after what it expected there |
| TaskSequences.UndisturbedClaimWins | helios_schema.py:893-939 | in every state any run reaches, an answered attempt takes the next number exactly when the call expects the counter as it stands, and otherwise the next answered attempt does |
| TaskSequences.CounterCountsUp | helios_schema.py:893-939 | over every interleaving of claims, with wrong hints and lost replies, the counter takes 1, 2, 3 and so on, one per applied swap |
| TaskSequences.NumbersAreNeverShared | helios_schema.py:893-939 | no two calls return the same number |
| TaskSequences.ClaimSwaps | daruk.py:323-334 | the endpoint swaps the counter exactly when it holds what was expected |
| TaskSequences.RefusalReports | daruk.py:323-334 | a refusal reports the value that beat the claim |
| TaskSequences.OthersKeepCounter | daruk.py:323-334 | every other request leaves the counter alone |
| TaskSequences.AttemptIsCall | catalyst.py:258-272 | each attempt of the machine is one call of the endpoint, with the same counter and the same reply |
| TaskSequences.StoreRunsMachine | helios_schema.py:893-939 | any claimants, interleaved with any other requests over the store, leave in the store the machine's counter, which has counted every applied swap, and share no number |
| Schedules.ClaimsAreSpaced | catalyst.py:326-407 | successful claims record times at least the interval apart, however stale the reads and however the clocks disagree |
| Schedules.SubmissionsAreSpaced | catalyst.py:326-407 | so are the submissions, across claims whose reply was lost |
| Schedules.TicksAreTaken | catalyst.py:326-407 | over any passes, one submits the job exactly when it reads the clock as it stands, is due, and gets through both ways |
| Schedules.OneClaimPerClockValue | catalyst.py:326-361 | with a positive interval no recorded clock value is claimed from twice |
| Schedules.NonPositiveIntervalRepeats | catalyst.py:362-407 | with any other interval two claims from one clock value succeed, so the condition is exact |
| Schedules.PassIsCall | daruk.py:298-309 | a due pass whose request arrives is one call of the endpoint, applied exactly when the claim succeeds |
| Schedules.OthersKeepClock | daruk.py:298-309 | every request that is not a claim of this job leaves its clock alone |
| Schedules.StoreRunsMachine | catalyst.py:326-407 | any schedulers' passes, interleaved with any other requests over the store, leave in the store the machine's clock, and the times their claims recorded are spaced |
| Schedules.ConfiguredJobIsSpaced | catalyst.py:393-399 | the interval a schedule row stands for is positive exactly when the row holds no negative one, and then submissions are spaced by it |
| VlanBackfill.WinnerIsLowest | helios_schema.py:93-197 | the network the backfill picks for a VLAN is the carrier with the smallest id |
| VlanBackfill.RunsStaySound | helios_schema.py:93-197 | in every interleaving, whatever reads fail, each claim is an earlier one or the lowest carrier's, and each worker has reported exactly the losers to whom it took for the holder |
| VlanBackfill.BackfillIsConfluent | helios_schema.py:93-197 | once any one backfill completes, the table is settled and no earlier claim was overwritten; and it reported exactly the networks that carry a VLAN they do not hold if and only if every VLAN it could not read back is held by its lowest carrier |
| VlanBackfill.FirstBackfillReportsRight | helios_schema.py:93-197 | from an empty claim table the report is always right |
| VlanBackfill.BlindReportIsWrong | helios_schema.py:93-197 | over an earlier claim by anybody but the lowest carrier, one failed read-back makes the report wrong |
| VlanBackfill.TwoOnSevenReportedWrong | helios_schema.py:93-197 | as with two networks on VLAN 7 that the second already holds |
| VlanBackfill.SettledIsUnique | helios_schema.py:93-197 | two completed backfills of the same tables leave the same claims |
| VlanBackfill.ClaimTable.Backfill | helios_schema.py:93-197 | the loop goes to the end exactly when the networks can be read and every claim is answered; it overwrites no claim and stops at one that is not answered, made or not; at the end the table is settled, and its report is right if and only if every VLAN held before whose read-back fails is held by its lowest carrier |
| VlanBackfill.ClaimIsCall | daruk.py:430-457 | a claim of the machine is one call of the endpoint |
| VlanBackfill.ReleaseIsTheHolders | daruk.py:452-468 | a release applies exactly when its caller's network holds the claim, which is then gone, and no other is touched |
| VlanBackfill.RefusedReleaseNamesHolder | daruk.py:452-468 | a refused release is told who holds the VLAN, or that nobody does |
| VlanBackfill.ReclaimIsFromTheHolder | daruk.py:466-495 | a reclaim from a named network applies exactly when that network holds the claim, which is then the new one's |
| VlanBackfill.OthersKeepClaims | daruk.py:430-457 | requests to other tables leave the claims alone |
| VlanBackfill.StoreRunsMachine | helios_schema.py:93-197 | any backfills, interleaved with any requests to other tables, leave in the store exactly the machine's claims |
| VlanBackfill.StoreIsSettled | helios_schema.py:93-197 | so once any of them completes the claim rows of the store are settled |
| ZkRouting.EveryRunIsSound | helios_zk.py:625-742 | in every world any run reaches: xids increase, a pending waiter issued its xid and is unanswered, a dead connection has an empty map, each waiter has left the map once or is on it, replies match, every request under way is on the map, in hand or awake, and a live connection has its own reader or is about to start it |
| ZkRouting.XidsAreNeverReused | helios_zk.py:625-742 | a request registered later, on this connection or any later one, carries a larger xid |
| ZkRouting.ReplyReachesItsRequest | helios_zk.py:638-661 | the frame a request returns with carries its own xid, and no other request in the run has that xid |
| ZkRouting.FrameIsRouted | helios_zk.py:638-661 | in every run, a frame with a pending xid takes that waiter off the map and in hand with that frame and changes nothing else; any other frame changes nothing |
| ZkRouting.FateIsSealed | helios_zk.py:638-742 | a request is woken, or about to be, with a frame if and only if the reader took that frame while the request was registered under its xid, and with a lost connection if and only if the transport failed while it was on the map |
| ZkRouting.ReturnsItsFate | helios_zk.py:721-742 | whoever returns with an answer returns with the one it was taken off the map for |
| ZkRouting.FateCanReturn | helios_zk.py:721-742 | and a parked request taken off the map can return with it once woken |
| ZkRouting.StepsAreTheClients | helios_zk.py:662-732 | registering, giving up and failing change the machine's record as the client object's methods change theirs |
| ZkRouting.RequestIsAnswered | helios_zk.py:488-742 | a run from nothing: connect, register, send, the reply, and the request returns with that frame |
| ZkRouting.NobodyIsForgotten | helios_zk.py:488-494 | an unanswered parked request is in some thread's hand, or on the map of a live connection whose own reader stands or is about to be started, and whose end takes it in hand |
| ZkRouting.Client.Register | helios_zk.py:699-724 | registering is refused exactly when the connection is not usable, and otherwise takes the next xid |
| ZkRouting.Client.Abandon | helios_zk.py:721-732 | a request that timed out or could not be sent takes exactly its own xid off the map |
| ZkRouting.Client.Route | helios_zk.py:638-660 | a frame wakes the waiter under its xid, if any, with that frame, and nobody else |
| ZkRouting.Client.FailTransport | helios_zk.py:662-681 | the connection is dead, the map is empty and everybody who was on it is awake |
| ZkWatches.NoWatchDiesSilently | helios_zk.py:746-891 | in every world any run reaches, an active registration of a session that is up is neither armed, in dispatch, being read nor told of an error if and only if the node whose children it watches was deleted while nothing else attended to it, and since then no event has reached it, nobody has read the same children, it was told of no error or disconnect, and it has not gone |
| ZkWatches.SilenceGoesOn | helios_zk.py:746-891 | exactly which events end such a silence |
| ZkWatches.SparedParentsStayCovered | helios_zk.py:746-891 | so none is where no node whose children are watched is deleted |
| ZkWatches.NoChangeIsMissed | helios_zk.py:777-850 | after a change to what it watches, a read whose answer reaches the callback is still to come, or an error has been told, exactly when that was so before or the change fires a watch; of a covered registration, exactly when a discarded fallback read was not all that attended to it |
| ZkWatches.CreationIsMissed | helios_zk.py:823-837 | a run in which the node is created while the fallback read is on its way: it ends with the node there, its caller handed "no node", and nobody and nothing on the way to say otherwise |
| ZkWatches.LastAnswerIsCurrent | helios_zk.py:746-891 | in every world any run reaches, with the session up and nobody on the way to an active registration, the last answer to it is what is there now if and only if it is not a fallback read's with the node there and not about the children of a node deleted under it |
| ZkWatches.HandedInOrder | helios_zk.py:823-850 | where the reads of a registration do not overlap, what it was handed last is what was answered last |
| ZkWatches.LastValueIsCurrent | helios_zk.py:746-891 | so what it was handed last is what is there now, with exactly those two exceptions |
| ZkWatches.OldAnswerComesLast | helios_zk.py:823-891 | a run of two overlapping reads that ends with the older children handed over last and nothing on the way |
| ZkWatches.DeletionCosts | helios_zk.py:777-794 | deleting a node leaves a registration uncovered exactly when it watches that node's children and the watch taken away was all that covered it |
| ZkWatches.DeletionSilences | helios_zk.py:777-794 | a run that registers and serves a child watch, deletes the node and leaves it uncovered |
| ZkWatches.ReconnectRecovers | helios_zk.py:860-875 | whatever was lost, after the re-arm list is handed out every active registration is in dispatch |
| ZkWatches.FireCovers | helios_zk.py:784-794 | a firing turns what was armed into a queued event that reaches the same registrations |
| ZkWatches.TakeKindAttends | helios_zk.py:792-804 | looking up who is registered for the next kind of an event loses nobody who was attended to |
| ZkWatches.TakeWatchAttends | helios_zk.py:839-850 | re-arming the next watch of a list loses nobody who was attended to |
| ZkWatches.StaysAttended | helios_zk.py:746-891 | while the session is up nobody who is in dispatch, being read or told of an error is forgotten, until a read of it is answered |
| ZkWatches.Registry.Register | helios_zk.py:809-811 | a new watch joins the end of the group of its kind and path |
| ZkWatches.Registry.Unregister | helios_zk.py:813-821 | a watch leaves its group, an empty group leaves the registry, and every other lookup is unchanged |
| ZkWatches.Registry.Registered | helios_zk.py:801-803 | the lookup returns exactly who is registered for the kind and path, in order |
| Ballots.NameReadsBack | helios_zk.py:1064-1070 | the counter reads back out of the name the ensemble gave, however many digits it has |
| Ballots.LowestBallotWins | helios_zk.py:1073-1083 | the winner is a child that is a ballot and comes before every other by counter and then name; there is none only when no child is a ballot |
| Ballots.SmallestCounterWins | helios_zk.py:1073-1083 | in whatever order the children are listed, the winner among the ensemble's own names is the smallest counter |
| Election.AtMostOneLeads | helios_zk.py:1086-1201 | in every state any run reaches at most one candidacy leads |
| Election.OnlyTheLeaderIsToldSo | helios_zk.py:1275-1285 | a read answers True if and only if it finds the caller's own ballot lowest, nothing else does, and whoever else asks in that state is not answered True |
| Election.SuccessorLeads | helios_zk.py:1112-1201 | when a session ends a candidacy on another leads exactly when every lower ballot was tied to that session, and is then told so |
| Election.FirstToStandLeads | helios_zk.py:1101-1201 | whoever stands leads, and is told so by its first read, exactly when nobody stood |
| Election.AnyoneCanStand | helios_zk.py:1333-1357 | a candidacy that has given up its session can open another, stand, and read |
| Election.NewBallotIsLast | helios_zk.py:1101-1110 | a new ballot is numbered above every ballot standing and every ballot remembered |
| Election.NeverLeadsOnALostBallot | helios_zk.py:1275-1285 | from the moment its ballot is gone until it stands again a candidacy is never told it leads |
| Election.LostBallotIsReportedFirst | helios_zk.py:1246-1376 | before a candidacy that lost its ballot creates another, it has answered False or been withdrawn by its own process, and the other is numbered above everything then standing |
| Election.BallotGoesOnlyByLettingGo | helios_zk.py:1275-1376 | a ballot is given up only by answering False or by its own process; one that stands only after a failed read or by its own process |
| Election.NamesTellTheState | helios_zk.py:1112-1201 | what the object concludes from the children's names is whether it leads, and whether it still stands, in that state |
| Election.Candidacy.Leading | helios_zk.py:1275-1285 | it answers True exactly when its ballot, held or newly made, is lowest on the first read; a call that began with a ballot never takes a new one; the ballot and session are given up exactly when neither read saw it standing |
| Election.Candidacy.Ballot | helios_zk.py:1345-1357 | a remembered ballot is kept; otherwise it stands exactly when there is a session, or one may be asked for and is given, and the ensemble makes the ballot; where it does not, everything is dropped and the retry time set, unless it was blocked already |
| Election.Candidacy.Session | helios_zk.py:1333-1343 | an existing session is kept, a blocked one is not retried, and a failed connect drops everything and sets the time before which it is not retried |
| Migrations.FoldGrows | helios_schema.py:1222-1249 | on a table that is there and never dropped, a list adds its columns, first type winning, and sets its properties, last value winning |
| Migrations.Rerun | helios_schema.py:1126-1191 | running an orderly list again from any earlier place, over a database it has already taken to any later one, ends exactly where running it once does |
| Migrations.RerunSucceeds | helios_schema.py:1222-1249 | and no statement fails on the way, a column already there counting as success |
| Migrations.Stays | helios_schema.py:1126-1191 | repeating part of what was already run inside one migration changes nothing |
| SchemaRuns.DivergenceIsRaised | helios_schema.py:975-992 | divergence is raised exactly when some recorded migration's text has changed, and otherwise exactly the unrecorded ones are pending |
| SchemaRuns.FirstDivergenceIsNamed | helios_schema.py:975-992 | and the first of them is named |
| SchemaRuns.PendingSplits | helios_schema.py:975-992 | what is pending is in the list's order |
| SchemaRuns.PendingOfPrefix | helios_schema.py:975-992 | a ledger that records a prefix leaves exactly the rest pending, in order |
| SchemaRuns.FindPending | helios_schema.py:984-992 | the loop computes it |
| SchemaRuns.LedgerIsAlwaysAPrefix | helios_schema.py:1126-1191 | the ledger is a prefix of the list in every world, in the middle of any run too; between runs everything recorded has fully run |
| SchemaRuns.FinishedRunsConverge | helios_schema.py:1126-1191 | after any crashes, resumed runs and runs from stale reads, a run that finishes leaves exactly the database that applying the whole list once would have |
| SchemaRuns.NextRunCanFinish | helios_schema.py:1126-1191 | from every world any run reaches, the next run can begin and go to the end, and leaves the fully migrated database |
| SchemaRuns.NoStatementFails | helios_schema.py:1222-1249 | no statement of any run fails, first time or again |
| SchemaRuns.StaleCrashBringsBack | helios_schema.py:1126-1191 | a crash in the middle of a stale run brings a dropped table back exactly when the part re-run creates it and stops short of its drop |
| SchemaRuns.StaleCrashKeepsTable | helios_schema.py:1126-1191 | wherever a stale run stops, a table that is never dropped, and the ledger, are what they were |
| SchemaRuns.CompleteRunMigrates | helios_schema.py:1126-1191 | the pending list of a stale prefix, applied over any later state, gives the fully migrated database |
| SchemaRuns.EndsExactly | helios_schema.py:1172-1191 | a list of operations goes to the end exactly when each is answered and succeeds on what those before it left |
| SchemaRuns.HealthyRunFinishes | helios_schema.py:1126-1191 | a repeatable list, run from any stale prefix over any later state, always goes to the end while the database answers, and leaves it fully migrated |
| SchemaRuns.Database.Run | helios_schema.py:1222-1240 | a statement succeeds when the database answers and does not fail it; one that is not answered may have landed, and one the database fails changes nothing |
| SchemaRuns.Database.RunMigration | helios_schema.py:1172-1191 | statements, backfill and ledger row in that order, to the end exactly when each passes, and otherwise up to the first that fails or is not answered, which may have landed |
| SchemaRuns.Database.RunAll | helios_schema.py:1171-1191 | the same for every outstanding migration in turn |
| SchemaRuns.Database.EnsureSchema | helios_schema.py:1126-1191 | bookkeeping that fails, divergence and a lost lock change nothing; otherwise the pending operations are applied to the end and their ids returned exactly when each passes, and else up to the first that does not |
| SchemaCatalogue.AllIsRepeatable | helios_schema.py:200-776 | the repository's own list meets the conditions, whatever its tables are created as |
| SchemaCatalogue.RunsConverge | helios_schema.py:362-371 | every finished run of that list leaves the fully migrated schema, without the table that 0006 creates and 0025 drops |
| SchemaCatalogue.DropIsListed | helios_schema.py:691-714 | the list drops that table |
| SchemaCatalogue.StaleCrashTouchesOneTable | helios_schema.py:200-776 | wherever a stale run of the repository's list stops, the database differs from the one it found in the table that 0006 creates and 0025 drops, at most |
| SchemaCatalogue.DeadRunnerBringsTableBack | helios_schema.py:362-371 | and a run of it from before 0006, over a migrated database, that dies after 0006's statements, leaves that table with a ledger that is complete |
| SchemaCatalogue.NothingRemovesItAgain | helios_schema.py:691-776 | once 0025 is recorded what is pending never mentions that table, so no later run removes it |
| Dispatch.SweepOutcome | catalyst.py:730-795 | exactly what a sweep does to each task: its row, whether it is queued, and how often it was put |
| Dispatch.SweepQueue | catalyst.py:730-795 | exactly what a sweep appends to each queue, in the table's order |
| Dispatch.SweepCounts | catalyst.py:754-795 | the sweep reports as many rows requeued and failed as it was to put on queues and to fail when it began |
| Dispatch.TakeoverRestoresQueues | catalyst.py:678-856 | after taking the candidacy, the first sweep that reads the table leaves each queue with exactly one entry per pending row of its service, every row in flight failed and every pending row without a queue failed |
| Dispatch.TakeoverUndisturbed | catalyst.py:805-856 | the same in a run, after any number of reads that fail |
| Dispatch.TakeoverInARun | catalyst.py:805-856 | with submissions, polls and reports in between, the first sweep that reads the table still fails every row then in flight and every pending row without a queue, and every pending row with one is on its queue or with a worker, exactly once where no verdict was lost |
| Dispatch.DutyStaysOutstanding | catalyst.py:842-850 | the first sweep stays owed until a sweep reads the table |
| Dispatch.SweepsAreSpaced | catalyst.py:805-856 | two sweeps of one tenure are at least fifteen seconds apart, and a turn sweeps exactly when the last sweep is that long ago |
| Dispatch.TakeoverSweepsAtOnce | catalyst.py:822-842 | a turn that takes the candidacy sweeps at once |
| Dispatch.NothingIsQueuedTwice | catalyst.py:302-323 | in every world of every tenure a task, recorded or not, was put on a queue at most once, and once more at most for each verdict lost while it read pending; what was put is on its own queue or with a worker |
| Dispatch.NothingElseIsQueued | catalyst.py:302-323 | whatever is on a queue was put there in this tenure, on the queue it belongs on; it has no row if and only if it is a scheduled run queued here whose insert was lost and on which no report has landed since |
| Dispatch.CanRunExactly | catalyst.py:712-795 | a task that was entered can still be given to a worker, in some way the cluster might go on, exactly when it is on a queue or its row reads pending for a service with one |
| Dispatch.ScheduledRunIsLost | catalyst.py:310-323 | a scheduled run is lost for good, given to no worker and never to be, with nothing recorded of it, exactly when its insert was lost and this was not the dispatching node or the candidacy was taken before a worker asked |
| Dispatch.LostElsewhere | catalyst.py:419-429 | a scheduled run lost on a node without the queues |
| Dispatch.LostInTheQueue | catalyst.py:712-727 | a scheduled run queued without a row and lost when the queues are drained |
| Dispatch.SweptRowsAreHeld | catalyst.py:730-795 | after each sweep that read the table, every pending row with a queue is on that queue or was handed to a worker, exactly once where no verdict was lost |
| Dispatch.SweepsLeaveWorkersAlone | catalyst.py:730-768 | a sweep changes a processing row exactly when it is the first of its tenure to read the table and the write lands, and then fails it |
| Dispatch.FirstSweepFailsOwnWorker | catalyst.py:740-768 | a run whose first sweep fails a task handed out in that very tenure |
| Dispatch.LostVerdictRunsTwice | catalyst.py:630-648 | the next sweep queues a task again exactly when a verdict on it was lost, at the Catalyst that remembers it, while it still read pending, or when it was going to anyway and the verdict did not land |
| Dispatch.ReportedStatusStays | catalyst.py:630-648 | a report that lands leaves its row with that status and what the task was, until another lands or a sweep reads the table |
| Dispatch.VerdictStays | catalyst.py:630-648 | and a terminal one stays whatever sweeps come |
| Dispatch.VerdictLostThenQueuedAgain | catalyst.py:630-648 | a run of one tenure that ends with a task put on its queue twice |
| Dispatch.Catalyst.SubmitToMemory | catalyst.py:302-308 | the entry goes on its service's queue and is remembered; nothing happens for a service without one |
| Dispatch.Catalyst.Submit | catalyst.py:570-610 | a service without a queue is refused and changes nothing, as does an insert that did not land; one that landed and was not answered is refused and recorded; otherwise the row is recorded and, on the dispatching node, queued |
| Dispatch.Catalyst.QueueScheduledRun | catalyst.py:419-429 | the insert is sent, and on the dispatching node the run is queued whether or not it landed |
| Dispatch.Catalyst.Poll | catalyst.py:464-485 | a worker gets the first entry of its queue, nothing, or the reason this node cannot say |
| Dispatch.Catalyst.Report | catalyst.py:630-648 | the row is upserted if the write lands, and a terminal status forgets the id either way at the Catalyst it was reported to, and at no other |
| Dispatch.Catalyst.DrainQueues | catalyst.py:712-727 | every queue is empty and every entry dropped is counted |
| Dispatch.Catalyst.RecoverOpenTasks | catalyst.py:730-795 | the loop over open rows is the sweep, and it counts what it requeued and failed |
| Dispatch.Catalyst.Turn | catalyst.py:805-856 | one turn of the loop: taking the candidacy clears and drains first; a due sweep that reads the table runs and ends the duty; a failed read changes nothing; and when the last sweep was is remembered |
| CqlText.OutsideStringLiterals | helios_cql.py:94-122 | the nested loops put out the text with every literal, terminated or not, blanked |
| CqlText.SkipLiteral | helios_cql.py:110-120 | the inner loop ends just past the literal, a doubled quote staying inside it |
| CqlText.BlankingHidesValues | helios_cql.py:66-133 | blanking hides every spliced value exactly when each fragment a value follows has an even number of quotes |
| CqlText.GuardIgnoresValues | helios_cql.py:125-133 | for such a template the guard's verdict is its verdict on the template with empty values |
| CqlText.OpenLiteralHandsOverVerdict | helios_cql.py:125-133 | a mutating template that leaves a literal open hands the verdict to the value |
| CqlText.GuardIgnoresCase | helios_cql.py:125-133 | the verdict does not depend on the case of any letter |
| CqlText.UpperCaseIsSeen | helios_cql.py:125-133 | an update in capitals with IF after it is taken for conditional |
| CqlText.LiteralReadsBack | helios_cql.py:66-76 | an escaped literal reads back as its value exactly when no quote follows it |
| CqlText.LiteralsAreDistinct | helios_cql.py:66-76 | different values make different literals |
| Replication.FactorSurvives | helios_cql.py:283-302 | the factor survives the failures asked for exactly when there are nodes enough, over every choice of replicas and failures, and no smaller one would |
| Replication.DefaultSurvives | helios_cql.py:305-319 | the default survives whatever the minimum does, fits the nodes, and survives one failure exactly from three nodes on |
| MemberSpecs.RoleReadsBack | helios_zk.py:181-223 | a spec written for a role re-parses to that role, with the host and client part it had |
| MemberSpecs.LastRoleWins | helios_zk.py:215-223 | of roles set one after the other only the last is left |
| Ensemble.PlanEnsembleRoles | cluster_new.py:1509-1592 | a change is accepted exactly when it names only members, one voter leads, a quorum answers, every new voter answers and three vote; otherwise it is refused on the first ground that holds |
| Ensemble.AcceptedExactly | cluster_new.py:1509-1592 | a change is accepted if and only if it names members only, exactly one voter reports "leader", more than half of the voters answer, everybody who is to vote answers and at least three are to |
| Ensemble.AcceptedKeepsQuorum | cluster_new.py:1509-1592 | every accepted change left a configuration in which exactly one voter reports "leader" and the answering voters are a quorum; every new voter is live, any one can fail and leave a quorum, and any two quorums intersect |
| Ensemble.SurvivorsKeepTheirPlaces | cluster_new.py:1558-1574 | members that stay keep id, host, client part and order, and each emitted spec re-parses to exactly the planned role |
| Ensemble.MovedVoteKeepsCount | cluster_new.py:1839-1848 | handing a vote on, with the old holder dropped or demoted, changes the voters by exactly that swap and keeps their number |
| Ensemble.ReplacingMovesOneVote | cluster_new.py:1741-1748 | promoting or demoting with `--replacing` keeps the number of voters |
| Ensemble.HandOffVote | cluster_new.py:1804-1856 | the outcome of handing the departing node's vote on, with the number of voters kept where it goes through |
| Ensemble.HandOffDecides | cluster_new.py:1804-1856 | it goes through exactly when the first member at the host votes, every survivor can be reconfigured, an observer answers and the change is acceptable, and then gives the vote to the first such observer; otherwise it says exactly which was missing first |
| Retention.OursIsSorted | helios_snapshots.py:243-245 | the policy's snapshots, sorted newest first and then by id, and no others |
| Retention.PlanRetention | helios_snapshots.py:218-256 | the loop computes the plan below |
| Retention.PlanByPlace | helios_snapshots.py:243-256 | a policy snapshot is kept, in its place, exactly when fewer are newer, or as new with a smaller id, than the policy keeps, one at least; otherwise it is protected exactly when something depends on it, and for that reason, and else pruned |
| Retention.KeepsSoMany | helios_snapshots.py:246-248 | as many are kept as the policy keeps, or as it has taken |
| Retention.PlanPartitions | helios_snapshots.py:218-256 | kept, pruned and protected are the policy's snapshots and nothing else, each in exactly one; nothing referenced or attached is pruned |
| Retention.KeptAreNewest | helios_snapshots.py:243-246 | the kept ones are the newest, as many as the window holds |
| Retention.PlanningAgainPrunesNothing | helios_snapshots.py:218-256 | applying the plan and planning again prunes nothing and keeps the same |
| Retention.NewestIsMax | helios_snapshots.py:531-532 | the time a run measures from is the latest of the policy's snapshots, and there is none exactly when the policy has taken none |
| Retention.DueExactly | helios_snapshots.py:195-204 | a snapshot is due exactly when the policy has none or the newest is as old as its interval, an hour where it names none, less five minutes |
| Retention.EffectivePolicy | helios_snapshots.py:149-167 | the narrowest row decides, a disabled one by exempting the vdisk |
| Retention.PruneKeepsNewest | helios_snapshots.py:528-562 | deleting any of what was planned leaves the newest policy snapshot |
| Retention.NamesTellMinutes | helios_snapshots.py:172-192 | two runs compute the same name exactly if they began in the same minute |
| Retention.SnapshotsAreSpaced | helios_snapshots.py:528-600 | over any runs, overlapping or not, of any two recorded policy snapshots the later was taken at least its policy's interval less the slack after the earlier, if its run looked at the index after the earlier was recorded |
| Retention.RunsAloneAreSpaced | helios_snapshots.py:528-600 | where no run looks while another has yet to take, all of them are spaced |
| Retention.StandsExactly | helios_snapshots.py:564-600 | a name stands at the storage service exactly from when it was taken until it is pruned |
| Retention.RecordsExactly | helios_snapshots.py:564-600 | of the runs that get as far as the service and then the index, exactly those record for whose minute no snapshot stands |
| Retention.OverlappingRunsBothRecord | helios_snapshots.py:172-182 | two runs that both found a snapshot due, nobody else's in the second's minute, both record exactly if they began in different minutes |
| Retention.StraddlingAMinute | helios_snapshots.py:172-182 | two overlapping runs a millisecond apart that both record |
| Retention.Runner.TakeOne | helios_snapshots.py:564-600 | a failed take stops the run, a name that another run took first does not and counts for nothing, one whose insert was lost counts as taken, and only a recorded one is indexed |
| Retention.Runner.OneVdisk | helios_snapshots.py:528-562 | a run takes what is due and reports it, prunes exactly what was planned and can be deleted, and nothing after a failed take or while a node is unreachable |
| Retention.AloneIsSteps | helios_snapshots.py:528-562 | a run with nobody else at it is deciding, taking and pruning one after the other |
| Retention.Runner.PruneAll | helios_snapshots.py:559-562 | exactly the deletions that went through are gone from the index, and reported in order |
| Wire.UnpacksBack | helios_sidon.py:405-417 | big-endian fields that fit unpack to the values packed |
| Nbd.RequestReadsBack | helios_sidon.py:405-410 | a request header reads back field by field |
| Nbd.JudgedByService | helios_sidon.py:414-421 | a reply passes the magic, handle and error checks exactly when the request was served and the reply says so |
| Nbd.JudgedWhy | helios_sidon.py:414-421 | and which check it fails otherwise |
| Nbd.SplicesJoin | helios_sidon.py:462-473 | two writes side by side are one |
| Nbd.ReadAfterWrite | helios_sidon.py:445-473 | reading where one has written gives the data back; reading elsewhere sees no difference |
| Nbd.ChunksAre | helios_sidon.py:462-473 | the chunks of a buffer are full but the last, and together the buffer |
| Nbd.DeliversAll | helios_sidon.py:426-443 | a stream that gives something each time gives all that is wanted or all there is |
| Nbd.CopiedExactly | helios_sidon.py:405-473 | a transfer comes to the end exactly when each of its requests passes |
| Nbd.NbdWriter.DoRequest | helios_sidon.py:405-424 | a request that succeeds was served; one that fails was served or left the device alone, the server closing before or after it served it among the ways to fail; the handle counts up |
| Nbd.NbdWriter.WriteAt | helios_sidon.py:462-473 | out of range is refused untouched; otherwise the chunked write is one splice of the whole buffer when every chunk passes, and else stops at the first that does not, with exactly the bytes up to there written, its own if it landed |
| Nbd.NbdWriter.Read | helios_sidon.py:445-460 | the chunked read returns the slice exactly when it is in range and every request passes, and changes nothing |
| Nbd.NbdWriter.WriteStream | helios_sidon.py:426-443 | under arbitrary short reads exactly the bytes the stream delivers, until it ends or the total is there, are at 0 when every request passes, and else those up to the first that does not; nothing beyond has changed |

## Left out

- HTTP handlers, TLS, sockets, subprocesses, remote execution and logging, in every file.
- Deployment and update scripts, `lanayru.py`, `helios_sig.py`, `check_updates.py`, `bifrost.py`, `gatoway.py`, `dagur.py` and the vendored and configuration directories.
- The other typed endpoints of `daruk.py` (node maintenance, check claims, extent groups, resize, class, seal and the repoints): their rules live in callers that are not modelled, or they are further instances of the same guarded write.
- Positional `binds` tuples: placeholders are named here, so an order mistake between the tuple and the statement text is not expressible.
- Mutual exclusion of the schema lock past its expiry or between processes that share a node id.
- Regular expressions, JSON and cqlsh text parsing, `_json_rows`, `parse_applied` and `lwt_applied`: the predicate they compute is modelled where one is needed. `CqlText.IsConditional` treats only ASCII letters, digits and white space as such.
- SHA-256: a digest is modelled as the text it is a digest of. Migration ids are modelled by their numbers.
- What each table is created as: `SchemaCatalogue.All` takes it as a parameter.
- `parse_ensemble_config`'s splitting of the znode into lines; how one member's role and host are read is modelled.
- The 32-bit wrap of the ensemble's child counter, and names under an election's parent that the ensemble did not give.
- Ballots.NameReadsBack: of what the language's integer parser accepts, surrounding white space, underscores and non-ASCII digits are not modelled; the ensemble writes none.
- Liveness of elections after a failed ballot delete, and real-time bounds on handover.
- The scheduler's `local_last_run`, which can only skip a pass.
- `task_events` and `task_results`, which carry answers to a waiting status request and decide nothing about the queues.
- Task rows that will not parse, which a sweep skips and leaves as they were; and the thirty-day expiry of task rows.
- The calendar text in a snapshot's name: the minute is written as its number. Names too long for the rules are among the takes that fail.
- The NBD handshake, flush and disconnect, and `boot_orders`.
