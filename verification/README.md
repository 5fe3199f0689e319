# Synchronized playback: model and proofs

A room of people watches one video together. A store holds the room's *timeline* (what is played, and
where, as a function of server time), clients fold whatever timelines reach them into the one they
apply, and a controller in each client keeps its player on the projected position. This project
models the parts of that system in which a mistake is hard to see, and proves what they guarantee
over whole runs.

| file | component |
|---|---|
| `Timeline.dfy`, `Replay.dfy` | projection, control and snapshot stamps, client ordering, the replay contract |
| `RoomStore.dfy`, `RoomRuns.dfy` | the in-memory store as a class, and its guarantees over runs of calls |
| `Client.dfy` | a client as a fold over arbitrary deliveries: convergence and gap accounting |
| `ActorPlane.dfy`, `ActorStore.dfy`, `ActorFailures.dfy` | leased single-owner rooms: every interleaving of all instances, one instance's operations inside it, and where their promises end |
| `Revocation.dfy`, `RelayRevocation.dfy` | token revocation under concurrent refresh, in the backend and, at lock level, in the Rust relay |
| `Sessions.dfy` | concurrent session refresh and rotation |
| `ClockEstimator.dfy` | clock offset estimation and slewing |
| `DriftController.dfy`, `DriftRuns.dfy`, `DriftCorrections.dfy` | the drift controller, its pacing and rate guarantees, and when and that it corrects |
| `DisciplineController.dfy`, `DisciplineRuns.dfy` | the PI/RLS servo and its guarantees |
| `Frames.dfy`, `Doubles.dfy` | the binary protocol: one encoder, two decoders, and the numbers their byte tests are about |
| `RateBucket.dfy` | token buckets and the guest door |

Each stateful component has a pure step function and, where the source is a class, a Dafny class with
the source's fields whose methods are proved to compute exactly that step. The theorems about runs
are proved of the step function, so they hold of the class. Times and positions are exact reals.

Where a promise is false of the code, the code is kept, the failure is shown, and the exact condition
under which the promise holds is proved:

- the estimator's reported uncertainty, half the *smallest* selected delay, can be 0 with an error of
  5 ms (`SmallestDelayIsNoBound`); it is honest if and only if the exchanges pin the truth down to it
  (`UncertaintyIsHonestExactlyWhenPinnedDown`, `UncertaintyIsHonestExactlyWhenHistoryPinsDown`), while half the *middle* delay always bounds the error;
- on the actor plane a late answer of an instance's own `init` can be installed under a lease claimed
  afterwards, because `get` compares no fences; an accepted seek then pauses a playing room
  (`LateInitAnswerPausesTheRoom`). A look is safe if and only if it finds no entry, one of the claimed
  fence, or one equal to the stored state (`LookIsSafeExactlyUnlessStale`);
- there too, a commit that runs but whose reply is lost leaves the owner's cache behind
  (`LostReplyLeavesTheCacheBehind`), and exactly then (`FailureIsSafeExactlyUnlessCommitted`). Every run
  without these two steps keeps all promises of the plane, and comparing fences is enough to exclude the first
  (`CarefulRunsAreClean`);
- over a room without a stored timeline the commit script neither looks a command id up nor records it;
  a room cleared while an init answer is late lets one command commit twice at once
  (`ClearedRoomCommitsTwice`). A commit keeps the dedup keys equal to the history if and only if the
  timeline is there (`CommitIsKeyedExactlyWhenStored`), and runs in which it always is, clean runs among
  them, never repeat a command within the TTL (`KeyedRunsDedup`, `DuplicateAcrossHandoffs`);
- a timeline key that expires under a live lease makes commits invisible: to a client holding commit n,
  exactly those numbered up to n (`ExpiryHidesExactlyTheNextCommits`);
- on that plane a sweep projects with one clock and is stamped with another, so it is transparent if
  and only if they agree (`SweepShiftsByTheClockDifference`);
- a refresh forgets the token version of a user whose row was deleted (`DeletedUsersAreForgotten`) and
  of nobody else (`RefusalsPersist`);
- the drift controller can report `LOCKED` with a nudge still applied (`LockedMayStillBeNudged`): exactly
  three kinds of steps leave a nudge on (`NudgeIsLeftOnExactlyByLeaks`), and in runs without them every
  mode but `NUDGING` means rate 1 (`LockedMeansRateOneWithoutLeaks`);
- the servo's belief about the playback rate is true except exactly when it restarts a player it had
  left at another rate (`BeliefIsTrueExactlyUnlessRestarted`), and runs without such a restart keep it
  true throughout (`BeliefHoldsWithoutRestarts`);
- sweeping idle rate buckets is unobservable if and only if the idle time refills a whole bucket or no
  bucket holds a token (`SweepsAreUnobservableExactlyWhenLongEnough`; the guest buckets qualify).

## Model

| member | source | states |
|---|---|---|
| `Timelines.NewerIsStrictPartialOrder` | shared/sync-core/timeline.ts:19-26 | the clients' acceptance rule is irreflexive, asymmetric and transitive for every reading of epoch texts, unparseable ones included |
| `Timelines.NewerIsTotalExactlyWhenEpochsAreOrdered` | shared/sync-core/timeline.ts:19-26 | two timelines are comparable if and only if they differ in seq within one epoch, or their epochs read as different, non-NaN numbers |
| `Timelines.ProjectionMovesWithTheClock` | shared/sync-core/timeline.ts:4-7 | from the stamped position, a playing timeline advances one media second per second and a paused one stands |
| `Replay.CheckChain` | shared/sync-core/replay.ts:126-133 | reports exactly the illegal consecutive pairs, each once and in order; an empty report is a legal chain |
| `Replay.MatchesExactlyWhenFieldsAgree` | shared/sync-core/replay.ts:139-165 | the newest entry matches the live state if and only if the seven fields agree, positions up to EPS |
| `Replay.EpochsAreNotChained` | shared/sync-core/replay.ts:50-53 | an entry of another epoch may follow any entry |
| `Replay.ContractIsImplementation` | shared/sync-core/replay.ts:50-98 | for every slack, a same-epoch pair passes the contract if and only if some control or snapshot, performed no earlier, produces it up to the slack |
| `Replay.ExactContract` | shared/sync-core/timeline.ts:43-98 | without slack the step produces exactly the logged entry, author aside |
| `Replay.SnapshotsDriftAtMost` | shared/sync-core/replay.ts:87-96 | k accepted snapshots move the projection at any instant by at most k times EPS |
| `RoomStore.InMemoryRoomStateStore.constructor` | video-sync-backend/src/sync/room-state.store.ts:110-118 | a new store has no room |
| `RoomStore.InMemoryRoomStateStore.AppendLog` | video-sync-backend/src/sync/room-state.store.ts:120-135 | appends the entry to that room's log only and drops the oldest beyond 1024 |
| `RoomStore.InMemoryRoomStateStore.DropExpired` | video-sync-backend/src/sync/room-state.store.ts:168-170 | the deletion loop leaves exactly the records that have not expired |
| `RoomStore.InMemoryRoomStateStore.CommitNext` | video-sync-backend/src/sync/room-state.store.ts:189-195 | the next timeline is stored and logged; every other room is untouched |
| `RoomStore.InMemoryRoomStateStore.ApplyControlIntent` | video-sync-backend/src/sync/room-state.store.ts:147-196 | one control is exactly one step of the room's specification (missing, duplicate, fenced or committed), and no other room changes |
| `RoomStore.InMemoryRoomStateStore.ApplySnapshot` | video-sync-backend/src/sync/room-state.store.ts:198-205 | one sweep is exactly one step, and no other room changes |
| `RoomStore.InMemoryRoomStateStore.Init` | video-sync-backend/src/sync/room-state.store.ts:207-231 | the first writer creates a paused room at seq 0; a later one gets the existing timeline |
| `RoomStore.InMemoryRoomStateStore.Clear` | video-sync-backend/src/sync/room-state.store.ts:233-238 | forgets timeline, dedup records and log of that room only |
| `RoomRuns.CommittedControlsObey` | shared/sync-core/timeline.ts:43-81 | a committed play starts at the commanded position, a pause freezes there at every instant, a seek jumps there and keeps the playing state, a set-video shows the given video paused at 0; only set-video changes the video; epoch kept, seq plus one, stamped and signed |
| `RoomRuns.RoomsAreBornPaused` | video-sync-backend/src/sync/room-state.store.ts:207-231 | init creates a missing room once, paused at the given position of the given video with no command remembered, and leaves an existing one alone |
| `RoomRuns.UnnamedCommandsAreNeverDuplicates` | video-sync-backend/src/sync/room-state.store.ts:160-188 | a command without an id, or with an empty one, is never a duplicate and leaves no record |
| `RoomRuns.StepKeepsLogSound` | video-sync-backend/src/sync/room-state.store.ts:120-135 | every call keeps the log a legal, bounded, one-epoch chain that ends in the live state |
| `RoomRuns.ReachableLogsAreSound` | shared/sync-core/replay.ts:126-165 | every reachable state has a log without violations whose newest entry matches the live timeline, through init, controls, sweeps, clears and trims |
| `RoomRuns.LogIsTheRecentHistory` | video-sync-backend/src/sync/room-state.store.ts:115-135 | the log is exactly the newest 1024 commits of the room's current life, with their command ids |
| `RoomRuns.StepAlike` | video-sync-backend/src/sync/room-state.store.ts:160-196 | rooms that agree on timeline, log and unexpired records answer every call alike, and a refusal changes none of these |
| `RoomRuns.DeletingRefusedDeliveriesChangesNothing` | video-sync-backend/src/sync/room-state.store.ts:147-196 | exactly once: deleting every delivery that did not commit yields a run in which all others still commit, with the same final timeline and log |
| `RoomRuns.RecentExactlyWhenUnexpired` | video-sync-backend/src/sync/room-state.store.ts:164-171 | an id has a live record if and only if it committed less than the TTL ago |
| `RoomRuns.UnrecordedIsUnfaithful` | video-sync-backend/src/sync/room-state.store.ts:185-188 | a commit that is not recorded is missing from the table, or repeats too soon one that is in it, so recording every one is necessary |
| `RoomRuns.ControlKeepsFaithful` | video-sync-backend/src/sync/room-state.store.ts:160-188 | a control keeps the dedup table equal to the recent commit history and is a duplicate exactly by that history |
| `RoomRuns.BookKeepsTableExact` | video-sync-backend/src/sync/room-state.store.ts:160-238 | so does every call, clearing included |
| `RoomRuns.RunsKeepTableExact` | video-sync-backend/src/sync/room-state.store.ts:160-238 | and every run |
| `RoomRuns.DuplicateExactlyWhenRecentlyCommitted` | video-sync-backend/src/sync/room-state.store.ts:160-196 | after any run: duplicate if and only if the id committed less than the TTL ago with no clear since; fenced if and only if a position command names another video; two commits of an id are at least the TTL apart; a fenced refusal consumes nothing |
| `RoomRuns.StepPlaysLike` | shared/sync-core/timeline.ts:84-98 | a sweep leaves the projection at every instant as it was |
| `RoomRuns.SweepsAreTransparent` | video-sync-backend/src/sync/room-state.store.ts:198-205 | removing all sweeps from any run leaves what the room plays unchanged at every instant |
| `RoomRuns.StreamIncreases` | video-sync-backend/src/sync/room-state.store.ts:189-231 | each commit of a run supersedes all earlier ones for every client, across clears and new epochs |
| `RoomRuns.CommitsAreNamedByEpochAndSeq` | video-sync-backend/src/sync/room-state.store.ts:189-231 | (epoch, seq) names one committed timeline |
| `RoomRuns.LiveTimelineIsNewest` | video-sync-backend/src/sync/room-state.store.ts:189-231 | the live timeline is the last one committed |
| `Clients.BotClient.constructor` | sync-harness/src/bots/bot-client.ts:198-222 | a new client has applied nothing |
| `Clients.BotClient.Ingest` | sync-harness/src/bots/bot-client.ts:198-222 | one delivery updates timeline, seen numbers, control witnesses and both counters as specified |
| `Clients.BotClient.Bounds` | sync-harness/src/bots/bot-client.ts:372-373 | the least and the greatest number seen |
| `Clients.BotClient.GapsIn` | sync-harness/src/bots/bot-client.ts:370-375 | exactly the numbers inside the observed range that never arrived, ascending |
| `Clients.BotClient.Report` | sync-harness/src/bots/bot-client.ts:364-375 | a number is reported if and only if it is a gap of some epoch |
| `Clients.ClientHoldsAMaximum` | shared/sync-core/timeline.ts:19-26 | under any reordering, duplication and loss a client never regresses, and nothing delivered is newer than what it holds |
| `Clients.ClientEndsOnLatestDelivered` | sync-harness/src/bots/bot-client.ts:198-222 | fed from one store, it holds the latest commit among those delivered |
| `Clients.ClientsConverge` | sync-harness/src/bots/bot-client.ts:198-222 | clients given the same commits in any order and number hold the same timeline, and one delivery of the live timeline restores any client |
| `Clients.SeenIsWhatArrived` | sync-harness/src/bots/bot-client.ts:199-204 | the numbers kept for an epoch are those that arrived |
| `Clients.WitnessedControlsAreWhatArrived` | sync-harness/src/bots/bot-client.ts:206-208 | the control witnesses are exactly the controls that arrived |
| `Clients.DeliveriesAreClassified` | sync-harness/src/bots/bot-client.ts:216-221 | within an epoch each delivery is applied, a duplicate or a reorder, and counted once |
| `Clients.RefusalsAreTold` | sync-harness/src/bots/bot-client.ts:216-221 | a refused delivery of the held epoch is a duplicate exactly if it carries the held number, otherwise a reorder and lower; one of another epoch is neither |
| `Clients.OrderedDeliveryWitnessesTheLastSeek` | sync-harness/src/bots/bot-client.ts:209-215 | fed in commit order, a client knows the last committed seek and counts no reorder |
| `Clients.StreamIsContiguous` | video-sync-backend/src/sync/room-state.store.ts:189-231 | each life of a room numbers its commits from 0 without holes |
| `Clients.GapsAreExactlyTheLosses` | sync-harness/src/bots/bot-client.ts:364-375 | a gap is reported if and only if the store committed that number, it was never delivered, and a lower and a higher one were |
| `ActorPlane.StepKeepsInstancesSound` | video-sync-backend/src/sync/actor-room-state.store.ts:229-320 | every atomic step but the two harmful ones keeps: whatever an instance caches, has read, has sent or is about to cache under the live lease equals the stored state, or an own commit's reply behind it will make it so |
| `ActorPlane.ExecuteKeepsSound` | video-sync-backend/src/sync/actor-room-state.store.ts:271-300 | a commit's own entries and late init answers fall behind it by number or epoch, and stay marked as such until its reply |
| `ActorPlane.HandleKeepsSound` | video-sync-backend/src/sync/actor-room-state.store.ts:301-319 | handling a reply in order leaves the cached timeline current for whatever fence the entry then has |
| `ActorPlane.InitScriptKeepsSound` | video-sync-backend/src/sync/lua/actor_init.lua:8-52 | an init script, with its answer still under way, disturbs nothing the lease's holder relies on |
| `ActorPlane.InitCachedKeepsSound` | video-sync-backend/src/sync/actor-room-state.store.ts:541-554 | caching an init answer in order installs a state that is current or about to be overwritten |
| `ActorPlane.CommitSupersedes` | video-sync-backend/src/sync/lua/actor_commit.lua:29-38 | a commit under the live lease is newer than every earlier one |
| `ActorPlane.StepKeepsStreamSound` | video-sync-backend/src/sync/lua/actor_commit.lua:23-85 | every atomic step keeps commits increasing, the lease newest and the stored state last |
| `ActorPlane.StepKeepsTruthful` | video-sync-backend/src/sync/lua/actor_commit.lua:53-66 | every atomic step but an identified commit over no stored state keeps the dedup keys equal to the recent history of all identified commits, whoever owns the room |
| `ActorPlane.ReceiptsAreTheIdentifiedCommits` | video-sync-backend/src/sync/lua/actor_commit.lua:53-66 | that history is one receipt for each accepted execution of a command with an id, keyed or not |
| `ActorPlane.RunKeepsStreamSound` | video-sync-backend/src/sync/lua/actor_commit.lua:23-85 | in every legal interleaving, harmful steps included, commits increase |
| `ActorPlane.RunKeepsTruthful` | video-sync-backend/src/sync/lua/actor_commit.lua:53-66 | in every legal interleaving whose identified commits found a stored state the dedup keys are the recent history |
| `ActorPlane.RunKeepsInv` | video-sync-backend/src/sync/actor-room-state.store.ts:20-37 | in every legal interleaving without a harmful step instances, commits and dedup keys are right and every identified commit finds a stored state; init is not queued and may overlap anything |
| `ActorPlane.LiveCacheIsTheStoredState` | video-sync-backend/src/sync/actor-room-state.store.ts:229-246 | across handoff, expiry, reclaim, zombie revival and overlapping init, an instance whose cached fence is the live lease caches the stored state, unless the reply of its own accepted commit is just under way |
| `ActorPlane.AcceptedCommitsActOnTheStoredState` | video-sync-backend/src/sync/actor-room-state.store.ts:271-320 | an accepted commit performs its command on the state the store then holds, with the next number of its fence; a refused one changes nothing |
| `ActorPlane.AcceptedControlObeys` | video-sync-backend/src/sync/actor-room-state.store.ts:442-457 | an accepted control does to its base what its intent promises, stamped by the store's clock and named by the fence |
| `ActorPlane.AcceptedControlsObeyTheStoredState` | video-sync-backend/src/sync/actor-room-state.store.ts:442-457 | in every clean run, to the timeline the store holds at that moment |
| `ActorPlane.InitCreatesOnlyWhatIsMissing` | video-sync-backend/src/sync/lua/actor_init.lua:8-52 | under the live lease init creates a missing room paused at the given position, touches no other, and answers with what is stored |
| `ActorPlane.RunsCommitNoEmptyNames` | video-sync-backend/src/sync/lua/actor_commit.lua:79-85 | no run commits an empty video id or author; absent values are stored as absent |
| `ActorPlane.UnnamedCommandsAreNeverDuplicates` | video-sync-backend/src/sync/lua/actor_commit.lua:53-66 | a command without an id is never answered "dup" and leaves no receipt |
| `ActorPlane.CommitsIncrease` | video-sync-backend/src/sync/actor-room-state.store.ts:35-36 | in every legal run accepted commits strictly increase in (fence, seq) |
| `ActorPlane.KeyedRunsDedup` | video-sync-backend/src/sync/actor-room-state.store.ts:281-285 | in every legal run whose identified commits found a stored state, no command commits twice within the TTL across owners, and the live owner is answered "dup" if and only if the id committed within the TTL |
| `ActorPlane.DuplicateAcrossHandoffs` | video-sync-backend/src/sync/lua/actor_commit.lua:53-57 | both hold in every legal run without a harmful step |
| `ActorPlane.ClientsReachTheStoredState` | video-sync-backend/src/sync/actor-room-state.store.ts:35-36 | one delivery of the stored state brings any client of the plane to it |
| `ActorPlane.SweepShiftsByTheClockDifference` | video-sync-backend/src/sync/actor-room-state.store.ts:506-521 | a sweep shifts the room by exactly the difference between instance clock and store clock; transparent if and only if they agree |
| `ActorPlane.SweepPassesTheContractExactlyWhenClocksAgree` | shared/sync-core/replay.ts:87-96 | its log entry passes the replay contract if and only if the clocks differ by at most a microsecond of media time |
| `ActorFailures.LookIsSafeExactlyUnlessStale` | video-sync-backend/src/sync/actor-room-state.store.ts:248-254 | the look under a claimed fence keeps the instances right if and only if it finds no local entry, one of the claimed fence, one equal to the stored state, or the lease is gone; otherwise a wrong state is cached under the live lease next |
| `ActorFailures.FailureIsSafeExactlyUnlessCommitted` | video-sync-backend/src/sync/actor-room-state.store.ts:271-300 | losing a reply keeps the instances right if and only if the commit was not accepted, its lease is gone, or no entry carries its fence |
| `ActorFailures.CarefulRunsAreClean` | video-sync-backend/src/sync/actor-room-state.store.ts:434-439 | runs in which every look compares fences and no accepted commit loses its reply have no harmful step |
| `ActorFailures.LateInitAnswerPausesTheRoom` | video-sync-backend/src/sync/actor-room-state.store.ts:523-556 | a legal run from an untouched room in which the answer of an init is cached after two handoffs, installed under the live lease, and an accepted seek is about to pause the playing room |
| `ActorFailures.LostReplyLeavesTheCacheBehind` | video-sync-backend/src/sync/actor-room-state.store.ts:442-457 | every idle owner whose plain control is committed but errors is left with a wrong cache under its live lease |
| `ActorFailures.CommitIsKeyedExactlyWhenStored` | video-sync-backend/src/sync/lua/actor_commit.lua:53-66 | an accepted identified commit keeps the dedup keys equal to the history if and only if there is a stored timeline |
| `ActorFailures.UnkeyedCommitBreaksDedup` | video-sync-backend/src/sync/lua/actor_commit.lua:53-66 | otherwise the id has just been committed twice within the TTL, or is not recognised if it comes again at once |
| `ActorFailures.ClearedRoomCommitsTwice` | video-sync-backend/src/sync/actor-room-state.store.ts:572-575 | a legal run from an untouched room in which a clear overtakes a late init answer and one identified command commits twice at the same instant |
| `ActorFailures.CommitAdvancesExactlyWhenTheStateSurvives` | video-sync-backend/src/sync/lua/actor_commit.lua:31-38 | a commit is newer than the last one if and only if the stored state is still there, or the last one had an older fence or no number yet |
| `ActorFailures.StepNumbers` | video-sync-backend/src/sync/lua/actor_commit.lua:29-38 | under a standing lease a step commits nothing or one state with the next number of the fence |
| `ActorFailures.NumbersRestart` | video-sync-backend/src/sync/lua/actor_commit.lua:31-38 | after the key expired, all commits under that lease are numbered without holes from 1, or from 0 if the room is created anew |
| `ActorFailures.ExpiryHidesExactlyTheNextCommits` | video-sync-backend/src/sync/lua/actor_commit.lua:71-71 | of these, a client that holds the last commit n before the expiry accepts exactly those numbered above n, and no delivery of the others in any order moves it |
| `ActorStore.AcceptedActsOnStored` | video-sync-backend/src/sync/actor-room-state.store.ts:442-468 | in a sound plane an accepted commit is the command performed on the stored timeline |
| `ActorStore.CommitIsRefined` | video-sync-backend/src/sync/actor-room-state.store.ts:442-468 | so in a clean run every accepted commit is one step of the single store on the state then held |
| `ActorStore.ReadyIsAnswered` | video-sync-backend/src/sync/lua/actor_commit.lua:53-66 | under the live lease the script answers duplicate, then fenced, then commits, as the stored state calls for |
| `ActorStore.ActorRoomStateStore.constructor` | video-sync-backend/src/sync/actor-room-state.store.ts:328-341 | an instance starts from any world with nothing of its own done |
| `ActorStore.ActorRoomStateStore.Await` | video-sync-backend/src/sync/actor-room-state.store.ts:328-341 | everything scheduled for this await happens, the instance's own inits, renewals and losses included, and the operation at the head of the queue has not moved |
| `ActorStore.ActorRoomStateStore.Enter` | video-sync-backend/src/sync/actor-room-state.store.ts:376-378 | a control that finds the room unowned is the operation that will claim it |
| `ActorStore.ActorRoomStateStore.Claim` | video-sync-backend/src/sync/actor-room-state.store.ts:220-227 | the lease is this instance's to use, or a foreign one is returned as observed |
| `ActorStore.ActorRoomStateStore.Leave` | video-sync-backend/src/sync/actor-room-state.store.ts:379-394 | a forwarded control frees the queue and commits nothing |
| `ActorStore.ActorRoomStateStore.Revoke` | video-sync-backend/src/sync/actor-room-state.store.ts:400-410 | undisturbed, the lease is gone exactly if it is still the one observed |
| `ActorStore.ActorRoomStateStore.Steal` | video-sync-backend/src/sync/actor-room-state.store.ts:395-411 | revoking the observed lease and claiming again; undisturbed, the lease of a silent owner becomes this instance's, at the new epoch |
| `ActorStore.ActorRoomStateStore.Fetch` | video-sync-backend/src/sync/actor-room-state.store.ts:248-254 | the stored state is read at some later moment, or there is none |
| `ActorStore.ActorRoomStateStore.Load` | video-sync-backend/src/sync/actor-room-state.store.ts:434-439 | what `get` finds, the local entry or the stored state, is cached under the claimed fence and the command is sent from it |
| `ActorStore.ActorRoomStateStore.Submit` | video-sync-backend/src/sync/actor-room-state.store.ts:278-300 | the script decides at a later moment and counts one commit exactly if it accepts |
| `ActorStore.ActorRoomStateStore.Receive` | video-sync-backend/src/sync/actor-room-state.store.ts:301-319 | earlier init answers come first; handling the reply, or losing it, frees the queue; a rejection drops ownership |
| `ActorStore.ActorRoomStateStore.Commit` | video-sync-backend/src/sync/actor-room-state.store.ts:271-320 | an accepted commit acted on the state then stored; a rejected one leaves the instance without the room; a lost reply may hide one commit |
| `ActorStore.ActorRoomStateStore.Serve` | video-sync-backend/src/sync/actor-room-state.store.ts:442-450 | an owner's commit is computed from its cached entry and fence |
| `ActorStore.ActorRoomStateStore.Acquire` | video-sync-backend/src/sync/actor-room-state.store.ts:376-440 | ends in a commit about to be sent, or forwarded to someone who listens, or missing; it commits nothing; undisturbed, a room with a state is made ready whenever it may be claimed or its owner does not listen |
| `ActorStore.ActorRoomStateStore.Retry` | video-sync-backend/src/sync/actor-room-state.store.ts:469-503 | the second attempt commits once if and only if it answers committed; undisturbed it answers as the stored state calls for if the lease may be claimed, and else forwards to a listening owner |
| `ActorStore.ActorRoomStateStore.Conclude` | video-sync-backend/src/sync/actor-room-state.store.ts:451-503 | a ready commit, and once more if it is fenced out, with the same promises |
| `ActorStore.ActorRoomStateStore.ApplyControlSerial` | video-sync-backend/src/sync/actor-room-state.store.ts:361-504 | in every schedule one call commits its command once if it answers committed, at most once if it errors on a lost reply, never otherwise; in clean runs on the state then stored; undisturbed, the answer is exactly the one that lease, stored state and the owner's silence call for |
| `ActorStore.ActorRoomStateStore.ApplySnapshot` | video-sync-backend/src/sync/actor-room-state.store.ts:506-521 | only the owner of a playing room sweeps, at most one commit, on the state then stored; undisturbed under its live lease, exactly one |
| `RevocationService.Service.constructor` | video-sync-backend/src/auth/revocation.service.ts:125-130 | a service begins unloaded and knows nothing |
| `RevocationService.Service.Remember` | video-sync-backend/src/auth/revocation.service.ts:394-397 | a token enters the live set, and the pending one during a refresh |
| `RevocationService.Service.RememberUser` | video-sync-backend/src/auth/revocation.service.ts:400-407 | a version is raised, never lowered, likewise in both maps |
| `RevocationService.Service.Begin` | video-sync-backend/src/auth/revocation.service.ts:271-274 | a refresh raises its flag and empties the buffers |
| `RevocationService.Service.AddPending` | video-sync-backend/src/auth/revocation.service.ts:296-296 | the loop yields the union of read and pending tokens |
| `RevocationService.Service.RaisePending` | video-sync-backend/src/auth/revocation.service.ts:297-299 | the loop yields the pointwise maximum of read and pending versions |
| `RevocationService.Service.Replace` | video-sync-backend/src/auth/revocation.service.ts:289-303 | the snapshot becomes what was read, merged with what arrived meanwhile |
| `RevocationService.Service.End` | video-sync-backend/src/auth/revocation.service.ts:315-319 | the flag and the buffers are reset, after success or failure |
| `RevocationService.BootIsSound` | video-sync-backend/src/auth/revocation.service.ts:125-130 | the invariant holds at boot |
| `RevocationService.StepKeepsTokensSound` | video-sync-backend/src/auth/revocation.service.ts:271-320 | every step keeps: what the tokens query missed is pending or had expired |
| `RevocationService.StepKeepsVersionsSound` | video-sync-backend/src/auth/revocation.service.ts:271-320 | every step keeps: no version lies above the stored one, and what the users query missed is pending |
| `RevocationService.StepAdvances` | video-sync-backend/src/auth/revocation.service.ts:252-320 | every step refines the monotone specification: only a replacement drops, and only what had expired at its query |
| `RevocationService.RefusalsPersist` | video-sync-backend/src/auth/revocation.service.ts:252-320 | in every interleaving a remembered token stays refused until it has expired and no version of an existing user decreases |
| `RevocationService.RevokedStaysRevoked` | video-sync-backend/src/auth/revocation.service.ts:125-144 | a token once refused is refused on every later request |
| `RevocationService.UnloadedTrustsNobody` | video-sync-backend/src/auth/revocation.service.ts:125-130 | before the first refresh completes every token is refused |
| `RevocationService.HeardTokensAreRefused` | video-sync-backend/src/auth/revocation.service.ts:394-397 | once a revocation is heard the token is refused at once and, in every further run, until it has expired |
| `RevocationService.HeardVersionsAreEnforced` | video-sync-backend/src/auth/revocation.service.ts:400-407 | once a version is heard every older or malformed token of the user is refused at once and for as long as the user exists |
| `RevocationService.RefreshEnforcesTheDatabase` | video-sync-backend/src/auth/revocation.service.ts:271-303 | in every interleaving, whatever rows and versions were stored before a refresh began are in force when it replaces the snapshot, heard of or not, and the service is loaded |
| `RevocationService.UndisturbedRefreshEnforces` | video-sync-backend/src/auth/revocation.service.ts:271-303 | an undisturbed refresh makes exactly the unexpired rows and the stored versions the snapshot |
| `RevocationService.SweepDropsExactlyTheExpired` | video-sync-backend/src/auth/revocation.service.ts:417-430 | the table sweep deletes the rows of expired tokens and no other |
| `RevocationService.GenuineTokensAreTrusted` | video-sync-backend/src/auth/revocation.service.ts:125-144 | a token never revoked, of the stored version, is trusted after any run |
| `RevocationService.DeletedUsersAreForgotten` | video-sync-backend/src/auth/guest-sweeper.service.ts:27-42 | one undisturbed refresh resets the version of a deleted user to 0 |
| `RelayRevocation.BootIsSound` | relay-rs/src/main.rs:254-268 | the invariant holds at boot |
| `RelayRevocation.RefreshKeepsTokensSound` | relay-rs/src/main.rs:295-326 | every step of the refresh thread keeps each unexpired refused token read, pending, or about to be teed by the handler that holds the lock |
| `RelayRevocation.EventsKeepTokensSound` | relay-rs/src/main.rs:351-357 | so does every step of the event handler |
| `RelayRevocation.RefreshKeepsUserSound` | relay-rs/src/main.rs:327-343 | the same for versions, which never decrease |
| `RelayRevocation.EventsKeepUserSound` | relay-rs/src/main.rs:361-372 | the same for the version handler |
| `RelayRevocation.StepAdvances` | relay-rs/src/main.rs:295-372 | every lock-level step refines the same monotone specification as the backend |
| `RelayRevocation.RefusalsPersist` | relay-rs/src/main.rs:295-372 | in every lock-level interleaving a remembered token stays refused until it expires and no version decreases |
| `RelayRevocation.RevokedStaysRevoked` | relay-rs/src/main.rs:277-289 | an identity once refused at the door stays refused until its token has expired |
| `RelayRevocation.HeardTokensAreRefused` | relay-rs/src/main.rs:351-357 | a token an event revokes is refused at once and until it has expired |
| `RelayRevocation.HeardVersionsAreEnforced` | relay-rs/src/main.rs:361-372 | a version an event brings refuses every older identity at once and for good |
| `RelayRevocation.RefreshEnforcesTheMirror` | relay-rs/src/main.rs:295-344 | in every lock-level interleaving, whatever the mirror held before a refresh began is in force once its successful reads are merged |
| `RelayRevocation.UndisturbedRefreshEnforces` | relay-rs/src/main.rs:295-344 | an undisturbed refresh makes the snapshot the mirror |
| `RelayRevocation.PlanesAgreeOnTokens` | relay-rs/src/main.rs:187-207 | with equal refusals the relay turns away exactly the tokens the backend refuses or cannot name, an empty token id aside |
| `Sessions.MintKeepsInv` | video-sync-backend/src/auth/auth.service.ts:347-355 | a minted token descends from its parent and spends the row its request created |
| `Sessions.ClaimKeepsInv` | video-sync-backend/src/auth/revocation.service.ts:172-194 | a created row licenses one request, and a second creation needs an expired token |
| `Sessions.RowsKeepInv` | video-sync-backend/src/auth/revocation.service.ts:417-430 | logouts, bumps and row sweeps keep this; a sweep drops only rows of expired tokens |
| `Sessions.RunKeepsInv` | video-sync-backend/src/auth/auth.service.ts:256-356 | every interleaving of refreshes, sign-ins, logouts, bumps and sweeps keeps the lineage invariant |
| `Sessions.AtMostOneSuccessor` | video-sync-backend/src/auth/auth.service.ts:311-345 | however many refreshes race, an unexpired token has at most one successor |
| `Sessions.LineageKeepsBirthAndVersion` | video-sync-backend/src/auth/auth.service.ts:102-119 | subject and birth are constant along a lineage and the version never rises |
| `Sessions.SessionsAreBounded` | video-sync-backend/src/auth/auth.service.ts:268-301 | in every reachable state no refresh, minted or still under way, was admitted more than SESSION_MAX_S after the session's birth, and a lineage older than a version bump never reaches the new version |
| `Sessions.UncontestedRefreshSucceeds` | video-sync-backend/src/auth/auth.service.ts:256-356 | left alone, a current, unrevoked, young enough token is refreshed at the stored version |
| `Sessions.SpentTokensAreNotAdmitted` | video-sync-backend/src/auth/auth.service.ts:268-276 | an expired token, or one past its session's age limit, starts no refresh |
| `Sessions.OvertakenTokensNeverMint` | video-sync-backend/src/auth/auth.service.ts:278-301 | once the stored version has overtaken a token, no request that has not yet read the version ever mints from it, in every further run |
| `Sessions.BumpedTokensNeverMint` | video-sync-backend/src/auth/revocation.service.ts:215-229 | after a version bump, in every further run, no token of the user at or below the old version is refreshed, unless a request had already read the old version |
| `Sessions.SignedOutTokensNeverMint` | video-sync-backend/src/auth/auth.service.ts:302-345 | while it is unexpired, a token whose id has a row mints nothing in any run, unless a request had already claimed it |
| `Sessions.LoggedOutTokensNeverMint` | video-sync-backend/src/auth/revocation.service.ts:147-160 | a logout ends a token in this sense |
| `Sorting.SortSorts` | shared/sync-core/clock-estimator.ts:96-99 | sorting yields an ordered permutation for every weak order |
| `Sorting.OutsideSort` | shared/sync-core/clock-estimator.ts:99-100 | sorting preserves how many values lie farther than d from the truth |
| `ClockEstimation.ClockEstimator.constructor` | shared/sync-core/clock-estimator.ts:65-73 | no estimate at first |
| `ClockEstimation.ClockEstimator.Add` | shared/sync-core/clock-estimator.ts:76-87 | a non-causal exchange is refused without effect; any other enters the ring and re-estimates |
| `ClockEstimation.ClockEstimator.RecomputeTarget` | shared/sync-core/clock-estimator.ts:89-113 | target, uncertainty and step-or-slew decision follow from the selection |
| `ClockEstimation.ClockEstimator.AdvanceSlew` | shared/sync-core/clock-estimator.ts:116-126 | one tick moves the applied offset as specified |
| `ClockEstimation.ClockEstimator.Push` | shared/sync-core/clock-estimator.ts:80-83 | the ring keeps the newest samples |
| `ClockEstimation.ClockEstimator.Reset` | shared/sync-core/clock-estimator.ts:148-155 | all history is dropped; the run results include resets |
| `ClockEstimation.BestAreLowestDelays` | shared/sync-core/clock-estimator.ts:90-98 | the selection is recent, ordered by delay, and no unselected recent sample has a lower delay |
| `ClockEstimation.RecentIsExactly` | shared/sync-core/clock-estimator.ts:90-92 | the window keeps every recent sample as often as it was taken and nothing else |
| `ClockEstimation.SelectionIsFull` | shared/sync-core/clock-estimator.ts:94-98 | the selection has bestK samples or the whole window, and prefers the newer of equal delays |
| `ClockEstimation.FewLieOutside` | shared/sync-core/clock-estimator.ts:96-99 | at most the samples behind the middle one can be farther off than half the middle delay |
| `ClockEstimation.MedianIsAccurate` | shared/sync-core/clock-estimator.ts:99-101 | the median misses the truth by at most half the middle selected delay |
| `ClockEstimation.HonestSampleIsAccurate` | shared/sync-core/clock-estimator.ts:77-80 | with nonnegative one-way delays each sample misses by at most half its delay, as in section 8 of RFC 5905 |
| `ClockEstimation.TargetIsAccurate` | shared/sync-core/clock-estimator.ts:76-113 | the same bound for the target after every sample history |
| `ClockEstimation.RefusedExactlyWhenNonCausal` | shared/sync-core/clock-estimator.ts:76-84 | an exchange is refused, without effect, if and only if it is non-causal; otherwise its round trip is recorded |
| `ClockEstimation.RingIsTheRecentHistory` | shared/sync-core/clock-estimator.ts:80-83 | the ring holds exactly the newest samples accepted since the last reset |
| `ClockEstimation.UncertaintyIsHalfTheLeastDelay` | shared/sync-core/clock-estimator.ts:102-102 | the reported uncertainty is half the least delay in the window |
| `ClockEstimation.BoundsExactlyWhenPinnedDown` | shared/sync-core/clock-estimator.ts:99-102 | a bound holds for every truth a selection admits if and only if one sample rules out all lower and one all higher truths |
| `ClockEstimation.UncertaintyIsHonestExactlyWhenPinnedDown` | shared/sync-core/clock-estimator.ts:102-102 | after any history of honest exchanges this decides exactly when the reported uncertainty bounds the error of the target for every truth that the selection admits |
| `ClockEstimation.UncertaintyIsHonestExactlyWhenHistoryPinsDown` | shared/sync-core/clock-estimator.ts:76-113 | and, over all exchanges ever fed, exactly when it does so for every truth that all of them admit |
| `ClockEstimation.SmallestDelayIsNoBound` | shared/sync-core/clock-estimator.ts:76-102 | three honest exchanges fed to a fresh estimator leave it with uncertainty 0 and an error of 5 |
| `ClockEstimation.TickShrinksTheGap` | shared/sync-core/clock-estimator.ts:116-126 | a tick shrinks the gap by the slew rate and never overshoots |
| `ClockEstimation.AppliedStaysClose` | shared/sync-core/clock-estimator.ts:104-126 | after every sample and tick the applied offset is within the slew threshold of the target |
| `ClockEstimation.TicksShrinkTheGap` | shared/sync-core/clock-estimator.ts:116-126 | ticks covering a time T shrink the gap by exactly rate times T, however they are spaced |
| `ClockEstimation.SlewLaw` | shared/sync-core/clock-estimator.ts:116-131 | the gap closes within a bounded time without overshoot, and mapped server time advances at a rate within 1 plus or minus the slew rate, never backwards |
| `ClockEstimation.SmallMovesAreLeftToTheSlew` | shared/sync-core/clock-estimator.ts:104-112 | a sample that moves the target by less than the threshold leaves the mapped time alone; the first one, or one that moves it farther, steps to the target |
| `ClockEstimation.FirstTickOnlyStarts` | shared/sync-core/clock-estimator.ts:116-126 | the first tick moves nothing |
| `ClockEstimation.SmoothRunsNeverJump` | shared/sync-core/clock-estimator.ts:89-131 | over runs of ticks and such samples mapped server time advances at a rate within 1 plus or minus the slew rate, never backwards |
| `ClockEstimation.ServerNowIsAccurate` | shared/sync-core/clock-estimator.ts:129-131 | after any honest history and any ticks, mapped server time is off by less than half the middle selected delay plus the slew threshold |
| `DriftControl.DriftController.constructor` | shared/sync-core/drift-controller.ts:124-126 | the initial state |
| `DriftControl.DriftController.Suspend` | shared/sync-core/drift-controller.ts:135-144 | standing down resets everything owned but the seek clock and the lead |
| `DriftControl.DriftController.Resume` | shared/sync-core/drift-controller.ts:147-151 | the first out-of-band tick after a resume acts |
| `DriftControl.DriftController.Tick` | shared/sync-core/drift-controller.ts:163-216 | one evaluation is exactly one specified step, lifecycle first |
| `DriftControl.DriftController.Reconcile` | shared/sync-core/drift-controller.ts:184-198 | the branch for a paused room |
| `DriftControl.DriftController.Track` | shared/sync-core/drift-controller.ts:218-273 | the branch for a playing room and player |
| `DriftControl.DriftController.Observe` | shared/sync-core/drift-controller.ts:218-230 | the drift is the median of the last three readings |
| `DriftControl.DriftController.Dispatch` | shared/sync-core/drift-controller.ts:233-290 | settle, gross desync, in band, out of band, in that order |
| `DriftControl.DriftController.Relax` | shared/sync-core/drift-controller.ts:275-286 | a nudge ends inside the exit band only |
| `DriftControl.DriftController.Settle` | shared/sync-core/drift-controller.ts:234-268 | after a seek: cooldown, stability, lead learning, spaced correction |
| `DriftControl.DriftController.Correct` | shared/sync-core/drift-controller.ts:288-354 | sustained drift is nudged, re-aimed, escalated, sought or tolerated |
| `DriftControl.DriftController.Seek` | shared/sync-core/drift-controller.ts:357-376 | a seek aims at the projection plus lead and drops the rate flag |
| `DriftRuns.StepIsPaced` | shared/sync-core/drift-controller.ts:163-376 | one step moves the seek clock exactly when it seeks or starts, and a seek outside gross desync respects the spacing |
| `DriftRuns.SeeksAreSpaced` | shared/sync-core/drift-controller.ts:163-376 | in every run each seek outside gross desync comes at least seekSpacingMs after every earlier seek and start |
| `DriftRuns.PlayingStepCools` | shared/sync-core/drift-controller.ts:233-273 | in a playing room, out of SEEKING the cooldown has passed |
| `DriftRuns.SeeksAreCooled` | shared/sync-core/drift-controller.ts:233-273 | while the room plays without suspension any two seeks are at least seekCooldownMs apart, gross desync included |
| `DriftRuns.LeadStaysBounded` | shared/sync-core/drift-controller.ts:240-266 | the learned lead stays between 0 and its maximum in every run |
| `DriftRuns.StepKeepsRateOwned` | shared/sync-core/drift-controller.ts:275-341 | one step and its execution keep the belief about the rate truthful |
| `DriftRuns.RateIsOwned` | sync-harness/src/bots/bot-client.ts:278-311 | in every run: no flag means rate 1, any other rate is the recorded nudge, and NUDGING means it is in effect and timed |
| `DriftRuns.SteadyRunSettles` | shared/sync-core/drift-controller.ts:234-253 | quiet ticks after a start settle into LOCKED without a rate command |
| `DriftRuns.NudgeIsLeftOnExactlyByLeaks` | shared/sync-core/drift-controller.ts:147-215 | a step that leaves NUDGING leaves the nudge applied if and only if it is a resume, the start of a stopped player, or a tick of a paused room without a reconcile seek |
| `DriftRuns.LockedMeansRateOneWithoutLeaks` | shared/sync-core/drift-controller.ts:147-355 | in every run without such a step, LOCKED and every other mode but NUDGING mean rate 1 |
| `DriftRuns.LockedMayStillBeNudged` | shared/sync-core/drift-controller.ts:147-215 | after each such step quiet ticks lead to LOCKED with the nudge still applied |
| `DriftCorrections.NothingWithoutATimeline` | shared/sync-core/drift-controller.ts:163-166 | a suspended controller, or one without a timeline, does nothing |
| `DriftCorrections.StartsAndPausesExactly` | shared/sync-core/drift-controller.ts:184-216 | the player is started if and only if the room plays and it is paused or cued, and paused if and only if the room is paused and it plays; a start is settled but teaches the lead nothing |
| `DriftCorrections.SeeksExactlyWhenDue` | shared/sync-core/drift-controller.ts:184-376 | a seek is issued if and only if one of five reasons holds, is counted, and goes to the room's position, plus the lead if the room plays |
| `DriftCorrections.GrossDesyncIsSoughtAtOnce` | shared/sync-core/drift-controller.ts:270-273 | one reading beyond the instant threshold is answered by a seek |
| `DriftCorrections.NudgesExactlyWhenDue` | shared/sync-core/drift-controller.ts:294-328 | a nudge is set if and only if a lasting small drift has none or one of the wrong sign; it opposes the drift and is counted |
| `DriftCorrections.ClearsExactlyWhenDue` | shared/sync-core/drift-controller.ts:169-182 | the rate is cleared if and only if a nudge has brought the drift inside the exit band or the player buffers with a rate applied |
| `DriftCorrections.StallsAreRemembered` | shared/sync-core/drift-controller.ts:169-174 | a stall is remembered unless a seek is settling |
| `DriftCorrections.HysteresisCountsConsecutiveReadings` | shared/sync-core/drift-controller.ts:275-292 | the hysteresis counts consecutive readings outside the deadband; one inside or a seek starts it over |
| `DriftCorrections.SettlingCountsConsecutiveReadings` | shared/sync-core/drift-controller.ts:234-254 | a seek is locked after as many consecutive readings inside the deadband, past the cooldown, as asked for; one outside starts the count over |
| `DriftCorrections.LastingDriftIsCorrected` | shared/sync-core/drift-controller.ts:288-355 | as many one-sided readings in a row as the hysteresis asks for, within the controller's means, are answered by a nudge or a seek |
| `DriftCorrections.ResumedControllerActsAtOnce` | shared/sync-core/drift-controller.ts:146-151 | after a resume the first such reading is enough |
| `DriftCorrections.OneOutlierOfThreeIsHarmless` | shared/sync-core/drift-controller.ts:225-230 | one outlier among three readings does not move the drift out of the band the other two are in |
| `DriftCorrections.WindowKeepsTheLastThree` | shared/sync-core/drift-controller.ts:226-227 | the window is the last three readings |
| `DriftCorrections.LeadLearnsHalfTheResidual` | shared/sync-core/drift-controller.ts:239-266 | the lead changes only when a seek has settled or missed, by half the residual within its bounds |
| `DriftCorrections.LeadErrorHalves` | shared/sync-core/drift-controller.ts:256-266 | against a constant landing latency each such seek halves the error of the lead |
| `DriftCorrections.SuspensionForgets` | shared/sync-core/drift-controller.ts:128-151 | after suspend and resume every run is answered as if nothing but the last seek time and the lead had been kept |
| `Discipline.DisciplineController.constructor` | shared/sync-core/discipline-controller.ts:73-84 | the inner controller seeks only at the edge of the servo zone |
| `Discipline.DisciplineController.ResetServo` | shared/sync-core/discipline-controller.ts:105-117 | everything but the skew estimate and its covariance is reset |
| `Discipline.DisciplineController.Suspend` | shared/sync-core/discipline-controller.ts:87-90 | both layers stand down |
| `Discipline.DisciplineController.Resume` | shared/sync-core/discipline-controller.ts:92-94 | only the inner controller resumes |
| `Discipline.DisciplineController.OnRateApplied` | shared/sync-core/discipline-controller.ts:192-194 | the belief about the rate becomes what was reported |
| `Discipline.DisciplineController.Tick` | shared/sync-core/discipline-controller.ts:119-189 | one evaluation is exactly one specified step of both layers |
| `Discipline.DisciplineController.Steer` | shared/sync-core/discipline-controller.ts:141-189 | the servo regime: zone, estimate, clamped command, hysteresis |
| `Discipline.DisciplineController.Estimate` | shared/sync-core/discipline-controller.ts:149-171 | one least-squares update and one anti-windup integration, for intervals between 0 and 2 seconds only |
| `DisciplineRuns.CovarianceStays` | shared/sync-core/discipline-controller.ts:157-159 | the covariance never increases and never falls below 1 - forgetting |
| `DisciplineRuns.UpdateContracts` | shared/sync-core/discipline-controller.ts:157-159 | an update with a measurement within noise of b shrinks the excess error by the factor forgetting |
| `DisciplineRuns.EstimateConverges` | shared/sync-core/discipline-controller.ts:157-159 | after n measurements within noise of b the error is at most the noise plus forgetting to the n times the initial excess |
| `DisciplineRuns.RunLearns` | shared/sync-core/discipline-controller.ts:148-171 | the estimate and covariance of a run are what its measurements, in order, teach; nothing else touches them |
| `DisciplineRuns.RunEstimateConverges` | shared/sync-core/discipline-controller.ts:119-189 | so over every servo run with n measurements within noise of b the same bound holds of its estimate |
| `DisciplineRuns.MeasurementIsSkewPlusBeliefError` | shared/sync-core/discipline-controller.ts:152-155 | a measurement is the true skew plus the error of the believed rate |
| `DisciplineRuns.KnownSkewIsCancelled` | shared/sync-core/discipline-controller.ts:175-181 | with the skew known, an unclamped command leaves exactly the PI feedback; a clamped one errs on the known side |
| `DisciplineRuns.InnerNeverNudges` | shared/sync-core/discipline-controller.ts:119-125 | without fractional rates the inner controller neither nudges nor commands a rate |
| `DisciplineRuns.StepKeepsBounded` | shared/sync-core/discipline-controller.ts:119-189 | one step keeps command, integral and covariance within their bounds |
| `DisciplineRuns.RunsAreBounded` | shared/sync-core/discipline-controller.ts:119-189 | so does every run, and every rate commanded is within 1 plus or minus the clamp |
| `DisciplineRuns.ServoActsExactly` | shared/sync-core/discipline-controller.ts:119-189 | the inner controller's actions are passed on; otherwise a rate is commanded if and only if the servo steers and the command differs from the believed rate by the hysteresis, and cleared if and only if an active servo stands down |
| `DisciplineRuns.ZoneIsTheServos` | shared/sync-core/discipline-controller.ts:77-84 | from LOCKED the inner controller seeks only at or beyond the edge of the servo zone, or on a gross desync |
| `DisciplineRuns.IntegralAccumulatesDrift` | shared/sync-core/discipline-controller.ts:161-170 | a steering tick adds drift times interval to the integral, stopping at its bound, unless the last command was clamped |
| `DisciplineRuns.SeeksAndSuspensionsStartOver` | shared/sync-core/discipline-controller.ts:105-130 | a seek or a suspension starts the servo over but for the skew estimate |
| `DisciplineRuns.BeliefIsTrueExactlyUnlessRestarted` | shared/sync-core/discipline-controller.ts:131-138 | the belief about the rate stays true across a tick and its execution if and only if the tick does not restart a player left at another rate than 1 |
| `DisciplineRuns.BeliefHoldsWithoutRestarts` | sync-harness/src/bots/bot-client.ts:278-311 | in every run of ticks, suspensions, resumes and reports without such a restart the believed rate is the player's |
| `Frames.CopyInto` | sync-harness/src/bots/transport.ts:301-310 | bytes land behind those already written and nothing else changes |
| `Frames.WriteRoom` | sync-harness/src/bots/transport.ts:302-306 | type, intent, position, length and room name are written in this order |
| `Frames.WriteId` | sync-harness/src/bots/transport.ts:307-310 | length and bytes of the command id end the frame |
| `Frames.SendControl` | sync-harness/src/bots/transport.ts:289-312 | the buffer sent is the encoding; a name or id beyond 255 bytes is not sent |
| `Frames.PatternIsValidId` | relay-go/main.go:64-72 | the Go pattern and the Rust predicate accept the same identifiers |
| `Frames.ParsersDifferOnlyInUtf8` | relay-go/main.go:122-153 | on every byte string the parsers agree, but that Rust refuses a room name that is not UTF-8 |
| `Frames.RelaysAgree` | relay-rs/src/main.rs:738-743 | with the room check both relays accept exactly the same byte strings, with equal results |
| `Frames.AcceptedFramesAreCanonical` | relay-rs/src/main.rs:121-160 | every accepted control frame is the encoding of what was decoded |
| `Frames.ControlsRoundTrip` | relay-go/main.go:561-565 | an encoded control decodes to itself if and only if its time is finite and not negative and its identifiers are valid |
| `Doubles.TestsAreOfTheValue` | relay-go/main.go:132-135 | the byte tests for NaN, infinity and negative are those of the IEEE 754 number the bytes stand for; negative zero is not negative |
| `Doubles.AcceptedPositionsAreFiniteAndNonnegative` | relay-rs/src/main.rs:139-142 | every control a relay acts on carries a finite position that is at least 0 |
| `Frames.FillTimeline` | relay-rs/src/main.rs:106-119 | filling the 31-byte buffer yields the timeline frame |
| `Frames.U32RoundTrip` | relay-go/main.go:167-174 | the sequence number is carried modulo 2 to the 32 |
| `Frames.TimelinesRoundTrip` | sync-harness/src/bots/transport.ts:159-171 | a timeline frame decodes to the timeline if and only if seq fits 32 bits and the reason is one of the six; otherwise exactly these two fields change |
| `RateBuckets.RateBucket.constructor` | video-sync-backend/src/auth/rate-bucket.ts:17-23 | every caller starts full |
| `RateBuckets.RateBucket.Take` | video-sync-backend/src/auth/rate-bucket.ts:26-42 | refills, caps, grants or refuses, for that caller only |
| `RateBuckets.RateBucket.Peek` | video-sync-backend/src/auth/rate-bucket.ts:51-60 | predicts what Take would answer and changes nothing |
| `RateBuckets.RateBucket.Sweep` | video-sync-backend/src/auth/rate-bucket.ts:63-67 | forgets exactly the idle callers |
| `RateBuckets.GuestDoor.constructor` | video-sync-backend/src/auth/auth.controller.ts:51-69 | ten guests an hour per address, three hundred in all |
| `RateBuckets.GuestDoor.Admit` | video-sync-backend/src/auth/auth.controller.ts:153-171 | a guest is admitted if and only if both buckets have a token; then each pays one, otherwise neither pays |
| `RateBuckets.StepSpends` | video-sync-backend/src/auth/rate-bucket.ts:26-42 | a request lowers the level by exactly what it was granted |
| `RateBuckets.TokensAreConserved` | video-sync-backend/src/auth/rate-bucket.ts:26-42 | over any run, admissions are at most the initial level plus the refill |
| `RateBuckets.AdmissionsAreBounded` | video-sync-backend/src/auth/rate-bucket.ts:17-42 | in any window a caller is admitted at most capacity plus refill times length |
| `RateBuckets.RefillIsTheRate` | video-sync-backend/src/auth/rate-bucket.ts:28-32 | a thousand milliseconds add one second's refill |
| `RateBuckets.SweepsAreUnobservable` | video-sync-backend/src/auth/rate-bucket.ts:62-67 | with a long enough idle time, removing all sweeps changes no answer of any run |
| `RateBuckets.SweepIsSafeExactlyWhenLongEnough` | video-sync-backend/src/auth/rate-bucket.ts:62-67 | every idle bucket is full when forgotten if and only if the idle time refills a whole bucket |
| `RateBuckets.ProbeExposesLess` | video-sync-backend/src/auth/rate-bucket.ts:26-42 | spending all of a level's tokens and the next one on time is refused somewhere to any caller with less |
| `RateBuckets.SweepsAreUnobservableExactlyWhenLongEnough` | video-sync-backend/src/auth/rate-bucket.ts:62-67 | no run's answers depend on the sweeper if and only if the idle time refills a whole bucket or the capacity is below one token |
| `RateBuckets.GuestSweepsAreSafe` | video-sync-backend/src/auth/auth.controller.ts:81-85 | both guest buckets satisfy this with the hourly default |

## Left out

Assumptions that the statements carry:

- Numbers are exact reals and integers; IEEE rounding, NaN and infinite positions are not modelled (the replay checker's extra refusal of non-finite values is therefore absent). In the codec a double is eight bytes.
- `Number(epoch)` is an arbitrary function, and `String(serverNow)` a parameter of room creation; the convergence results assume that a new epoch reads as its creation time and that this is later than earlier epochs.
- The run results assume that server and local times do not decrease.
- The actor plane assumes atomic scripts, a strictly higher number for each new lease, a store clock that does not run backwards, answers to one instance's scripts in the order they ran, and no expiry of the timeline key under a live lease; the last is one the code does not ensure, and its exact effect is proved.
- A script runs once: a resent commit, which without a command id would run again, is not modelled. A claim, read or publish that errors ends its call without a commit and is not an outcome of its own.
- The step machines (actor plane, relay revocation, sessions) are on values: their maps are updated functionally, and the promise queue and the locks appear as the position of each operation. `ActorStore` runs the queue's operations imperatively on top.
- The actor plane's script checks `forVideoId` on set-video commands too, while the in-memory store exempts them; each is modelled as written.
- The Redis mirror of revocations is assumed to hold an event's entry before the event arrives, to drop only expired tokens and never to lower a version; the backend's rebuild of the mirror can break this across instances.
- A token id has one signed expiry, and tokens carry one; news of a revocation follows its durable write.
- The servo results require a forgetting factor strictly between 0 and 1, as every shipped tuning has.
- `Array.prototype.sort` is a stable insertion sort.

Not modelled:

- The Redis-backed store of the other plane (`redis-room-state.store.ts`): it delegates to scripts with the in-memory store's semantics.
- The actor plane's command log in Redis, its approximate trimming, and `renewAll` as a loop over rooms (for one room it is a claim and, on loss, a drop).
- The first read in actor `init` and the fallback timeline it returns uncached: init scripts may run at any time instead.
- Pub/sub payload parsing, retries, socket handling, eviction of connected sockets, logging and telemetry.
- JWT signing and verification, malformed version claims in a refresh request, password and Google sign-in, account linking.
- `clientIpFrom` and the address heuristics: the caller's key is a parameter.
- Media source recognition, which rests on a URL parser.
- User interface, voice chat, harness runners, charts and load tests.
- Clock pings, join frames and the other message types of the binary protocol, which only add fixed-offset reads.
