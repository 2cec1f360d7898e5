# Actor-Web verification

A Dafny model of the stateful core of Actor-Web and of its Mesh Pong example, with proofs about every run of each component.

- **Mesh Pong** (`pong_*.dfy`): the integer ball simulation, the intercept predictor that never calls it, the reflex controller, the match coordinator guarded by a generation, the actor decomposition of the same rules, the room that seats players, the browser's gate in front of the room, and the handoff from room to match.
- **Planner lanes** (`planner_lanes.dfy`): the turn stepper of the browser, which launches planner requests and spends their answers.
- **Agent loop** (`checkpoint_store.dfy`, `agent_*.dfy`): the write-ahead protocol of intent, receipt and reconciliation around each model call, as a machine with one step for each stretch of code between two awaits. A step may be a crash, a store that fails or loses its answer, or a model that fails or throws.
- **Gateway-backed source** (`gateway_*.dfy`): the client of a sequenced stream under a network that loses, repeats and reorders frames, and its books of open commands.
- **Context storage, tool delivery, spawning and wiring** (`context_*.dfy`, `tool_delivery.dfy`, `uri_encoding.dfy`, `actor_address.dfy`, `node_*.dfy`).

Where the source updates state in place there is a class whose methods are tied to a specification function, and the theorems are about every run of that function. Asynchronous code is one atomic step per stretch between awaits, and theorems quantify over every interleaving of steps. Coordinates, scores and sequence numbers are integers; every coordinate reachable from the seeds is one.

Some things the source or its documentation suggests are not true of the code. Each is stated with its exact condition and, where it is a matter of runs, shown on one:

- the predictor names the crossing tick exactly when the ball is strictly short of the face (`PredictorExactWhenShort`);
- a serve keeps the field bounds exactly for seeds that are not negative, or are negative multiples of eight (`ServeInBounds`);
- the client gate and the room differ in exactly three cases (`GateAgreesWithRoom`), and a host without a seat who leaves still sees a start button the room refuses (`HostLeavesGateStays`, run `WatchingHostStillSeesBegin`);
- the roster a room hands over can be started exactly when the host took a seat (`HandoffStartsIffHostSeated`, run `WatchingHostIsRefused`);
- accepted traces climb exactly while no frame numbered one is met again during a resync (`TraceClimbsUnlessRestarted`, run `StaleFirstTraceRewinds`);
- at-most-once dispatch needs the first stored envelope to be named as the agent itself would name it, by a condition that can be checked before the agent starts (`HonestStoreIsExact`);
- an acknowledged message is stored exactly unless it is a tool result taken for a duplicate (`AcknowledgedIsStored`, run `RepeatedResultIsDropped`);
- a restart shows at exactly the failure events that had only memory to report from (`RestartShowsOnlyInFailures`, run `RestartChangesEvent`);
- cache keys of two actors collide exactly when the key of a parameterized one, closed by a colon, opens the other's and leaves of it what an instance id can be or begin with (`CacheKeysCollideExactly`, runs `CollisionMisdirects` and `RoomAnsweredWithRoomA`);
- links are left without a teardown exactly when a pair that makes one precedes the first pair that stops the node (`FailureLosesTeardowns`, topology `HalfWiredLosesOne`).

`dafny verify dfyconfig.toml` checks the whole project.

## Model

| member | source | states |
|---|---|---|
| PongBall.AdvanceBall | examples/mesh-pong/pong-contract.ts:1426-1508 | the tick written step by step equals flight, wall bounce, return off a paddle and serve after a point, in that order |
| PongBall.ServeInBounds | examples/mesh-pong/pong-contract.ts:1331-1346 | a serve lies in the field with legal speeds if and only if its seed is non-negative or a negative multiple of eight |
| PongBall.KinematicsForever | examples/mesh-pong/pong-contract.ts:1426-1508 | in every state of every run, for any paddle movements, y is in [8, 352], x in [-8, 648], horizontal speed 42, vertical speed 7 to 10 |
| PongBall.EveryLegEnds | examples/mesh-pong/pong-contract.ts:1426-1508 | from every reachable state the leg ends in a hit or a point within 15 ticks, whatever the paddles do |
| PongIntercept.ProjectBallY | examples/mesh-pong/pong-contract.ts:737-748 | the predictor's loop computes the iterated lane step; a negative step count leaves the height alone |
| PongIntercept.FlightUntilCrossing | examples/mesh-pong/pong-contract.ts:1426-1471 | for any paddles, before the predicted tick the match is free flight, scores nothing, and the prediction does not change |
| PongIntercept.PredictorRefinesSimulation | examples/mesh-pong/pong-contract.ts:737-764 | the predicted height is the ball's height on the tick the match decides the leg, and a paddle at the resolved intercept returns the ball |
| PongIntercept.PredictorExactWhenShort | examples/mesh-pong/pong-contract.ts:750-764 | the predicted tick is the crossing tick if and only if the ball is strictly short of the face |
| PongIntercept.CrossingTick | examples/mesh-pong/pong-contract.ts:1442-1483 | on the crossing tick the ball comes back exactly when the paddle covers its height; otherwise it flies on or the other side scores |
| PongIntercept.PastFaceIsLost | examples/mesh-pong/pong-contract.ts:1447-1508 | a ball past the face it moves to ends as a point for the other side within three ticks, whatever the paddles do |
| PongReflex.ReflexCloses | examples/mesh-pong/pong-contract.ts:766-816 | one reflex step closes the gap to the target by a full paddle step, or closes it, and stays on the track |
| PongReflex.ReflexTurn | examples/mesh-pong/pong-contract.ts:766-816 | a side that sends the reflex move before a tick keeps its guard and never concedes, wherever the opponent's paddle stands |
| PongReflexMatch.ReflexNeverConcedes | examples/mesh-pong/ui/main.ts:2550-2640 | from a launched match, over any number of turns and with any commands of everybody else short of raising the generation, a side that sends its reflex input before each tick of the authority concedes no point |
| PongReflexMatch.ReflexAgainstReflexNeverScores | examples/mesh-pong/ui/main.ts:2550-2640 | with the reflex input of both sides before each one-count tick of the authority, whoever holds it, the score stays empty on every unbounded run |
| PongReflexMatch.SyntheticSeatsHoldAuthority | examples/mesh-pong/pong-contract.ts:924-950 | while the synthetic sessions hold both sides one of them is the authority, so a browser that ticks only as the authority never ticks such a match |
| PongMatch.ResolveControllerSlots | examples/mesh-pong/pong-contract.ts:831-851 | one pass filling a map gives the first holder of each side, left before right |
| PongMatch.TickMatchLoop | examples/mesh-pong/pong-contract.ts:1510-1564 | the loop over the match equals the iterated tick, with the refusals in the source's order and only counts 1 to 10 accepted |
| PongMatchRuns.SyncKeepsSlots | examples/mesh-pong/pong-contract.ts:968-1024 | an accepted sync that leaves a running match running leaves both controller slots as they were |
| PongMatchRuns.SignalKeepsLedger | examples/mesh-pong/pong-contract.ts:1302-1313 | a point adds one entry that carries the running totals, left plus right is the ledger's length, and ledger ticks strictly climb |
| PongMatchRuns.CommandKeeps | examples/mesh-pong/pong-behaviors.ts:335-414 | any command from anyone keeps the match invariant; the generation moves by at most one, and only if it moves may phase, mode or authority change |
| PongMatchRuns.MatchInvariantForever | examples/mesh-pong/pong-contract.ts:924-1300 | in every run session ids are unique, each side has one owner, slots follow sessions, authority stands exactly while running with ready slots matching the mode, and the lobby has no mode |
| PongMatchRuns.GenerationFences | examples/mesh-pong/pong-contract.ts:924-950 | two moments of a run with one generation agree on phase, mode and authority, and while running on the roster; ticks never go back between them |
| PongMatchRuns.OnlyOwnersMove | examples/mesh-pong/pong-contract.ts:1376-1419 | within a generation only a slot's holder moves its own paddle and only the authority moves ball and score |
| PongReflexMatch.LaunchedIsFresh | examples/mesh-pong/pong-contract.ts:1170-1241 | whatever raises the generation and leaves the match running has reset tick, ball, paddles and score from the new generation |
| PongActors.BallActorTick | examples/mesh-pong/pong-behaviors.ts:112-124 | the ball actor's loop over its own context yields the iterated ticks and all their events in order, at most ten |
| PongActors.ActorsAgreeWithCoordinator | examples/mesh-pong/pong-behaviors.ts:168-183 | folding the score actor over the ball actor's events gives the coordinator's ball, tick and score for every number of ticks |
| PongActors.TickBatches | examples/mesh-pong/pong-contract.ts:1536-1564 | accepted ticks of a then b equal one tick of a + b, which is refused beyond ten |
| PongActors.ActorsCapAtTen | examples/mesh-pong/pong-behaviors.ts:112-124 | beyond ten, where the coordinator refuses, the ball actor stops at ten ticks |
| PongRoom.ReduceKeepsInvariant | examples/mesh-pong/pong-room-contract.ts:183-345 | every command, accepted or refused, keeps members unique, one member a side, ready only when connected and seated, host a member, and a started room startable |
| PongRoom.RoomInvariantForever | examples/mesh-pong/pong-room-contract.ts:95-151 | the invariant holds in every run and the revision is exactly the number of accepted commands |
| PongRoom.RevisionsClimb | examples/mesh-pong/pong-room-contract.ts:138-151 | of two accepted commands of a run the later expected a strictly higher revision, so one expected revision is accepted at most once |
| PongRoom.SingleHandoff | examples/mesh-pong/pong-room-contract.ts:167-345 | a run publishes a roster exactly when it has reached the starting phase, once, naming the host, with two distinct ready sessions in left-right order |
| PongWorkflow.CountIsReadiness | examples/mesh-pong/workflow/mesh-pong-workflow-core.ts:77-120 | the client's ready count is two exactly when the room would not refuse to begin for want of ready connected players |
| PongWorkflow.GateAgreesWithRoom | examples/mesh-pong/workflow/mesh-pong-workflow-source.ts:65-102 | a connected client's gate and the room agree both ways on every reachable room, up to three named cases |
| PongWorkflow.HostLeavesGateStays | examples/mesh-pong/workflow/mesh-pong-workflow-source.ts:65-102 | whenever a host without a seat could begin and leaves instead, the gate still lets begin through and the room refuses it |
| PongHandoff.RosterStartsIffAuthoritySeated | examples/mesh-pong/pong-contract.ts:1170-1208 | a sound roster starts the match with exactly its slots if its authority holds one of them, and is refused as not seated if not |
| PongHandoff.HandoffStartsIffHostSeated | examples/mesh-pong/pong-room-contract.ts:300-345 | the one roster of a room run can be started if and only if the host took a seat |
| PongWatching.WatchingHostIsRefused | examples/mesh-pong/pong-room-contract.ts:322-344 | a run of eight commands from an empty room that hands over a roster whose authority the match refuses as not seated |
| PongWatching.WatchingHostStillSeesBegin | examples/mesh-pong/workflow/mesh-pong-workflow-source.ts:65-102 | the same room left by its host instead: the gate lets begin through and the room refuses it |
| PongHandoff.SyntheticMatchIsReflexSeated | examples/mesh-pong/pong-contract.ts:1170-1208 | a match seated and started by the two synthetic sessions satisfies the hypotheses of both reflex theorems |
| PlannerLanes.TurnStepper.Reset | examples/mesh-pong/ui/main.ts:2125-2138 | a lane reset retires the request in flight and clears everything else of that lane, a ready answer unretired, the last decision, its accepted number and its allowances; the other lane is untouched |
| PlannerLanes.TurnStepper.SyncWith | examples/mesh-pong/ui/main.ts:2179-2208 | a changed generation or mode resets the lanes it concerns |
| PlannerLanes.TurnStepper.LaunchPlanner | examples/mesh-pong/ui/main.ts:2343-2378 | a launch takes the next number once, only into an idle lane |
| PlannerLanes.TurnStepper.ResolvePlanner | examples/mesh-pong/ui/main.ts:2210-2341 | an answer becomes ready only if its request still owns the lane and is admitted |
| PlannerLanes.TurnStepper.ConsumePlanner | examples/mesh-pong/ui/main.ts:2380-2443 | a ready answer becomes the decision, and each turn spends the fresh and then the stale allowance |
| PlannerLanes.OneLiveRequest | examples/mesh-pong/ui/main.ts:2210-2378 | in every run each lane has at most one live request; every other unsettled one is retired |
| PlannerLanes.DecisionsClimbAndAreNotRetired | examples/mesh-pong/pong-contract.ts:175-212 | accepted sequences strictly climb, across lane resets too, and no accepted proposal is a retired one |
| PlannerLanes.DecisionDrivesBoundedTurns | examples/mesh-pong/ui/main.ts:2380-2443 | one decision drives at most the fresh limit of fresh turns and the stale limit of stale turns in any run |
| PlannerLanes.StaleOnlyInHybrid | examples/mesh-pong/ui/main.ts:2380-2443 | in every run each turn was driven by a decision accepted earlier for its own generation, and each turn driven by a stale decision was driven in hybrid mode |
| PlannerLanes.RetiredIsNeverAccepted | examples/mesh-pong/ui/main.ts:2125-2138 | of two moments of a run, a proposal retired at the first is retired at the second and accepted at neither |
| ContextStorage.FallbackContextStorage.BeginRun | packages/actor-core-runtime/src/actor-context-manager.ts:105-144 | starting a run checks overlap, pushes its frame and makes it current |
| ContextStorage.FallbackContextStorage.ReleaseFrame | packages/actor-core-runtime/src/actor-context-manager.ts:163-178 | releasing a frame removes exactly that one wherever it stands and makes the top of the rest current |
| ContextStorage.ContextFrames | packages/actor-core-runtime/src/actor-context-manager.ts:86-179 | in every run the current context is the top live frame's, or the root's when none is live, and each frame is released exactly once whatever order promises settle in |
| ContextStorage.AdmittedTopLevelStartsClean | packages/actor-core-runtime/src/actor-context-manager.ts:105-144 | a non-reentrant top-level run that is admitted starts with no frames |
| ContextQueue.AsyncEntry.RunAsync | packages/actor-core-runtime/src/actor-context-manager.ts:154-161 | a call chains on the tail in the field and leaves its own tail there |
| ContextQueue.RunAsyncIsFifo | packages/actor-core-runtime/src/actor-context-manager.ts:154-161 | with any call free to start once the tail it chained on has settled, in every interleaving no two calls are live at once, they start in the order asked for, and none meets the overlap error |
| ContextQueue.FailureDoesNotBlock | packages/actor-core-runtime/src/actor-context-manager.ts:154-161 | once a call has settled, with success or failure, its tail settles and the next call starts with its own context current |
| CheckpointStore.InMemoryStore.WriteEnvelope | packages/actor-core-runtime/src/agent-session-checkpoint-store.ts:840-877 | a write is a duplicate, refused as expired, or replaces the session's envelope, in that order, and returns which |
| CheckpointStore.SessionHoldsLastKept | packages/actor-core-runtime/src/agent-session-checkpoint-store.ts:840-877 | in every history of writes and clears a session holds exactly the envelope it kept last, until it keeps another or the store is cleared |
| CheckpointStore.NothingKeptIsMissing | packages/actor-core-runtime/src/agent-session-checkpoint-store.ts:827-877 | a session that has kept nothing since the start or the last clear is missing |
| CheckpointStore.RetryIsDuplicate | packages/actor-core-runtime/src/agent-session-checkpoint-store.ts:840-877 | a write retried at any later time, while nothing else was kept, is answered as a duplicate, changes nothing and reads back as the envelope kept |
| AgentLoop.CheckpointRoundTrip | packages/actor-agent/src/index.ts:222-249 | a context survives its checkpoint if and only if its last error has no cause, and the checkpoint of a rehydrated checkpoint is itself |
| AgentLoop.InMemoryStoreFits | packages/actor-core-runtime/src/agent-session-checkpoint-store.ts:840-877 | every write of the in-memory store is one the agent machine allows for |
| AgentActor.AgentActor.OnMessage | packages/actor-agent/src/index.ts:795-1073 | one message handled in order, with its dispatched flag, is exactly the machine's run of that turn for every behaviour of store and model |
| AgentActor.AgentActor.AskModel | packages/actor-agent/src/index.ts:926-1072 | intent, request, receipt, and the mark only if the request left and the call threw |
| AgentActor.AgentActor.Reconcile | packages/actor-agent/src/index.ts:577-699 | reconciliation reads, checks in the source's order and writes the reconciled envelope |
| AgentActor.EveryMessageIsAnswered | packages/actor-agent/src/index.ts:795-1073 | a message not cut short by a crash gets exactly one reply and leaves the actor free |
| AgentProtocol.EffectsAreDistinct | packages/actor-agent/src/index.ts:522-567 | different steps have different effect ids, so a receipt belongs to one step |
| AgentProtocol.DispatchKeeps | packages/actor-agent/src/index.ts:926-940 | the only step that sends a request follows a confirmed intent the store did not hold before |
| AgentProtocol.InvariantForever | packages/actor-agent/src/index.ts:726-1075 | in every run the log is write-ahead, an unsettled request leaves the stored envelope deferred, and no write that begins a turn is under way meanwhile |
| AgentProtocol.AtMostOnceAcrossCrashes | packages/actor-agent/src/index.ts:926-1072 | for every placement of crashes, store failures and model failures each request follows a durable intent for its step, and between two requests lies a durable receipt or reconciliation of the first |
| AgentRecovery.HonestStoreIsExact | packages/actor-agent/src/index.ts:569-575 | every run is so guarded if and only if the first stored envelope does not bear, and cannot be reconciled into bearing, the next intent's id |
| AgentRecovery.OwedSettlementHolds | packages/actor-agent/src/index.ts:729-790 | while a settlement is owed, over any run without a reconciliation the store stays as it is, no request leaves and every reply fails |
| AgentRecovery.OpenRequestOwes | packages/actor-agent/src/index.ts:729-790 | whenever a request is out or its settlement was lost, the store owes a settlement |
| AgentRecovery.ReconciliationUnblocks | packages/actor-agent/src/index.ts:577-699 | a reconciliation that lands settles the session and the next turn resumes from the state it chose |
| AgentRecovery.AcknowledgedIsStored | packages/actor-agent/src/index.ts:498-520 | in every run, when a confirmed write ends a turn the store holds the checkpoint of the context the actor keeps if and only if the write was not a tool result taken for a duplicate |
| AgentRecovery.RepeatedResultIsDropped | packages/actor-agent/src/index.ts:874-915 | a run from any fresh agent in which one tool result delivered twice is acknowledged twice, stored once and remembered twice |
| AgentRestart.CrashTransparency | packages/actor-agent/src/index.ts:729-1040 | once a checkpoint is stored, any number of restarts between messages leaves replies, requests and stored checkpoints as in the uninterrupted run |
| AgentRestart.RestartShowsOnlyInFailures | packages/actor-agent/src/index.ts:280-309 | over every run the events of the interrupted and the uninterrupted run have one length and differ at exactly the places where a turn failed with only memory to report from and the two memories named different steps |
| AgentRestart.RestartChangesEvent | packages/actor-agent/src/index.ts:280-309 | a concrete run in which a restart changes one failure event and nothing in replies, requests and checkpoints |
| GatewaySource.GatewayBackedSource.Accept | packages/actor-core-runtime/src/actor-web-source.ts:410-436 | the next number is accepted, an old one dropped, a later snapshot accepted during a resync, anything else starts a resync from the next number |
| GatewaySource.GatewayBackedSource.RejectAllPending | packages/actor-core-runtime/src/actor-web-source.ts:438-450 | readiness, pending sends in order and pending asks in order are rejected and forgotten |
| GatewaySource.GatewayBackedSource.TakeSend | packages/actor-core-runtime/src/actor-web-source.ts:452-481 | the loop yields the named pending send, or the oldest when no id is named |
| GatewaySource.GatewayBackedSource.HandleFrame | packages/actor-core-runtime/src/actor-web-source.ts:512-616 | each server frame changes stream, status, readiness and books as the message handler does |
| GatewaySource.GatewayBackedSource.SendMessage | packages/actor-core-runtime/src/actor-web-source.ts:661-681 | a send takes the next id, is recorded before the socket sees it, and is withdrawn if the socket throws |
| GatewaySource.GatewayBackedSource.AskMessage | packages/actor-core-runtime/src/actor-web-source.ts:682-712 | the same for an ask, on the shared counter |
| GatewayStream.StreamRefinement | packages/actor-core-runtime/src/actor-web-source.ts:410-436 | for any loss, repetition and reordering of a gateway log accepted numbers strictly increase, every jump lands on a snapshot, and the current snapshot is the latest of the log prefix up to the last number |
| GatewayStream.ReplayIsRest | packages/actor-core-runtime/src/runtime-gateway.ts:1512-1565 | the gateway can replay from a number exactly when its buffer reaches back to it, and then replays exactly the rest of the log |
| GatewayStream.ResyncConverges | packages/actor-core-runtime/src/runtime-gateway.ts:1512-1565 | one resync answer delivered undisturbed brings the source level with the gateway's log and its latest snapshot, by replay or by a jump |
| GatewayStream.TraceClimbsUnlessRestarted | packages/actor-core-runtime/src/actor-web-source.ts:762-800 | over every sequence of trace frames and reconnections accepted numbers strictly climb if and only if no frame numbered one is met during a resync with something accepted |
| GatewayStream.StaleFirstTraceRewinds | packages/actor-core-runtime/src/actor-web-source.ts:762-800 | the sequence one, two, three, five, one, from the start, accepts number one twice and ends on it |
| GatewayCommands.BooksForever | packages/actor-core-runtime/src/actor-web-source.ts:438-481 | in every run the send order is a duplicate-free, oldest-first list of the pending sends, the counter numbers the issued ids, and issued equals settled plus pending as multisets |
| GatewayCommands.CommandConservation | packages/actor-core-runtime/src/actor-web-source.ts:572-607 | no id is issued twice, no request settles twice, and each issued request is in exactly one of settled, pending sends, pending asks |
| GatewayCommands.SettlementsAreFinal | packages/actor-core-runtime/src/actor-web-source.ts:572-607 | of two moments of a run the later one has all settlements and issued ids of the earlier one in place, and settles none of those requests again |
| GatewayCommands.DisconnectSettlesAll | packages/actor-core-runtime/src/actor-web-source.ts:618-630 | closing, or losing socket or authentication, settles everything pending and ends the wait for readiness |
| GatewayCommands.UnnamedAckIsOldest | packages/actor-core-runtime/src/actor-web-source.ts:465-481 | an acknowledgement that names no request settles the pending send issued first |
| GatewayCommands.UnmatchedErrorRejectsAll | packages/actor-core-runtime/src/actor-web-source.ts:581-607 | an error naming an open request settles that one; naming any other, it settles everything pending |
| UriEncoding.ComponentRoundTrip | packages/actor-core-runtime/src/actor-tool-delivery.ts:198-200 | decoding gives back every encoded text |
| UriEncoding.EncodingIsPlain | packages/actor-core-runtime/src/actor-tool-delivery.ts:198-200 | an encoding is made of unreserved characters and percent signs, so it holds no colon |
| ToolDelivery.KeysTellRequestsApart | packages/actor-core-runtime/src/actor-tool-delivery.ts:211-230 | equal idempotency keys mean equal node, actor, tool and request |
| ToolDelivery.ActivationsTellKeysApart | packages/actor-core-runtime/src/actor-tool-delivery.ts:232-251 | equal activation ids mean equal node, actor, tool and raw key |
| ToolDelivery.RetriesAreBounded | packages/actor-core-runtime/src/actor-tool-delivery.ts:318-370 | however the clock is read, emissions never exceed the attempts left to the bound, and failure comes at the bound and never before |
| ToolDelivery.UnansweredRetriesEnd | packages/actor-core-runtime/src/actor-tool-delivery.ts:318-370 | as many expired checks as attempts are left end the activation as failed |
| ToolDelivery.FirstAttemptBound | packages/actor-core-runtime/src/actor-tool-delivery.ts:318-370 | from attempt one there are at most as many emissions as the configured attempts, and one when that is under one |
| ToolDelivery.InMemoryProvider.ClaimActivation | packages/actor-core-runtime/src/actor-tool-delivery.ts:382-402 | the first claim is filed, later ones answer with the first claim and its acknowledgement |
| ToolDelivery.InMemoryProvider.Acknowledge | packages/actor-core-runtime/src/actor-tool-delivery.ts:403-445 | the first matching acknowledgement is set in place; missing, mismatched and repeated ones change nothing |
| ToolDelivery.ClaimedOnce | packages/actor-core-runtime/src/actor-tool-delivery.ts:372-445 | in any interleaving no activation is claimed twice between two clears |
| ToolDelivery.FirstAckForever | packages/actor-core-runtime/src/actor-tool-delivery.ts:372-445 | until a clear every later matching acknowledgement and every later claim answers with the first one |
| ToolDelivery.RetriesAreClaimedOnce | packages/actor-core-runtime/src/actor-tool-delivery.ts:358-405 | a re-emitted command claims its activation as a duplicate of the first emission |
| ActorAddresses.MintedParsesBack | packages/actor-core-runtime/src/utils/factories.ts:65-102 | an address that was minted parses back to its id, kind and node if and only if the id is one line, and to nothing otherwise |
| ActorAddresses.ParsedMintsBack | packages/actor-core-runtime/src/utils/factories.ts:109-141 | an address that parses is in normal form: minting its parts gives it back, or refuses it |
| NodeSpawning.InstanceIdIsItself | packages/actor-core-runtime/src/actor-web-node-runtime.ts:143-147 | exactly the ids the minter admits on one line have a cache key, and the id in it is the instance's own |
| NodeSpawning.CacheKeysCollideExactly | packages/actor-core-runtime/src/actor-web-node-runtime.ts:142-147 | two actors share a cache key for some admitted instance ids if and only if one is parameterized, its key closed by a colon opens the other's, and the rest of the other's is an admitted id, or can begin one if the other is parameterized too |
| NodeSpawning.EmptyRestKeepsApart | packages/actor-core-runtime/src/actor-web-node-runtime.ts:142-147 | the actors "room" with instances and "room:" never collide, since the id they would need is empty |
| NodeSpawning.InstancesKeepApart | packages/actor-core-runtime/src/actor-web-node-runtime.ts:142-147 | instances of one actor never share a cache key, whatever their ids |
| NodeSpawning.CollisionMisdirects | packages/actor-core-runtime/src/actor-web-node-runtime.ts:144-187 | for every pair that meets that condition there is a cache key of admitted instances of both, and a run in which a call for the second actor is answered with the first, the second never being looked up or spawned |
| NodeSpawning.RoomAnsweredWithRoomA | packages/actor-core-runtime/src/actor-web-node-runtime.ts:144-187 | that run for the actor "room:a" and the instance "a" of "room" |
| NodeSpawning.ActorSpawner.Instance | packages/actor-core-runtime/src/actor-web-node-runtime.ts:142-157 | up to its first await a call returns the cached actor, joins the promise in flight, or files a new one |
| NodeSpawning.ActorSpawner.OnLookup | packages/actor-core-runtime/src/actor-web-node-runtime.ts:157-170 | an actor found is filed, otherwise its tool access is granted and spawning begins |
| NodeSpawning.SpawnExactlyOnce | packages/actor-core-runtime/src/actor-web-node-runtime.ts:132-187 | in any interleaving of callers, lookups, failures and cleanups a key is spawned successfully at most once and all its successful callers get one actor |
| NodeSpawning.AnswersAreStable | packages/actor-core-runtime/src/actor-web-node-runtime.ts:148-187 | of two moments of a run the later one has the actors filed at the earlier one and gives every caller the answer it had |
| NodeSpawning.FailureCanBeRetried | packages/actor-core-runtime/src/actor-web-node-runtime.ts:181-187 | after a failure is cleaned up the next call starts over |
| NodeWiring.WireOwnedSubscriptions | packages/actor-core-runtime/src/actor-web-node-runtime.ts:303-369 | the nested loops equal the fold over declared pairs, with its links and its first error |
| NodeWiring.NodeWiresItsSubscribers | packages/actor-core-runtime/src/actor-web-node-runtime.ts:303-369 | a ready node starts if and only if all declared pairs are sound, and wires exactly those whose subscriber it owns, in order |
| NodeWiring.EveryPairWiredOnce | packages/actor-core-runtime/src/actor-web-node-runtime.ts:286-369 | when every node starts with a transport the links of all nodes are exactly the declared pairs, each once |
| NodeWiring.WithoutTransport | packages/actor-core-runtime/src/actor-web-node-runtime.ts:326-336 | a node without a transport starts if and only if all declared pairs are sound and it shares none with another node, and then wires, locally, exactly those whose subscriber it owns |
| NodeWiring.StopsAtFirst | packages/actor-core-runtime/src/actor-web-node-runtime.ts:303-369 | a wiring that stops does so at its first bad pair, after exactly the links of the pairs before it |
| NodeWiring.FailureLosesTeardowns | packages/actor-core-runtime/src/actor-web-node-runtime.ts:303-369 | links are left behind without a teardown if and only if the first pair that stops the node comes after one that made a link |
| NodeWiring.ReadyNodeLosesTeardowns | packages/actor-core-runtime/src/actor-web-node-runtime.ts:303-369 | on a ready node that is: if and only if a pair whose subscriber lives there comes before the first unsound pair |
| NodeWiring.HalfWiredLosesOne | packages/actor-core-runtime/src/actor-web-node-runtime.ts:303-369 | a concrete topology whose node stops with one link made |

## Left out

- Fractional and non-finite paddle amounts: a paddle input's amount is an integer here.
- Upper-casing of room codes outside ASCII; trimming uses the full white space set.
- Untyped payloads of the room reducer: `ready`, `side` and `controller` have their declared types; the match coordinator's malformed modes and counts are modelled.
- Planner strategy texts, table facts and telemetry reducers: they do not influence which request is live, accepted or spent.
- Which session the shipped turn loop ticks as: it ticks as the browser's session and only as the authority; the reflex theorems take the tick of whoever holds authority.
- The turn loop's awaited sends, its overlap guard and its error reporting: the reflex theorems take a turn as the inputs it sends followed by its tick.
- Sockets, timers, authentication, listeners, reconnect backoff and the DOM: their outcomes are the events of the step functions.
- A socket that throws while the source asks for a resync or subscribes: only sends and asks meet a throwing socket.
- Gateway streams other than full mode, and replay storage across gateway restarts; of the trace source the acceptance of frames and the ready frame of a reconnection are modelled, its timers and status are not.
- The agent loop without a checkpoint store, which promises nothing across crashes.
- Several writers on one agent session, and a write of a crashed actor that lands after its successor has started: one actor per session, and a write that has not landed at the crash never lands.
- The shape checks of checkpoint envelopes (JSON safety, ISO dates, identities): a state either reads as a checkpoint state or does not, and an envelope that cannot be built is a write that throws without landing.
- Effect attempt ids, intent payloads, recorded times and metadata of envelopes: written and never read back by the loop.
- Tool definitions in the model request and the model's time limit: constants of the loop's configuration.
- Model results that are neither success nor failure: they throw while being read, which is the throwing case.
- The attempt builder of tool delivery: it checks that its numbers are positive and truncates them; the decision takes any attempt.
- Lone surrogates in delivery identities, for which the encoder throws.
- Actor behaviors and supervision behind on-demand spawning: a call carries its cache key, address and required tools, and a parameter function that throws is a call that is refused.
- PlannerLanes.OneLiveRequest: requests are told apart by number; the identity of the runtime object a request was made for is constant.
