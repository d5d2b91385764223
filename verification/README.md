# AgentShield, modelled and proved in Dafny

AgentShield is an outbreak simulator and a live security control plane; both are event-sourced.
This project models their logic and proves what the two are for.

**Simulation.** `World`, `Attempts`, `Propagation`, `AdaptiveAttacker`, `RealAgents`, `Detection`,
`SecurityPlane`, `SecurityGraph`, `GraphFacts`, `Topology` and `Engine` follow the source file by
file: a specification function per step, and the program's own loops as methods proved against it.
Random draws, the seed pick, tool grants and model answers are arbitrary functions and the topology
is an arbitrary link set, so every theorem holds for every seed, generator, graph and model. A run
is a sequence of finest steps (a scenario, a detection pass, a round of model answers), so theorems
cover every scenario list, every number of ticks and, where they say so, every mix with model
answers. On this stand the whole-run results: the log rebuilds the world (`EventSourcing`,
`Experiment`, on the generic `Folds`), what never moves back (`Movement`), termination and replay
(`Simulation`, with `Ownerless` for runs no scenario advances), permanent quiescence
(`Quiescence`), the infection forest, the blast radius, sentinel suppression, and the meaning of
the metrics (`LogAccounting`, `RunAccounts`, `Latency`).

**Streaming and persistence.** `Events`, `Stream`, `Runner`, `Writer` and `Gateway` are transition
systems whose steps are what runs between two suspension points; an invariant of all their steps
holds in every interleaving (`Behaviours`). `StreamHandler`, `ExperimentRunner`, `PostgresWriter`
and the classes of `Events` hold the program's mutable objects, each stretch of code proved to be
one step. `LiveRuns`, `ModelRuns` and `Archive` join the parts: live run against batch run and
replay, without models and with a model whose replies are fixed, and what the database holds against
the replay. `LiveClient` sets a stream client against the state it follows.

**Live session.** `Session` gives every call on values, `LiveRuntimeSession` the object that mutates
its dictionaries, proved equal. `SessionLog`, `SessionSafety` and `SessionTrust` prove what the log
and the artifacts of every call sequence satisfy. `Policy`, `PolicyDecision`, `Resources` and
`Rereading` are the path policy, the fetch behind it, and when the two disagree.

**Secret search.** `SecretSearch` proves the chunked scan equal to a whole-file search.

**Plain terms.** `Spreading`, `Watching`, `Outset`, `Ticks`, `Exposure`, `PolicyTerms` and
`SessionCalls` say what each operation does on agents, rates, draws, characters and fields alone,
event by event and without the functions that compute it; `Metrics`, `Events`, `Stream`, `Runner`,
`Writer` and `Gateway` end with the same for theirs.

Where a promise is not met by the code on all inputs, the exact condition is proved and failing
inputs are given, in `Counterexamples` unless another name is: replay without a clock-owning scenario
(`ReplayEqualsLive`) or of a run stopped inside a tick's model calls (`ReplayOfAsked`), batch runs
without a clock owner (`HaltsExactly`), detection latency without one (`DetectionTakesATick`), a
client that resumes with a number above `last_seq` (`MissesExactly`), a snapshot taken while model
calls are pending (`SnapshotMatchesLog`), re-evaluating a path that ends in whitespace other than a
space (`ReevaluationExact`, `EdgeWhitespaceSurvives`), and a grant the fetch refuses
(`GuardTripsExactly`, `GuardTrips`).

## Model

| member | source | states |
|---|---|---|
| Attempts.ClaimsAreFirstHits | backend/app/engine/propagation.py:49-80 | whoever hits a target first in attempt order owns the claim, and every hit target is claimed |
| Attempts.LowestSourceWins | backend/app/engine/propagation.py:14-80 | with sources in id order the claim of a target names the lowest-numbered attacker that hit it, and exists exactly when somebody did |
| PropagationStep.AttemptsAreTheFrontier | backend/app/engine/propagation.py:14-36 | attempts are made on exactly the edges from a compromised to a healthy agent, edges between two model-backed agents excepted |
| PropagationStep.StepMeaning | backend/app/engine/propagation.py:20-96 | an agent is infected exactly when some eligible neighbour's draw is below its probability; its record names the lowest-numbered such neighbour |
| PropagationStep.Advance | backend/app/engine/propagation.py:9-96 | the nested loops compute the specified world and drafts: claims, per-attempt events, clock moved by one |
| PropagationStep.IsFinished | backend/app/engine/propagation.py:99-109 | the scan with its early return decides: out of ticks, or no healthy agent borders a compromised one |
| AdaptiveAttackerStep.Preferred | backend/app/scenarios/adaptive_attacker_scenario.py:70-80 | the chosen target has the extreme degree for the strategy and the lowest id among ties |
| AdaptiveAttackerStep.AttemptsFollowStrategy | backend/app/scenarios/adaptive_attacker_scenario.py:44-90 | every compromised agent with a healthy neighbour attacks, along a link, the neighbour the current strategy ranks first |
| AdaptiveAttackerStep.ClaimMeaning | backend/app/scenarios/adaptive_attacker_scenario.py:58-118 | an agent falls exactly when a successful attack chose it; the recorded attacker is one of those that did, and the lowest-numbered |
| AdaptiveAttackerStep.Advance | backend/app/scenarios/adaptive_attacker_scenario.py:50-134 | the loop computes the specified world and drafts |
| RealAgentStep.StepMeaning | backend/app/agents/runtime.py:34-183 | for arbitrary model answers, an agent falls exactly when it leaks its token to a compromised model-backed neighbour; the lowest-numbered one is recorded, whatever order the answers came in |
| RealAgentStep.AttemptsAreRealEdges | backend/app/agents/runtime.py:34-72 | requests are sent along exactly the edges from a compromised to a healthy model-backed agent |
| RealAgentStep.QuietStep | backend/app/agents/runtime.py:72-73 | a step that finds no request to send returns the state as it is, with no drafts; one that sends any reports on it |
| RealAgentStep.Advance | backend/app/agents/runtime.py:22-185 | the collecting and settling loops compute the specified world and drafts; a step that claims anybody forgets the compromised graph nodes |
| DetectionStep.StepMeaning | backend/app/security/detection.py:34-114 | one pass confines exactly the compromised, unsuppressed agents whose draw detects them and the healthy agents falsely accused, says of each which it was, and leaves everybody else untouched |
| DetectionStep.SuppressedByCompromisedSentinels | backend/app/security/detection.py:11-31 | reading the MONITORS edges of compromised sentinels off the built graph gives exactly the agents whose own monitor has fallen |
| DetectionStep.Advance | backend/app/security/detection.py:34-114 | the three loops compute the specified world and drafts |
| SecurityPlaneSteps.SubvertedMembers | backend/app/scenarios/sentinel_compromise_scenario.py:44-73 | a sentinel falls exactly when it is sound, watches a compromised agent and its draw is below the rate |
| SecurityPlaneSteps.SentinelAdvance | backend/app/scenarios/sentinel_compromise_scenario.py:33-95 | the two loops over the built graph compute the specified record and drafts |
| SecurityPlaneSteps.OversteppedMembers | backend/app/scenarios/byzantine_collusion_scenario.py:47-86 | the credentials a tick adds are exactly the first credential each colluding pair succeeds against |
| SecurityPlaneSteps.CollusionAdvance | backend/app/scenarios/byzantine_collusion_scenario.py:31-91 | the nested loops with break compute the specified record and drafts |
| Engine.RunSyncScenarios | backend/app/scenarios/registry.py:52-63 | the loop is the ordered composition of the active scenarios; unknown names are skipped |
| Engine.Tick | backend/app/engine/tick.py:8-13 | a tick is the scenarios and then detection |
| Engine.RunIsMicros | backend/app/engine/simulate.py:25-28 | n ticks are one run of finest steps, so what holds of every such run holds of every experiment |
| Topology.InitialWorldShape | backend/app/engine/topology.py:38-106 | the tick-0 world has symmetric links, one compromised seed with a record, everybody else healthy |
| Topology.BestHub | backend/app/engine/topology.py:60-68 | the deterministic seed has maximal degree and the lowest id among those |
| Topology.BuildWorldFromAgents | backend/app/engine/topology.py:38-106 | the loops over edges and sorted ids compute the specified world and drafts |
| Effects.MicroTransition | backend/app/engine/state.py:15-44 | in one step of any kind an agent is unchanged, infected by a compromised neighbour, or isolated unless a compromised one is suppressed; nothing else ever happens to it |
| Experiment.LogRebuildsAgents | backend/app/engine/propagation.py:20-96 | for every mix of scenarios, detection and model answers, folding the whole log from nothing gives each agent's state, attacker and compromise tick |
| Experiment.LogRebuildsGraph | backend/app/security/detection.py:50-114 | for every synchronous run, folding POLICY_VIOLATION gives the set of compromised graph nodes |
| Experiment.LogRebuildsWorld | backend/app/engine/simulate.py:9-29 | both, at every tick of every experiment with any scenario list |
| EngineDrafts.ExperimentPlain | backend/app/engine/simulate.py:20-29 | EXPERIMENT_STARTED opens the log and no life-cycle event is emitted by any later step |
| Simulation.Simulate | backend/app/engine/simulate.py:9-29 | the while loop stops at the first finished tick with exactly that world and log |
| Simulation.BatchBound | backend/app/engine/simulate.py:25-28 | with a clock owner the loop ends within max_ticks iterations |
| Simulation.HaltsExactly | backend/app/engine/simulate.py:25-28 | the loop ends if and only if, in the world it starts from, a scenario owns the clock, the ticks are used up, or every edge from a compromised to a healthy agent has an end that the first tick catches |
| Simulation.ReconstructSync | backend/app/engine/replay.py:54-63 | the replay loop stops at the first tick that reaches the target or is finished |
| Simulation.ReplayEqualsLive | backend/app/engine/replay.py:48-63 | replay to the tick of a live run standing after k iterations gives the same world and drafts if and only if a scenario owns the clock, k is 0, or no active scenario and no detection has anything to report in the world the run started from |
| Ownerless.AdvanceSilent | backend/app/engine/tick.py:8-13 | a tick of non-owning scenarios emits nothing exactly when each of them is silent in the world before it and detection catches nobody there; then it changes nothing |
| Ownerless.RunSilent | backend/app/engine/simulate.py:25-28 | k such ticks emit nothing exactly when k is 0 or the first is silent |
| Ownerless.CaughtAfterScenarios | backend/app/security/detection.py:11-112 | whom the first tick catches is told from the start world: the draw, and whether the agent's monitor falls to the scenario list |
| Quiescence.QuietForever | backend/app/engine/propagation.py:99-109 | once no healthy agent borders a compromised one, no sequence of later steps of any kind compromises another agent |
| Quiescence.FrontierSpreads | backend/app/engine/propagation.py:20-96 | the condition is not idle: a remaining frontier edge infects when its draw is low enough |
| InfectionForest.ForestForever | backend/app/agents/runtime.py:154-183 | compromised_by is ranked (acyclic), follows topology links with non-decreasing ticks and has one root, kept by every mix of synchronous and model-driven steps |
| InfectionForest.ReachableForest | backend/app/engine/propagation.py:82-94 | so in every reachable state of every experiment |
| InfectionForest.Provenance | backend/app/graph/analysis.py:67-84 | the chain follows recorded sources, repeats nobody, and stops only at a node without a source or before a repeat, for any map, cyclic ones included |
| InfectionForest.ProvenanceReachesSeed | backend/app/graph/analysis.py:67-84 | in a forest the chain of any ever-compromised node is a path of links, ticks never rising toward the source, ending at the seed: the cycle guard never fires |
| InfectionForest.Trace | backend/app/graph/analysis.py:67-84 | provenance on any reachable world ends at the one seeded agent |
| BlastRadius.BlastRadiusOf | backend/app/graph/analysis.py:42-50 | the loops compute exactly the nodes some compromised node reaches over propagation-capable edges |
| BlastRadius.SubgraphView | backend/app/graph/security_graph.py:64-74 | the view holds exactly the pairs joined by an edge of a propagation-capable type |
| BlastRadius.BlastRadiusSound | backend/app/graph/analysis.py:42-50 | every agent compromised in any later state lies in today's blast radius |
| BlastRadius.BlastRadiusShrinks | backend/app/graph/analysis.py:42-50 | the agents inside the blast radius never grow along a run, even when collusion or subverted sentinels add compromised nodes |
| BlastRadius.BlastFractionNeverGrows | backend/app/metrics/compute.py:57-67 | so neither does the number blast_radius_fraction counts |
| BlastRadius.ReachableWellFormed | backend/app/engine/topology.py:53-58 | the symmetry these rest on holds in every reachable world |
| GraphFacts.BuildEdges | backend/app/graph/builder.py:44-177 | the edges of the built graph, every type at once: links both ways, tool grants, credential holders and resources, authority, threat memory, round-robin monitors |
| GraphFacts.BuildNodes | backend/app/graph/builder.py:20-177 | its nodes and their states: agents from the world, assets healthy unless recorded as compromised |
| SecurityGraphs.BuildSecurityGraph | backend/app/graph/builder.py:29-63 | the mutating builder makes the specified graph |
| SecurityGraphs.SecurityGraph.AddNode | backend/app/graph/security_graph.py:35-37 | one node is put, no edge changes |
| SecurityGraphs.SecurityGraph.AddEdge | backend/app/graph/security_graph.py:39-42 | one typed edge is added beside any of other types, no node changes |
| Suppression.SuppressedForever | backend/app/security/detection.py:11-48 | once a sentinel has fallen, no agent it monitors is ever detected or rightly quarantined again in any synchronous run, and its compromised agents stay compromised |
| Suppression.OneMonitorEach | backend/app/graph/builder.py:173-177 | each agent has exactly one incoming MONITORS edge |
| Suppression.WardsExactly | backend/app/graph/builder.py:173-177 | sentinel i of k answers for (n + k - 1 - i) div k of n agents |
| Suppression.WorstCase | backend/app/graph/builder.py:173-177 | no sentinel answers for more than ceil(n/k) agents, and the first for exactly that many |
| Suppression.SuppressionBound | backend/app/security/detection.py:11-31 | m fallen sentinels suppress at most m * ceil(n/k) agents |
| Suppression.MoreSentinelsNeverWorse | backend/app/graph/builder.py:146-177 | one more sentinel never raises what a single fallen one can cost |
| RunAccounts.LogTotals | backend/app/metrics/compute.py:96-108 | attempted + 1 = succeeded + failed; unflagged successes count the ever-compromised; quarantine events count the quarantined; false ones count the quarantined never compromised |
| RunAccounts.LogPerAgent | backend/app/metrics/compute.py:111-153 | at most one quarantine event per agent, in the same tick as its detection, and exactly for the quarantined agents that were compromised |
| RunAccounts.FalseQuarantineShare | backend/app/metrics/compute.py:103-108 | false_quarantine_rate is the share of quarantined agents never compromised |
| RunAccounts.SuccessRateMeans | backend/app/metrics/compute.py:96-100 | attack_success_rate divides by one more than the attempts |
| RunAccounts.UtilityNeverRises | backend/app/metrics/compute.py:45-54 | retained_utility never rises along a run |
| Metrics.DetectionLatency | backend/app/metrics/compute.py:111-127 | the two loops compute the mean over the agents with a compromise tick and a detection of the ticks from the one to the first of the other: times their number it is the total, None exactly without any |
| Metrics.ContainmentLatency | backend/app/metrics/compute.py:130-153 | the same over the agents detected and rightly quarantined, from the first of the one to the first of the other |
| Latency.ContainmentIsInstant | backend/app/metrics/compute.py:130-153 | over every synchronous run containment latency is None or exactly zero |
| Latency.DetectionTakesATick | backend/app/metrics/compute.py:111-127 | detection latency, when present, is at least one if and only if a scenario owns the clock, and zero otherwise |
| Events.EventEmitter.Emit | backend/app/events/emitter.py:19-32 | a batch is numbered on from the record: no gap, no repeat |
| Events.EventBus.Publish | backend/app/events/bus.py:17-21 | every subscriber's queue gains exactly the events, in order, and the ring keeps the last 2000 of the whole record |
| Events.EventBus.Subscribe | backend/app/events/bus.py:23-29 | a fresh empty queue, registered at once |
| Events.EventBus.Unsubscribe | backend/app/events/bus.py:31-32 | that queue and no other is dropped |
| Events.EventBus.EventsSince | backend/app/events/bus.py:34-41 | the loop returns the whole rest of the record, or None exactly when the next line says |
| Events.SinceIsExact | backend/app/events/bus.py:34-41 | None if and only if a needed event left the ring (or the number is below -1 and there is any event); otherwise every later event, in order |
| Stream.SentIsConsecutive | backend/app/api/ws.py:22-43 | in every interleaving of publishes and sends, for every requested number, the events sent are the consecutive stretch after the starting point, each once, in order |
| Stream.DrainedIsCurrent | backend/app/api/ws.py:38-43 | with backlog and queue empty the client has everything up to the last published event |
| Stream.MissesExactly | backend/app/api/ws.py:33-43 | a drained client misses a later event if and only if it connected with a number above last_seq |
| Stream.CatchesUp | backend/app/api/ws.py:26-43 | for any reducer, the state at the starting point plus the events sent is the current state |
| Stream.DrainsUnlessPublished | backend/app/api/ws.py:38-43 | the handler can step exactly until it is drained, and every step brings it nearer |
| StreamHandler.ExperimentStream.constructor | backend/app/api/ws.py:22-36 | subscribe, backlog, snapshot in one stretch is the Connect step |
| StreamHandler.ExperimentStream.BacklogSent | backend/app/api/routes_runtime.py:616-619 | one backlog send is the SendBacklog step |
| StreamHandler.ExperimentStream.TakeNext | backend/app/api/routes_runtime.py:621-624 | queue.get and the de-duplicating test are the Take step |
| StreamHandler.ExperimentStream.HeldSent | backend/app/api/ws.py:42-43 | the send and the update of last_sent_seq are the SendHeld step |
| StreamHandler.ExperimentStream.Published | backend/app/api/ws.py:22-24 | a publish by anybody reaches a subscribed handler as the Publish step |
| StreamHandler.ExperimentStream.Closed | backend/app/api/ws.py:44-47 | a failed send ends in exactly this queue being unsubscribed |
| StreamHandler.ExperimentStream.SnapshotSent | backend/app/api/ws.py:28-31 | one snapshot send is the SendSnapshot step |
| LiveClient.ClientSeesTheWorld | backend/app/api/ws.py:22-43 | a drained client of a running experiment: the snapshot it was sent on connecting, even one taken in the middle of a tick, then the events it was sent and the drafts the runner still holds give every agent's present state |
| LiveClient.TwiceIsOnce | backend/app/orchestrator/runner.py:153-171 | folding a stretch of events a second time changes nothing, which is why a snapshot ahead of last_seq does no harm |
| LiveClient.ClientSeesTheSession | backend/app/api/routes_runtime.py:607-626 | a drained client of a live session that started from a snapshot holds the present session |
| RunnerProtocol.TerminalIsFinal | backend/app/orchestrator/runner.py:110-142 | "finished" and "stopped" are absorbing; nothing is published once the terminal event is set; after an accepted stop only its one event is |
| RunnerProtocol.AtMostOneStop | backend/app/orchestrator/runner.py:116-142 | with any number of concurrent stop() calls there is no EXPERIMENT_STOPPED before the run is closed and then exactly one, last in the log |
| RunnerProtocol.NeverStuck | backend/app/orchestrator/runner.py:69-142 | a running loop can go on, a resumed one is never left on the pause event, a stop in progress can be completed, waiting callers return |
| RunnerProtocol.SnapshotIsLogPlusHeld | backend/app/orchestrator/runner.py:97-109 | with or without a gateway, the log and then the drafts still held rebuild every agent of the snapshot |
| RunnerProtocol.SnapshotMatchesLog | backend/app/orchestrator/runner.py:153-171 | snapshot and log agree if and only if the drafts not yet published contain no unflagged COMPROMISE_SUCCEEDED and no AGENT_QUARANTINED |
| RunnerProtocol.SnapshotWithoutModels | backend/app/orchestrator/runner.py:92-110 | while the present world gives no model anything to answer nothing is held and the log rebuilds the agents, so always without a gateway |
| Movement.RunMoves | backend/app/engine/tick.py:8-13 | over any synchronous run some agent differs at the end exactly when the run's events contain an unflagged success or a quarantine: neither is ever undone |
| LiveRuns.LiveIsAnExperiment | backend/app/orchestrator/runner.py:92-110 | a run that asks no models has, whatever pauses and stops came in, the world and log of the experiment after some number of ticks |
| LiveRuns.FinishedIsSimulated | backend/app/orchestrator/runner.py:92-114 | one that finished ends exactly where the batch simulation does |
| LiveRuns.ReplayOfLive | backend/app/engine/replay.py:54-63 | rebuilding to the tick of a live run, at any moment, gives its world and log if and only if a scenario owns the clock, no tick has run, or the initial world gives the first tick nothing to report |
| ModelRuns.RunRounds | backend/app/scenarios/registry.py:66-77 | the loop over the model-driven scenarios asks the model round by round, within the request budget, from the state the round before left |
| ModelRuns.ReconstructAsync | backend/app/engine/replay.py:66-87 | replay with a gateway of its own ends at the first tick that reaches the target or is finished, with that world and log |
| ModelRuns.LiveStands | backend/app/orchestrator/runner.py:92-110 | with a model whose replies are fixed, a live run stands after some number of whole ticks of the deterministic experiment, or holds the drafts of the next, whatever pauses and stops came in |
| ModelRuns.QuietExactly | backend/app/engine/replay.py:76-86 | without a clock owner the log of k ticks is that of none exactly when k is 0 or the initial world gives the first tick nothing to report and no request to send; then nothing has changed |
| ModelRuns.ReplayLength | backend/app/engine/replay.py:48-51 | replay to a run's tick runs the ticks the run has seen, one held or cancelled in its model calls included, with a clock owner; without one it runs none |
| ModelRuns.ReplayOfAsked | backend/app/engine/replay.py:66-103 | replay that asks the model again gives the live world and log, between ticks, if and only if a scenario owns the clock, no tick has run or the first has nothing to report; for a run holding a tick's drafts, or cancelled then, if and only if no scenario owns the clock, it is the first tick and it leaves the initial world as it is |
| Ownerless.AdvanceStill | backend/app/engine/tick.py:8-13 | a tick of non-owning scenarios leaves a world without fallen graph nodes as it is exactly when detection catches nobody and no scenario but attestation has anything to do |
| ModelRuns.OnlyWithRealAgents | backend/app/gateway/factory.py:39-47 | requests are sent only in runs with model-backed agents, the ones a gateway is built for |
| Archive.CompleteIsTheRecord | backend/app/persistence/writer.py:196-201 | is_complete is true if and only if the stored rows are the whole published record |
| Archive.RecordIsReplay | backend/app/persistence/writer.py:202-214 | a complete record without model calls: replay to the stored final tick gives the final world and, with the stop event of a stopped run, exactly the stored rows, if and only if a scenario owns the clock, no tick ran or the first had nothing to report |
| Archive.CompleteIsReplayable | backend/app/engine/replay.py:1-12 | with a clock owner every complete record can be replayed: the replay ends, with the final world and the stored rows |
| Archive.RecordIsReplayWithModel | backend/app/engine/replay.py:66-103 | the same with a model whose replies are fixed, with the condition of ReplayOfAsked |
| RunnerObject.ExperimentRunner.constructor | backend/app/orchestrator/runner.py:28-67 | construction, initial publish and start leave the initial protocol state |
| RunnerObject.ExperimentRunner.PublishDrafts | backend/app/orchestrator/runner.py:108-109 | emitter and bus stay in step and every subscriber gets the events |
| RunnerObject.ExperimentRunner.RunStretch | backend/app/orchestrator/runner.py:92-114 | the loop from one suspension to the next is the RunLoop step |
| RunnerObject.ExperimentRunner.AnswersStretch | backend/app/orchestrator/runner.py:104-110 | the return of the model calls is the ModelsAnswered step |
| RunnerObject.RunAsyncScenarios | backend/app/scenarios/registry.py:66-77 | the loop over active names runs each model-driven one in order |
| RunnerObject.ExperimentRunner.PauseRun | backend/app/orchestrator/runner.py:69-75 | accepted or rejected by status; the new state is the Pause step |
| RunnerObject.ExperimentRunner.ResumeRun | backend/app/orchestrator/runner.py:77-83 | likewise, waking the loop |
| RunnerObject.ExperimentRunner.ChangeSpeed | backend/app/orchestrator/runner.py:85-90 | likewise, clamped to 0.25..8 |
| RunnerObject.ExperimentRunner.StopRequest | backend/app/orchestrator/runner.py:116-135 | the first stretch of stop() by status |
| RunnerObject.ExperimentRunner.StopRest | backend/app/orchestrator/runner.py:136-142 | emit, publish and set the terminal event in one stretch |
| WriterProtocol.NothingLost | backend/app/persistence/writer.py:112-149 | in every interleaving with the runner the batches handed over, then what the drain loop holds, then its queue are exactly the published events in order; batches are 1 to 500 long |
| WriterProtocol.FinalizeCoversAll | backend/app/persistence/writer.py:139-149 | _finalize runs only when the terminal event is set and the batches cover 0..last_seq |
| WriterProtocol.CompleteExactly | backend/app/persistence/writer.py:185-201 | pigeonhole: count, minimum and maximum pass the check if and only if the stored numbers are 0..last_seq and there is one |
| WriterProtocol.VerdictExact | backend/app/persistence/writer.py:182-214 | is_complete is stored true if and only if the stored numbers are 0..last_seq, if and only if no batch failed; every stored row is the event of its number |
| WriterProtocol.TableExactly | backend/app/persistence/writer.py:151-180 | batches that cover a prefix leave right rows only, and all of them exactly when none failed |
| WriterProtocol.WriterEnds | backend/app/persistence/writer.py:112-149 | after the terminal event the drain loop always has a next step until it is over, and every step brings it nearer, whatever fails |
| WriterObject.PostgresWriter.Collect | backend/app/persistence/writer.py:127-134 | the non-blocking loop takes from the front at most the cap and at most what is there |
| WriterObject.PostgresWriter.GotEvent | backend/app/persistence/writer.py:115-126 | the queue handing over its front event is the GetCompletes step |
| WriterObject.PostgresWriter.DrainQueue | backend/app/persistence/writer.py:127-149 | from the cancelled loser to the insert is the Drain step |
| WriterObject.PostgresWriter.WroteBatch | backend/app/persistence/writer.py:151-180 | a committed or failed insert is the WriteEnds step |
| WriterObject.PostgresWriter.InsertRows | backend/app/persistence/writer.py:34-41 | the loop inserts row by row, leaving existing numbers alone |
| WriterObject.PostgresWriter.Finalize | backend/app/persistence/writer.py:182-214 | query, verdict and update are the FinalizeEnds step |
| WriterObject.QueryRow | backend/app/persistence/writer.py:185-189 | count, minimum and maximum of the stored numbers |
| GatewayProtocol.Bounds | backend/app/gateway/gateway.py:41-77 | over every interleaving of callers: admissions within the budget, calls in flight within max_concurrency, provider calls within admissions times (max_retries + 1) |
| GatewayProtocol.OutcomesExplained | backend/app/gateway/gateway.py:58-77 | a refusal happens only with exactly the budget admitted; giving up only after every allowed attempt was made and failed |
| GatewayProtocol.PermitsReturn | backend/app/gateway/gateway.py:58-58 | no permit is lost, cancellation included, and a waiting call can be let in exactly while fewer than the limit are held |
| GatewayProtocol.ModelGateway.Complete | backend/app/gateway/gateway.py:58-77 | the retry loop returns the first answer among max_retries + 1 attempts and makes no call after it; None exactly when all fail |
| Policy.NormalizePath | backend/app/runtime/policy.py:57-80 | the loop that pushes and pops a list is the specified normal form |
| Policy.NormalForm | backend/app/runtime/policy.py:67-80 | a normal form is non-empty, without empty, "." or ".." segments or separators in them |
| Policy.SpellingsAgree | backend/app/runtime/policy.py:57-80 | at any separator: extra separators, "./" and "x/../" with x an ordinary segment change nothing, with either kind of slash |
| Policy.SeparatorsAgree | backend/app/runtime/policy.py:63-63 | a backslash separates exactly like a slash |
| Policy.LeadingDotAgrees | backend/app/runtime/policy.py:68-70 | a leading "./" changes nothing before a path that does not start with whitespace |
| Policy.LeadingDetourAgrees | backend/app/runtime/policy.py:57-80 | so does any leading stretch that comes back to where it started, x/../ among them |
| Policy.TrailingSlashAgrees | backend/app/runtime/policy.py:68-70 | a trailing separator changes nothing after a path that does not end in whitespace |
| Policy.TrailingDetourAgrees | backend/app/runtime/policy.py:57-80 | so does any trailing one: /., /x/.. |
| PolicyDecision.AllowedExactly | backend/app/runtime/policy.py:83-176 | a path is allowed if and only if it is acceptable text whose normal form lies strictly under the sandbox root, outside protected segments, with unambiguous segments |
| PolicyDecision.ReevaluationExact | backend/app/runtime/policy.py:83-176 | evaluating the normal form of an allowed path again gives the same decision if and only if it does not end in whitespace |
| PolicyDecision.SpacesReevaluate | backend/app/runtime/resources.py:50-54 | always so for paths whose only whitespace is the space |
| PolicyDecision.EdgeWhitespaceSurvives | backend/app/runtime/policy.py:67-78 | the exception is real: other whitespace at the end of a name survives before a trailing "/." |
| PolicyDecision.NormalLength | backend/app/runtime/policy.py:57-80 | a normal form is never longer than the request |
| Resources.ReadSandboxResource | backend/app/runtime/resources.py:44-85 | two policy decisions, two containment checks and the size limit before any text is returned |
| Resources.FetchConfined | backend/app/runtime/resources.py:56-83 | a returned text is one file of bounded size whose resolved path lies under the sandbox and reads as strictly below its root and unprotected; with plain names that holds of the names themselves |
| Resources.FetchExactly | backend/app/runtime/resources.py:50-85 | a text is handed out if and only if the request is allowed, the resolved target is under the sandbox, its own path reads as servable, and it is one readable file of bounded size with that text |
| Resources.ReadsNamesExactly | backend/app/runtime/resources.py:60-64 | the second decision reads exactly the names on disk if and only if no name holds a backslash and the path has no whitespace at its ends |
| Resources.ProtectedNeverFetched | backend/app/runtime/resources.py:60-71 | a target whose own path reads as protected is never handed out, whatever the spelling of the request and the links |
| Rereading.ReadsAgain | backend/app/runtime/policy.py:57-80 | given a normal form, the policy reads the same names but the last without its trailing whitespace, which may leave nothing, a dot or two dots |
| Rereading.DecidesAgain | backend/app/runtime/policy.py:83-176 | whether it allows the normal form of an allowed path is told from the last name alone |
| Rereading.GuardExactly | backend/app/runtime/resources.py:50-67 | on a disk without links the fetch of a granted normal form is refused exactly when the root is spelled other than on disk, or the policy does not allow what it reads in it, or in that again |
| Rereading.GuardTrips | backend/app/api/routes_runtime.py:268-272 | it is reachable: a protected name with a tab behind it before a trailing "/." is granted and then refused |
| SessionLog.LogIsTheSession | backend/app/runtime/session.py:176-633 | after any sequence of calls, failing ones included, the fold of the log is the session: worker states, tasks, roles, model flags, quarantine steps and reasons, order, workflow state, step, flags, model calls |
| SessionLog.SnapshotPlusEvents | backend/app/runtime/session.py:681-689 | the state after earlier calls plus the events written since is the present state |
| SessionSafety.NoActionInQuarantine | backend/app/runtime/session.py:339-499 | between AGENT_QUARANTINED(w) and a later tool execution, assignment, start, completion, recovery or second quarantine of w there is an AGENT_CREATED(w) |
| SessionSafety.ViolationsCascade | backend/app/runtime/session.py:403-445 | every POLICY_VIOLATION stands in one block of five consecutive events of one worker and step, from TOOL_REQUESTED to AGENT_QUARANTINED |
| SessionTrust.QuarantineTaints | backend/app/runtime/session.py:299-324 | in every reachable state each artifact of a quarantined worker is untrusted |
| SessionTrust.TaintStays | backend/app/runtime/session.py:317-324 | a tainted artifact never becomes trusted again while its id is not recorded again |
| SessionTrust.ReassignmentIsClean | backend/app/api/routes_runtime.py:444-469 | an accepted reassignment from a quarantined worker was offered, and announces, only trusted artifacts, none of them that worker's, and every trusted one of anybody but the replacement |
| SessionTrust.AssertContextIsTrusted | backend/app/runtime/session.py:563-576 | the loop accepts exactly contexts of known trusted artifacts |
| SessionTrust.ContentIsGranted | backend/app/api/routes_runtime.py:223-275 | content reaches only an active worker with an allowed path, is one confined file, and its request and execution are logged by then |
| SessionTrust.FetchesWhatWasGranted | backend/app/api/routes_runtime.py:263-267 | for paths whose only whitespace is the space the fetch re-decides to exactly the granted path |
| SessionTrust.GuardTripsExactly | backend/app/api/routes_runtime.py:263-272 | on a disk without links the route ends in its bypass guard exactly for an active worker with an allowed path that does not pass the guard |
| SessionObject.LiveRuntimeSession.RegisterWorker | backend/app/runtime/session.py:176-201 | a fresh worker under the id, overwriting any old one in place, and its one event |
| SessionObject.LiveRuntimeSession.StartWorker | backend/app/runtime/session.py:203-216 | refused unknown or quarantined; otherwise task, workflow state and two events |
| SessionObject.LiveRuntimeSession.CompleteTask | backend/app/runtime/session.py:218-243 | refused unknown or quarantined; otherwise the current assignment is cleared |
| SessionObject.LiveRuntimeSession.RecordModel | backend/app/runtime/session.py:245-295 | marks the worker and counts the call |
| SessionObject.LiveRuntimeSession.StoreArtifact | backend/app/runtime/session.py:299-315 | trusted exactly when its author is active |
| SessionObject.LiveRuntimeSession.TaintArtifactsOf | backend/app/runtime/session.py:317-324 | the loop marks exactly the author's still trusted artifacts and returns their ids in order |
| SessionObject.LiveRuntimeSession.TrustedContextFor | backend/app/runtime/session.py:326-335 | the trusted artifacts of everybody else, in order |
| SessionObject.LiveRuntimeSession.Request | backend/app/runtime/session.py:339-451 | the decision with its three outcomes, each published as one batch |
| SessionObject.LiveRuntimeSession.QuarantineDraft | backend/app/runtime/session.py:453-487 | the worker, its artifacts and the flags change together; the draft lists what was tainted |
| SessionObject.LiveRuntimeSession.Quarantine | backend/app/runtime/session.py:489-499 | a second quarantine is a no-op |
| SessionObject.LiveRuntimeSession.ReassignTask | backend/app/runtime/session.py:503-561 | a new worker with its assignment, three events, the announced context |
| SessionObject.LiveRuntimeSession.RecordTest | backend/app/runtime/session.py:578-591 | the two test fields are written even when the worker is then refused |
| SessionObject.LiveRuntimeSession.RecoverRun | backend/app/runtime/session.py:593-625 | every active replacement recovers, in order, then the workflow |
| SessionObject.LiveRuntimeSession.FailRun | backend/app/runtime/session.py:627-633 | the workflow fails and says so |
| SessionObject.LiveRuntimeSession.Edges | backend/app/runtime/session.py:650-679 | each declared or inherited handoff between known workers, once |
| Spreading.PropagationTick | backend/app/engine/propagation.py:14-96 | in a tick of propagation an agent falls exactly when some compromised neighbour, not both model-backed, draws below p_same for software of its own type or below p_cross for another; the lowest-numbered one is recorded, at this tick; nothing else changes but the clock |
| Spreading.PropagationLog | backend/app/engine/propagation.py:37-80 | its log: the attackable links in order of source and target, each a COMPROMISE_ATTEMPTED with p_same or p_cross and then its outcome, flagged exactly when a lower-numbered attacker got there first |
| Spreading.QuietExactly | backend/app/scenarios/adaptive_attacker_scenario.py:22-47 | the strategy is stealthy exactly when, of the agents with an attacker on record, those quarantined are at least the threshold's share, or there are none and the threshold is not positive |
| Spreading.AdaptiveTick | backend/app/scenarios/adaptive_attacker_scenario.py:44-130 | an agent falls exactly when it is the one some compromised neighbour chose, fewest links when stealthy and most otherwise, lowest id among equals, and its draw is below p_same or p_cross by software type |
| Spreading.AdaptiveLog | backend/app/scenarios/adaptive_attacker_scenario.py:64-118 | its log: one attack for every agent with somebody to attack, in id order, two events each |
| Spreading.ModelTick | backend/app/agents/runtime.py:34-183 | in a round of model answers an agent falls exactly when it leaks its token to a compromised model-backed neighbour; the clock stands still, and fallen graph nodes are forgotten exactly when anybody falls |
| Spreading.ModelLog | backend/app/agents/runtime.py:74-168 | its log: one block a request, in order of source and target, of one, four or five events by the answer |
| Watching.MonitorIs | backend/app/graph/builder.py:173-177 | an agent's sentinel is its place in id order modulo their number |
| Watching.DetectionTick | backend/app/security/detection.py:34-114 | a pass confines an agent exactly when it is compromised, its sentinel has not fallen and its draw is below the sensitivity, or it is healthy, the false rate is positive and its draw is below that; with defense off nobody |
| Watching.DetectionLog | backend/app/security/detection.py:43-106 | its log: ANOMALY_DETECTED and AGENT_QUARANTINED for everybody detected, then AGENT_QUARANTINED for everybody accused, each in id order |
| Watching.SentinelTick | backend/app/scenarios/sentinel_compromise_scenario.py:33-95 | a sentinel falls exactly when it is sound, some compromised agent's place gives it to it, and its draw is below the rate |
| Watching.SentinelLog | backend/app/scenarios/sentinel_compromise_scenario.py:44-83 | its log: a violation for every sentinel that falls now and then a signature for every one fallen by now |
| Watching.AttestationLog | backend/app/scenarios/attestation_scenario.py:31-72 | every compromised agent attests in id order, with the previous tick's nonce and marked replayed exactly when its draw is below the rate |
| Watching.CollusionTick | backend/app/scenarios/byzantine_collusion_scenario.py:31-91 | the credentials added are those that are the first one some pair of compromised agents, taken in id order two by two, oversteps: held by neither, draw below the rate |
| Watching.CollusionLog | backend/app/scenarios/byzantine_collusion_scenario.py:47-86 | its log: one violation for every such pair, in order, naming the credential and the two |
| Outset.InitialAgent | backend/app/engine/topology.py:11-100 | each agent of the tick-0 world: software type by its place modulo the count, the seed compromised at tick 0, everybody else healthy, linked both ways, model-backed exactly when fewer than real_agent_count agents have more links or as many and a lower id |
| Outset.InitialFrame | backend/app/engine/topology.py:52-85 | every link once, smaller id first; clock 0; no graph node fallen |
| Outset.SeedIs | backend/app/engine/topology.py:60-66 | the seed is the agent at the drawn place, or the best-connected one with the lowest id |
| Outset.OpeningLog | backend/app/engine/simulate.py:20-24 | every log opens with the start, AGENT_CREATED for each agent in id order with its software type, and the seed's COMPROMISE_SUCCEEDED |
| Ticks.RegistryIs | backend/app/scenarios/registry.py:25-45 | each name runs its own step and every other name nothing |
| Ticks.TickIs | backend/app/engine/tick.py:8-13 | a tick runs the scenarios from the first to the last, each on what the one before left, then detection, and reports in that order |
| Ticks.OwnersAre | backend/app/scenarios/registry.py:25-31 | a scenario list moves the clock exactly if it names propagation or adaptive_attacker, by as many places as they are named in |
| Ticks.DefaultTick | backend/app/engine/tick.py:8-13 | one agent over a tick of the default scenarios: it may fall to a neighbour and may then be confined, on rates and draws alone |
| Exposure.NodesAre | backend/app/graph/builder.py:30-177 | which nodes the graph of a world has and the state of each |
| Exposure.EdgesAre | backend/app/graph/builder.py:30-177 | its edges of every type, on links, tool access, places in id order and the sentinels in turn |
| Exposure.BlastIs | backend/app/graph/analysis.py:42-50 | what lies in the blast radius: the agents links lead to from a compromised one, the tools an exposed agent may access, the credentials fallen or held by an exposed agent, the resources those open, and fallen sentinels and controls |
| Exposure.BlastRadiusIn | backend/app/graph/analysis.py:42-50 | building the graph and searching it gives exactly that set |
| Metrics.RatesAre | backend/app/metrics/compute.py:37-108 | success rate, false-quarantine rate and retained utility are the stated shares of events and agents, and zero of nothing |
| Metrics.MeanIs | backend/app/metrics/compute.py:125-127 | the mean times the number of items is their total; None exactly for none |
| Events.RingIs | backend/app/events/bus.py:10-20 | the ring holds the last 2000 events under their own numbers |
| Events.SinceIs | backend/app/events/bus.py:33-41 | None exactly for a number below -1 or one whose next event has left the last 2000; otherwise every event above the number, in order |
| Stream.ConnectIs | backend/app/api/ws.py:21-37 | a client starts from its own number and every event above it as long as all of them are kept, and from a snapshot otherwise |
| Stream.GoneIsGone | backend/app/api/ws.py:40-47 | a disconnected client is sent nothing more and its queue is fed no more |
| GatewayProtocol.AdmitIs | backend/app/gateway/gateway.py:58-62 | with its permit a call is let through and calls the provider while the budget lasts, and is refused and gives the permit back afterwards |
| GatewayProtocol.FailIs | backend/app/gateway/gateway.py:62-77 | a failed attempt backs off and is made again up to max_retries times, then the call gives up; any end gives the permit back |
| GatewayProtocol.CancelIs | backend/app/gateway/gateway.py:58-58 | a cancelled call is over whatever it was doing and keeps no permit |
| WriterProtocol.RaceIs | backend/app/persistence/writer.py:115-126 | the queue's front event or the terminal signal, possibly both, and only then does the loop go on |
| WriterProtocol.DrainIs | backend/app/persistence/writer.py:127-143 | one drain takes at most 500 events from hand and queue, in order, and writes exactly those; with none it finalizes if the signal was seen and waits otherwise |
| WriterProtocol.WriteIs | backend/app/persistence/writer.py:151-180 | a committed batch is in the table row for row on top of what was there, a failed one is not; then the loop finalizes exactly when the signal was seen and nothing is queued |
| WriterProtocol.FinalizeIs | backend/app/persistence/writer.py:182-214 | an update that goes through stores whether the numbers are as many as last_seq says, with 0 and last_seq as extremes; one that fails stores nothing |
| RunnerProtocol.PauseAndResume | backend/app/orchestrator/runner.py:68-84 | pause holds a running loop, resume lets a paused one go on and wakes it; both refused exactly on finished and stopped runs, otherwise idle |
| RunnerProtocol.SpeedIs | backend/app/orchestrator/runner.py:85-90 | the multiplier between 0.25 and 8, the nearer of them outside, while the run lasts |
| RunnerProtocol.StopIs | backend/app/orchestrator/runner.py:116-142 | what each stretch of the first and of later stop() calls does, by status |
| RunnerProtocol.RunLoopIs | backend/app/orchestrator/runner.py:92-114 | a stretch of the loop ends a finished run, waits when paused, and otherwise runs one tick, whose events are out at its end unless a request is |
| RunnerProtocol.AnswersAre | backend/app/orchestrator/runner.py:98-109 | the answers settle round by round and the held events and theirs are published together |
| RunnerProtocol.PausedStays | backend/app/orchestrator/runner.py:92-97 | while a paused loop waits nothing but resume or stop has any effect on status, world or log |
| ModelRuns.RepliesAre | backend/app/gateway/gateway.py:58-62 | of a round's requests in order the first ones the budget still allows are answered and the rest get nothing |
| PolicyTerms.StripIs | backend/app/runtime/policy.py:63-63 | exactly the white-space characters of str.strip go, from both ends and nowhere else |
| PolicyTerms.SplitIs | backend/app/runtime/policy.py:67-67 | the pieces hold no slash and joined with slashes are the text again |
| PolicyTerms.NormalizeIs | backend/app/runtime/policy.py:57-80 | the normal form read from the end of the path: none if it climbs above where it starts or no name is left, otherwise the names nobody climbs over |
| PolicyTerms.AllowedIs | backend/app/runtime/policy.py:83-176 | allowed exactly: presentable text that reads as a path of plain names under demo_target and not under its secrets, however capitalised |
| PolicyTerms.RuleIs | backend/app/runtime/policy.py:83-176 | which rule answers and which normal form it reports, told from the characters of the text |
| PolicyTerms.FetchIs | backend/app/runtime/resources.py:44-85 | what the fetch answers, every error included: both decisions, the places with links followed, 262144 bytes, UTF-8 |
| SessionCalls.DeniedRequest | backend/app/runtime/session.py:403-487 | a path that is not grantable shuts an active worker off at the new step, takes the trust from what it had produced, raises the alarm, and logs exactly the five events; the grant is refused |
| SessionCalls.GrantedRequest | backend/app/runtime/session.py:376-400 | a grantable path is granted under its normal form, nobody is touched, and two events are logged |
| SessionCalls.RefusedRequest | backend/app/runtime/session.py:350-372 | a quarantined worker is refused, with two events and no other effect |
| SessionCalls.QuarantineMeans | backend/app/runtime/session.py:453-499 | a quarantine from outside does the same with its one event, and nothing to one already quarantined |
| SessionCalls.RefusedCalls | backend/app/runtime/session.py:203-243 | calls about unknown workers, and starts or completions of quarantined ones, change nothing but the test fields of a test run |
| SessionCalls.ErrorsAre | backend/app/runtime/session.py:168-243 | which calls raise UnknownWorkerError: about an unknown worker, and for a start, a completion or a test run about a quarantined one |
| SessionCalls.RegisterMeans | backend/app/runtime/session.py:176-201 | a fresh worker, everybody else as before, one event |
| SessionCalls.StartMeans | backend/app/runtime/session.py:203-216 | the worker has the task, an idle session runs, two events |
| SessionCalls.CompleteMeans | backend/app/runtime/session.py:218-243 | the worker has no task, one event |
| SessionCalls.TestRunMeans | backend/app/runtime/session.py:578-591 | the test fields are set and the worker's task is done |
| SessionCalls.ModelCallMeans | backend/app/runtime/session.py:245-295 | the worker is model-backed and the count one higher, two events |
| SessionCalls.ArtifactMeans | backend/app/runtime/session.py:299-315 | the artifact is recorded, trusted exactly when its author is active, and nothing is logged |
| SessionCalls.ReassignMeans | backend/app/runtime/session.py:503-561 | a new worker takes over, recovery is under way, three events, and the context named is every trusted artifact of anybody else in order |
| SessionCalls.RecoverMeans | backend/app/runtime/session.py:593-625 | every active replacement recovers and nobody else changes; their events in order and then the workflow's, which names the quarantined |
| SessionCalls.FailMeans | backend/app/runtime/session.py:627-633 | the workflow fails, one event |
| SessionTrust.RouteIs | backend/app/api/routes_runtime.py:223-274 | what the resource route answers in every case |
| SessionTrust.ReassignRouteIs | backend/app/api/routes_runtime.py:432-496 | what the reassign route answers in every case: unknown worker, untrusted context, or the reassignment |
| SecretSearch.OccursIs | backend/scripts/verify_no_secret_leaks.py:51-64 | to occur is to stand between some bytes before and some after |
| SecretSearch.LeaksAre | backend/scripts/verify_no_secret_leaks.py:67-78 | the files reported, in order: those other than the fixture in which it occurs |
| Counterexamples.ReplayDiffers | backend/app/engine/replay.py:54-63 | for every set-up without scenarios whose seed has a neighbour and is detected: the live run after a tick has a quarantine that replay to its tick does not |
| Counterexamples.NeverHalts | backend/app/engine/simulate.py:25-28 | for every such set-up whose seed is not detected, and nobody falsely accused: the batch loop has no last tick |
| Counterexamples.LatencyIsZero | backend/app/metrics/compute.py:111-127 | for every such set-up whose seed is detected: the reported detection latency is zero |
| Counterexamples.SnapshotAhead | backend/app/orchestrator/runner.py:92-110 | for every set-up where the first tick quarantines somebody while the undetected model-backed seed has a request out to a model-backed neighbour: the snapshot shows a quarantine the log does not |
| Counterexamples.StoppedReplayDiffers | backend/app/engine/replay.py:66-87 | for every set-up with a clock owner whose first tick sends a request, and any model: a run stopped in that tick has not published what replay to its tick reports |
| Counterexamples.EventMissed | backend/app/api/ws.py:33-43 | a client that asks from number 5 when only number 0 is out never gets the event published next |
| Counterexamples.StarUnowned | backend/app/engine/topology.py:38-106 | such set-ups exist at every size from three agents on: a star whose hub is detected exactly under a positive sensitivity |
| Counterexamples.StarHolds | backend/app/engine/topology.py:38-106 | and so for the held snapshot: a star with twenty model-backed agents, the hub undetected, one neighbour accused and one spared |
| Counterexamples.StarAsks | backend/app/engine/topology.py:38-106 | and for the stopped run: a star with the default scenarios and defense off |
| SecretSearch.FileContains | backend/scripts/verify_no_secret_leaks.py:51-64 | for any split of the file into non-empty chunks the bounded scan answers as the whole-file search; an empty needle is found in every non-empty file |
| SecretSearch.WindowSuffices | backend/scripts/verify_no_secret_leaks.py:53-61 | keeping the last |needle| - 1 bytes is enough to see every new occurrence |
| SecretSearch.FindLeaks | backend/scripts/verify_no_secret_leaks.py:67-78 | exactly the files other than the fixture that contain the needle, in order, and how many were scanned |

## Left out

- Agent, worker and artifact ids are compared and ordered only; duplicate agent ids and agent ids that collide with generated names such as `sentinel-000` are not modelled.
- Event ids, wall-clock times, display attributes and most event metadata; of the policy and session events only the rule or kind of a reason is kept, not its sentence.
- Probabilities, rates, draws and means are reals; rounding of floats is not modelled.
- The seeded generator, `barabasi_albert_graph` and the size of a tool's sampled grant: arbitrary functions and an arbitrary link set stand for them.
- Iteration order of the two latency dictionaries: the mean is taken in id order, which leaves its exact value the same.
- SecurityPlaneSteps.AttestationStep: given as a function only; its events change nothing, which the fold lemmas use.
- Attestation, threat-memory and collusion metadata beyond the subjects named in the events.
- ModelRuns.ReplayOfAsked: the model's replies depend on the request alone, as the mock provider's do, and no call times out; replay with another provider, which the program refuses, is not modelled.
- A `stop()` caller that is itself cancelled while waiting, an exception inside a tick, and shutdown order between tasks.
- The semaphore's queueing order: any waiting gateway call may be let in next, which covers first-in-first-out.
- WriterProtocol.VerdictExact: the table is written by this writer alone and the query sees its committed rows; database internals, reconnects and the experiments row are not modelled, and a batch whose commit succeeds after its error was reported is counted as failed only if its rows are absent.
- The writer's start failure, which unsubscribes and leaves a run without persistence.
- SessionLog.LogIsTheSession: the fold leaves out artifacts and `upstream`, which no event carries in full; the test fields, which the payloads of a "pytest" TASK_COMPLETED and of WORKFLOW_RECOVERED carry, but which `record_test_run` writes before the worker check and so without an event when it is refused; and `compromised_by`, which follows from whether the quarantine closes a POLICY_VIOLATION block.
- SessionObject.LiveRuntimeSession.Edges: which handoffs there are and that each is there once, not their order.
- The identity of returned artifact objects: a call that hands one out hands out its value.
- Resources.FetchConfined: about names it needs plain names on disk; in general the claim is on what the policy reads from the resolved path, and `ReadsNamesExactly` says when the two are the same.
- `lower()` is the ASCII part of Unicode lower-casing, which is all that comparing with the two ASCII names can see.
- `attack_paths`, `critical_nodes`, `privileged_exposure`, `security_plane_integrity`, `compromise_fraction`: thin counts or library calls.
- The frontend, WorkSwarm, RunPod and vLLM clients, telemetry export, explanations, reports, migrations and SQL text.
