# CHIPSIM verification model

A Dafny 4.11 model of the three connected cores of CHIPSIM, a co-simulator for neural networks on chiplet
systems, with proofs of what they promise. `dafny verify dfyconfig.toml` checks the whole project.

**The phase engine.** A mapped model is a list of phases (compute, activation traffic, weight loading), and every
input runs one instance of each. A tick activates at most one phase per input, asks the network simulator for the
latencies that are still missing, recomputes all times twice and retires finished models. `PhaseEngine` writes one
tick of one model as functions on a static `Plan` and a dynamic `Progress`; `EngineInvariant` and `EngineSteps`
prove what every function keeps; `EngineTheorems`, `ModelTick`, `Stall` and `Cosim` draw the conclusions for all
runs of all models. `WeightSchedule` and `ExecutionOrder` build the plans. `MappedModels` and `GlobalManagers` hold
the classes of the program, with its loops and in-place updates, and prove each method equal to the functions.

**The capacity allocator and injection scheduler.** `LayerUnits`, `NearestNeighbour` and `LayerMapping` split one
layer over chiplets with the program's rounding; `Capacity` maps whole models and commits or frees units;
`Workloads` keeps the list of waiting models; `Injection` puts them together into the injection loop, and `Placement`
tells which models an idle or a busy system takes; `Partition` repairs the rounding of channel counts in an array.
`Simulation` joins the injector and the manager object of the phase engine into the main loop of the program.

**The thermal network.** `ThermalGeometry` and `ThermalAssembly` go from boxes to the assembled conductance matrix;
`ThermalNetwork` and `Transient` are about that matrix and the backward-Euler time loop, which `Elimination` shows to
have a solution; `PackedRows` is its compressed form; `ThermalPackage` goes the whole way from layers to temperatures;
`PowerMap` and `PowerTraces` follow watts from the chiplet traces to the nodes.

Arithmetic is exact: `int` for packets and capacity units, `real` for times, shares, watts and temperatures. The
network simulator is a function from a phase instance to a positive latency. Chiplet and phase numbers start at
zero. A workload has distinct model numbers, and a model at least one layer and one input.

Three results are about inputs for which a natural expectation fails, with the exact condition.

- The charge for an attention layer depends on its output dimension only. It covers the operation exactly up to a
  number of inner rows that the output dimension and the chiplet determine (`LayerUnits.AttentionIsCoveredUpTo`).
- A layer is mapped on no chiplet at all exactly when it has no weights or no eligible chiplet can use it
  (`LayerMapping.NowhereIsHomeless`); it then has at most ten weights, and the next layer fails because there is no
  previous chiplet to start from. `Capacity.TinyConv1dBlocks` and `Capacity.FullChipletBlocks` are two such models. It
  cannot happen when every layer but the last has more than ten weights (`Capacity.HeavyModelsHavePrevious`).
- The main loop need not end. Every run is decided in finitely many iterations (`Simulation.Simulator.Decide`): an
  attempt is fatal, everything is injected and retired, or the loop is stuck. It is stuck when it is idle and every
  missing model that an idle system would take stands behind one that it postpones and that has failed often enough to
  block. A stuck loop never ends (`Simulation.Simulator.WaitForever`), and an idle loop with all models due injects
  nothing exactly when it is stuck (`Simulation.Simulator.Proceed`). Seen from the start of the run: no missing model
  that an idle system postpones, and the loop ends (`Simulation.Simulator.Run`); a missing model that is postponed
  whatever units are free, and it never does, whatever else is in the workload (`Simulation.Simulator.NeverOver`). If
  every model that an idle system postpones is always postponed, the first condition is exact. `Placement` has a model
  that is never taken although it needs half the memory and passes both capacity checks
  (`Placement.HalfFullModelIsNeverTaken`), and one between the two, which an idle system postpones and a busy one takes
  (`Placement.OnlyBusySystemTakes`).

## Model

| member | source | states |
|---|---|---|
| Phases.ScaledAmountBounds | src/core/mapped_model.py:633-641 | scaling a packet count by a fraction never gives less than one packet or more than the original count |
| Phases.ScaledTrafficKeepsRoutes | src/core/mapped_model.py:625-650 | scaling never silences a phase and never invents packets: there is traffic after scaling exactly when there was before, and every route keeps between one packet and its original count |
| PhaseEngine.CurrentFrom | src/core/mapped_model.py:526-540 | the phase found is in the order, incomplete and has its dependencies met; if none is found, no phase of the order is runnable |
| PhaseEngine.CurrentIsFirst | src/core/mapped_model.py:526-540 | no phase before it in the order is runnable |
| EngineInvariant.StartTimeBounds | src/core/mapped_model.py:606-623 | once dependencies are met, the computed start time is neither before the input's start nor in the future |
| EngineSteps.ReadyComputeHasWeights | src/core/mapped_model.py:542-604 | whenever a compute phase's dependencies are met, its layer's weights are loaded, also for later inputs without a weight instance |
| EngineSteps.NeverSkipsLoad | src/core/mapped_model.py:425-446 | in every state that keeps the invariant the shortcut that skips a weight load never applies to an incomplete load |
| EngineSteps.ActivateKeeps | src/core/mapped_model.py:378-524 | a pass over any number of inputs keeps the invariant and every completed instance, known input time and loaded layer |
| EngineSteps.UpdateLatencyKeeps | src/core/mapped_model.py:652-724 | pushing a positive latency into a running communication keeps the invariant and all history |
| EngineSteps.TimeKeeps | src/core/mapped_model.py:726-840 | a timing pass keeps the invariant and all history |
| EngineSteps.FreshIsGood | src/core/mapped_model.py:181-189 | a newly injected model satisfies the invariant |
| EngineTheorems.StartsAtLatestCause | src/core/mapped_model.py:606-623 | a started instance started exactly at the latest of its input's start, its dependencies' completions and, pipelined, the previous input's completion of the phase; all of these are over |
| EngineTheorems.EndsAfterLatency | src/core/mapped_model.py:447-522 | a complete instance ended at its start plus its latency, or at its start when it had nothing to send, and not in the future |
| EngineTheorems.SamePhaseNeverOverlaps | src/core/mapped_model.py:542-567 | pipelined: any two inputs occupy one phase in disjoint intervals, earlier input first |
| EngineTheorems.InputsNeverOverlap | src/core/mapped_model.py:733-815 | serialized: an input starts only after every phase of every earlier input has completed |
| EngineTheorems.SerializedPhasesNeverOverlap | src/core/mapped_model.py:733-815 | serialized: any phase of a later input starts after any phase of an earlier one has completed |
| EngineTheorems.ComputeNeverBeatsWeights | src/core/mapped_model.py:425-519 | compute has left NOT_STARTED only with its layer loaded, and starts no earlier than the completion of its own input's weight load, or of input 0's load in weight-stationary mode |
| EngineTheorems.TimeSettles | src/core/mapped_model.py:726-840 | after a timing pass an input whose predecessor is finished has a start time, a finished input has a completion time and a finished model is marked done, while no instance changed state |
| EngineTheorems.LeastOpenIsRunnable | src/core/mapped_model.py:526-604 | in every settled state with an incomplete phase, the lowest-numbered incomplete input has a runnable phase |
| EngineTheorems.AllCompleteRetires | src/core/mapped_model.py:960-993 | in a settled state a model is reported complete exactly when no input has an incomplete phase, and then all its instances are complete |
| ModelTick.CommunicateKeeps | src/sim/communication_orchestrator.py:60-98 | a communication pass that calls the simulator whenever some request lacks a latency keeps the invariant and leaves every running communication with a positive latency |
| ModelTick.TickLowersTotals | src/sim/communication_orchestrator.py:60-98 | over a tick neither the remaining work nor the number of communications without a latency rises, and a needed call lowers both |
| Stall.StalledBeforeDeadline | src/core/mapped_model.py:447-519 | if a tick changes no state, the current phase of the lowest incomplete input is running and not yet due, and its due time did not move |
| Cosim.InjectKeeps | src/sim/global_manager.py:595-640 | injecting a well-formed model keeps the invariant of all models |
| Cosim.StepKeeps | src/sim/global_manager.py:716-771 | every tick keeps the invariant of all models, and a model is inactive only when all its instances are complete |
| Cosim.StepKeepsHistory | src/sim/global_manager.py:716-771 | no tick changes a completed instance, a known input time or a loaded layer |
| Cosim.NoComputeBeforeWeights | src/core/mapped_model.py:542-604 | the same, with its time order, after every sequence of injections and ticks, for every model, input and mode |
| Cosim.EveryStartIsCaused | src/core/mapped_model.py:606-623 | exact causality after every sequence of injections and ticks |
| Cosim.EveryRunIsExclusive | src/core/mapped_model.py:733-815 | no overlap after every sequence of injections and ticks: per phase when pipelined, altogether when serialized |
| Cosim.StepLowers | src/sim/communication_orchestrator.py:60-98 | summed over all models, no tick raises either potential and a tick that calls the simulator lowers both |
| Cosim.SimulatorCallBound | src/sim/communication_orchestrator.py:60-98 | over every run, calls made so far plus communications still without a latency are at most the communication instances with traffic of the injected models |
| Cosim.StepDescends | src/sim/global_manager.py:480-771 | each tick lowers the lexicographic measure of remaining work, active models and ticks to the next deadline |
| Cosim.AllModelsRetire | src/sim/global_manager.py:480-771 | from every state that keeps the invariant, with a fixed set of models, finitely many ticks complete all instances and retire all models |
| Cosim.EveryStepProgresses | src/sim/global_manager.py:716-771 | every tick moves time on, brings no model back and, unless nothing is active, lowers the lexicographic measure |
| ExecutionOrder.Visit | src/core/mapped_model.py:240-250 | a visit extends the sorted list without duplicates, marks its phase, and on an acyclic graph places it after all its dependencies |
| ExecutionOrder.Sort | src/core/mapped_model.py:234-252 | for every closed dependency graph the result lists every phase exactly once; for acyclic graphs every phase comes after its dependencies |
| WeightSchedule.ScheduleIsAcyclic | src/sim/scheduling/weight_scheduler.py:78-159 | both weight-loading strategies give a closed, acyclic dependency graph |
| WeightSchedule.AssembledIsWellFormed | src/sim/scheduling/weight_scheduler.py:78-159 | every model assembled from the default schedule and either strategy is well formed, so all theorems about runs apply to it |
| MappedModels.MappedModel.BuildDefaultPhases | src/core/mapped_model.py:138-170 | the schedule is the chain compute 0, activation 0, compute 1, ... with its layer tables, executed in that order |
| MappedModels.MappedModel.InitializeInstances | src/core/mapped_model.py:181-189 | every input gets exactly the instances it should have, fresh, with stationary weights loaded by input 0 only |
| MappedModels.MappedModel.AddWeightLoadingPhases | src/core/mapped_model.py:191-232 | weight phases follow the base phases, every layer is filed under its weight phase, the new order lists every phase exactly once, and the missing instances appear fresh |
| MappedModels.MappedModel.SortExecutionOrder | src/core/mapped_model.py:234-252 | the order is a permutation of the phases, topological when the schedule is linked |
| MappedModels.MappedModel.ConfigureAllAtOnce | src/sim/scheduling/weight_scheduler.py:78-109 | every compute phase depends on the one weight phase, the order is sorted again, and nothing has started |
| MappedModels.MappedModel.ConfigureJustInTime | src/sim/scheduling/weight_scheduler.py:111-159 | each compute phase depends on its own weight phase and each later weight phase on the previous layer's activations |
| MappedModels.MappedModel.UpdateComputeMetrics | src/core/mapped_model.py:316-342 | compute instances of every input get their layer's latency |
| MappedModels.MappedModel.Prepare | src/sim/global_manager.py:616-700 | a constructed model, with its weights scheduled and latencies and traffic filled in, is well formed and fresh |
| MappedModels.MappedModel.DependenciesMet | src/core/mapped_model.py:542-604 | returns the configuration error, met or unmet exactly as the specification says |
| MappedModels.MappedModel.PhaseStartTime | src/core/mapped_model.py:606-623 | the loop computes the latest cause |
| MappedModels.MappedModel.FindCurrentPhase | src/core/mapped_model.py:526-540 | the loop finds the first runnable phase of the order |
| MappedModels.MappedModel.ActivateComm | src/core/mapped_model.py:447-519 | each branch of the communication activation yields the specified instance and report |
| MappedModels.MappedModel.ActivateInputAt | src/core/mapped_model.py:400-522 | one input's turn equals the specified activation |
| MappedModels.MappedModel.GetActivePhases | src/core/mapped_model.py:378-524 | the in-place pass equals the specified activation of all inputs and returns exactly its active phases in order |
| MappedModels.MappedModel.UpdatePhaseLatency | src/core/mapped_model.py:652-724 | the in-place update equals the specified one: first latency, revision of a running phase, or nothing |
| MappedModels.MappedModel.TimeInputAt | src/core/mapped_model.py:733-815 | start, phase times and completion of one input equal the specification |
| MappedModels.MappedModel.CalculatePhaseTiming | src/core/mapped_model.py:726-840 | the whole in-place timing pass equals the specified one |
| GlobalManagers.RequestsAreCommOnly | src/sim/communication_orchestrator.py:100-169 | the communications among the active phases are exactly the specified requests |
| GlobalManagers.CommunicationOrchestrator.Collect | src/sim/communication_orchestrator.py:100-169 | every active model is activated, no other model changes, and the collected requests are those of the specification |
| GlobalManagers.CommunicationOrchestrator.NeedsInitialSimulation | src/sim/communication_orchestrator.py:231-251 | true exactly when some requested communication has no latency yet |
| GlobalManagers.CommunicationOrchestrator.PushAll | src/sim/communication_orchestrator.py:415-457 | every request of every active model receives the simulator's latency, nothing else changes |
| GlobalManagers.CommunicationOrchestrator.SimulateCommunication | src/sim/communication_orchestrator.py:42-98 | the call counter rises by one exactly when some active model wants a latency, and all models end in the specified state |
| GlobalManagers.GlobalManager.InjectModel | src/sim/global_manager.py:595-700 | building, scheduling and adding a model is the specified injection and keeps the invariant |
| GlobalManagers.GlobalManager.TimeAll | src/sim/global_manager.py:728-733 | the loop over active models times exactly those |
| GlobalManagers.GlobalManager.Retire | src/sim/global_manager.py:739-767 | each active model is timed again and leaves the active list exactly when it is complete |
| GlobalManagers.GlobalManager.Tick | src/sim/global_manager.py:716-771 | one iteration of the main loop on heap objects is one step of the co-simulation |
| GlobalManagers.GlobalManager.Drain | src/sim/global_manager.py:480-771 | the main loop terminates with no active model and every instance of every model complete |
| LayerUnits.CrossbarsCover | src/mapping/model_mapper.py:196-208 | rounding columns and rows up separately never undercounts: the crossbars hold at least rows times columns weights |
| LayerUnits.WeightedLayersAreCovered | src/mapping/model_mapper.py:177-219 | the full charge of a convolution or fully connected layer holds all its weights, on crossbar and CMOS chiplets |
| LayerUnits.AttentionIsCoveredUpTo | src/mapping/model_mapper.py:184-228 | for attention with a positive output dimension, on CMOS and on crossbars, the full charge covers the operation if and only if the inner dimension is at most a limit computed from the output dimension and the chiplet |
| LayerUnits.AttentionOnCmos | src/mapping/model_mapper.py:184-186 | on CMOS that limit is the output dimension |
| LayerUnits.AttentionCanBeUndercharged | src/mapping/model_mapper.py:184-186 | the 768 by 197 query-key product is charged for less than its size |
| LayerUnits.AttentionOnCrossbars | src/mapping/model_mapper.py:216-228 | on crossbars the limit is at least the output dimension |
| NearestNeighbour.Allocate | src/mapping/model_mapper.py:424-451 | the loop with its early exit equals meeting the chiplets one by one |
| NearestNeighbour.RunBalanced | src/mapping/model_mapper.py:424-451 | after any number of chiplets: 0 <= weights left <= weights the remaining percentage stands for <= weights left plus chiplets used, and shares plus remaining percentage are 100 |
| NearestNeighbour.RunCharges | src/mapping/model_mapper.py:424-451 | a chiplet has a positive share if and only if at least one unit was taken from it, and only if the layer has a positive requirement there |
| NearestNeighbour.RunDrains | src/mapping/model_mapper.py:424-451 | every usable chiplet before a used one in the order is empty, and every usable one met is empty while weights are left |
| NearestNeighbour.RunPays | src/mapping/model_mapper.py:424-451 | the units taken hold all weights off the counter except at most one per chiplet used, whenever the full charge covers the layer |
| NearestNeighbour.RunExhausts | src/mapping/model_mapper.py:424-454 | while weights are left, every chiplet met has given its whole capacity |
| LayerMapping.SortByKey | src/mapping/model_mapper.py:411-421 | the result lists the same chiplets, nearer first, then more free memory, then better metric, then lower number |
| LayerMapping.Candidates | src/mapping/model_mapper.py:399-409 | exactly the chiplets with free units that are neither I/O nor disallowed, in order |
| LayerMapping.ChooseStart | src/mapping/model_mapper.py:350-385 | the preferred chiplet if available, else the one with most free memory; later layers start on the first chiplet with the largest share of the previous layer; failure exactly when there is none |
| LayerMapping.RefusalIsHonest | src/mapping/model_mapper.py:453-454 | a layer is refused for memory only if all eligible chiplets together can take less than its weights minus ten |
| LayerMapping.MapLayer | src/mapping/model_mapper.py:312-460 | on success the split is the allocation along the eligible chiplets in order of preference: shares of at most 100 percent, at most ten weights plus one per chiplet unassigned, charged exactly where mapped, never I/O or disallowed, every eligible usable chiplet that precedes a used one drained, the units charged hold the weights of convolution and fully connected layers up to that bound, and nowhere exactly for a homeless layer; each refusal with its cause |
| LayerMapping.OneMapping | src/mapping/model_mapper.py:312-460 | free units, preference and previous layer determine the split: start, order and allocation are unique |
| LayerMapping.NowhereIsHomeless | src/mapping/model_mapper.py:424-451 | all shares are zero if and only if the layer has no weights or every eligible chiplet has no positive requirement for it |
| LayerMapping.NowhereIsTiny | src/mapping/model_mapper.py:453-460 | a layer mapped with all shares zero has at most ten weights and takes no unit |
| Capacity.Chiplet.SetAvailable | src/core/chiplet.py:122-137 | stores the value clamped to the chiplet's range and always succeeds |
| Capacity.Chiplet.SetAvailableCrossbars | src/core/chiplet.py:85-107 | succeeds exactly on values in range and changes nothing otherwise |
| Capacity.System.GetAvailable | src/core/system.py:223-235 | the free units of every chiplet, all in range |
| Capacity.System.Update | src/core/system.py:239-257 | values in range are stored unchanged: the clamps alter nothing |
| Capacity.MapLayers | src/mapping/model_mapper.py:68-103 | maps layer after layer on a private copy; the history of its splits keeps every promise of MapLayer layer by layer; a plan maps every layer soundly and never raises a chiplet's free units; a failure has its cause; the next layer lacks a previous chiplet if and only if the layer before it was homeless, and never if every layer but the last has more than ten weights |
| Capacity.NowhereAt | src/mapping/model_mapper.py:68-103 | a layer of a model is mapped nowhere if and only if it is homeless when it is met; it then has at most ten weights and is the last one mapped |
| Capacity.HeavyModelsHavePrevious | src/mapping/model_mapper.py:385-388 | if every layer but the last has more than ten weights, no mapping stops for want of a previous chiplet |
| Capacity.UnusableLayersBlock | src/mapping/model_mapper.py:385-388 | no mapping gets past a layer that no chiplet of the system can use, whatever is free |
| Capacity.TinyConv1dBlocks | src/mapping/model_mapper.py:385-388 | a 2 by 2 one-dimensional convolution before another layer always ends without a previous chiplet |
| Capacity.FullChipletBlocks | src/mapping/model_mapper.py:385-388 | so does a hostable 2 by 2 layer that finds the only chiplet full, before a third layer |
| Capacity.ModelIsPaidFor | src/mapping/model_mapper.py:68-103 | the units taken for a model hold the weights of all its convolution and fully connected layers, up to ten weights and one per chiplet used for each layer |
| Capacity.OneEnd | src/mapping/model_mapper.py:44-120 | the outcome of mapping a model on given free units, with its shares or its failure reason, is determined |
| Capacity.ModelMapper.GenerateMapping | src/mapping/model_mapper.py:44-120 | failure leaves the system as it was and has its cause, with a missing previous chiplet if and only if a homeless layer came before; success lowers each chiplet by exactly the reported use, which is non-negative, and a compute chiplet is charged if and only if some layer has a share of it |
| Injection.Fleet.TryInject | src/sim/global_manager.py:519-590 | capacity is conserved by every attempt and failed attempts change nothing; with the free units of the moment, the model is postponed exactly when it is not too large for the system but the quick check or the mapper turns it down for want of memory, and fatal exactly when it is too large or the mapper fails for another reason |
| Injection.OutcomeIsDetermined | src/sim/global_manager.py:578-588 | the mapper fails on a job for a reason exactly when some history of that job does |
| Placement.QuickCheckNeverPasses | src/core/system.py:301-317 | a model that the quick check turns down on an idle system is postponed whatever units are free |
| Placement.HeavyModelsNeverBreak | src/mapping/model_mapper.py:385-393 | on a connected system, a model that is not too large and has more than ten weights in every layer but the last never ends the program |
| Placement.HalfFullModelIsNeverTaken | src/sim/global_manager.py:515-588 | two 64 by 64 layers on one 128 by 128 crossbar pass both capacity checks and are postponed whatever is free |
| Placement.OnlyBusySystemTakes | src/mapping/model_mapper.py:312-452 | with more units free the mapper may do worse: one model that the idle system postpones is taken when a single crossbar is in use |
| Injection.BalancesAfterRetire | src/sim/global_manager.py:757-764 | giving back a model's units keeps free plus held units equal to the total and within range, so the clamp never applies |
| Injection.Fleet.Retire | src/sim/global_manager.py:739-764 | finished models leave in one pass, the others stay in order, capacity is conserved |
| Injection.Fleet.FullCapacityReturns | src/sim/global_manager.py:757-764 | once every model has retired, every chiplet has its full capacity |
| Injection.RoundIsFair | src/sim/global_manager.py:503-596 | over a round, no model's count of rounds in which a later model was injected past it exceeds max(threshold - 1, 0), nor its failure age while it waits |
| Injection.Injector.TryInOrder | src/sim/global_manager.py:503-596 | models are tried in order; the loop stops early only at a fatal attempt or at a failed model that has reached the threshold; on an idle system nothing is injected, without a fatal attempt, exactly when every model it would take stands behind a postponed one whose age reaches the threshold; no unplaceable model is injected |
| Injection.Injector.InjectRound | src/sim/global_manager.py:486-596 | one time step of injection: exactly the due, uninjected models are offered in order, the log tells which of those tried are injected, a failed model ages by exactly one and an untried one not at all, an early stop means a fatal attempt or a blocking model, and the overtaking counts stay bounded |
| Injection.Injector.InjectForProgress | src/sim/global_manager.py:486-596 | on an idle system with a jammed backlog a round injects nothing and the backlog stays jammed; once every model is due, a round injects nothing only if it was jammed; a fatal attempt names its model |
| Injection.Injector.Simulate | src/sim/global_manager.py:480-771 | over a whole run, whatever models finish in each step, capacity is conserved and every model is overtaken in at most max(threshold - 1, 0) rounds |
| Simulation.TiedAfterRetire | src/sim/global_manager.py:739-764 | when the models that left the engine give back their units, engine and capacity accounts again name the same running models |
| Simulation.IterationDescends | src/sim/global_manager.py:480-771 | an iteration of an unfinished loop that injects something, or is not idle with everything due, lowers the lexicographic measure of models to inject, remaining work, active models, ticks to a deadline and ticks to the last injection time |
| Simulation.Simulator.Iterate | src/sim/global_manager.py:480-771 | inject, tick and retire, on the injector and manager objects, keep engine and capacity accounts consistent; the measure falls unless the loop is stuck with everything due; a stuck loop stays stuck with the same models injected; unplaceable models stay missing |
| Simulation.Simulator.Proceed | src/sim/global_manager.py:480-771 | an idle iteration with everything due injects nothing, without a fatal attempt, exactly when the loop is stuck |
| Simulation.Simulator.Decide | src/sim/global_manager.py:480-780 | every run comes, after finitely many iterations, to a fatal attempt of a model that can be fatal, to the finished state, or to a stuck state; without missing models that an idle system postpones it is never stuck, with an unplaceable one it never finishes, and if these are the only two kinds it finishes exactly in the first case |
| Simulation.Simulator.Run | src/sim/global_manager.py:480-780 | if an idle system postpones no missing model, the main loop ends: by a fatal attempt of a model that can be fatal, or with every model injected and retired, every instance of every mapped model complete and every chiplet at full capacity |
| Simulation.Simulator.NeverOver | src/sim/global_manager.py:480-771 | a missing model that is postponed whatever units are free is still missing after any number of iterations, and the loop is not over |
| Simulation.Simulator.WaitForever | src/sim/global_manager.py:480-771 | a stuck loop is still stuck, with nothing more injected, after any number of iterations |
| Workloads.WorkloadManager.constructor | src/managers/workload_manager.py:17-62 | the workload is a time-sorted permutation of the rows, rows of equal time keep their order, and nothing is ready or injected |
| Workloads.WorkloadManager.UpdateReady | src/managers/workload_manager.py:100-124 | the list only gains models at its end, with age zero, and is the workload filtered to what is due by the latest time asked and not injected |
| Workloads.WorkloadManager.GetModelsToInject | src/managers/workload_manager.py:126-157 | returns that filtered workload in workload order; sorting never moves a model and ages are kept |
| Workloads.WorkloadManager.IncrementFailureAge | src/managers/workload_manager.py:72-83 | one failure more for that model alone |
| Workloads.WorkloadManager.IsModelBlocking | src/managers/workload_manager.py:85-98 | true exactly when the model waits and its age has reached the threshold |
| Workloads.WorkloadManager.MarkModelInjected | src/managers/workload_manager.py:159-169 | the model counts as injected and leaves the list, all others keep place and age |
| Workloads.WorkloadManager.GetRemainingCount | src/managers/workload_manager.py:171-177 | the number of workload entries not injected |
| Workloads.CountUninjected | src/managers/workload_manager.py:171-177 | workload size minus injected models counts the entries not injected |
| Workloads.PendingIsOrdered | src/managers/workload_manager.py:145-149 | the filtered workload is sorted by time and free of repeated models |
| Partition.HandleTooFew | src/mapping/layer_partitioner.py:128-148 | the first smallest chunk gets all missing channels, and the sum becomes exact |
| Partition.HandleTooMany | src/mapping/layer_partitioner.py:150-180 | no chunk grows or drops below one, the first largest alone pays if it can and else keeps one channel while larger chunks pay before smaller ones, and the sum becomes max(original, chunks) |
| Partition.Distribute | src/mapping/layer_partitioner.py:182-205 | the rest of the excess comes from the other chunks, down to one channel each and larger chunks first |
| Partition.AdjustForRoundingErrors | src/mapping/layer_partitioner.py:96-126 | every chunk has at least one channel and the chunks sum to max(original, chunks); chunks that add up are not touched, missing channels go to the first smallest chunk, excess ones come from the largest down |
| Partition.PartitionLayer | src/mapping/layer_partitioner.py:40-94 | the same for any shares, starting from rounded shares of at least one channel |
| ThermalGeometry.LateralLaws | integrations/thermal_model/node_class.py:94-119 | lateral conductance is symmetric and non-negative, also at corners and for nodes that do not touch |
| ThermalGeometry.VerticalIsNonNegative | integrations/thermal_model/package_class.py:175-190 | vertical conductance is non-negative |
| ThermalGeometry.NodeConstantsArePhysical | integrations/thermal_model/node_class.py:48-78 | a node with positive size and material has positive heat capacity and non-negative convection |
| ThermalAssembly.PackageIsPhysical | integrations/thermal_model/package_class.py:64-173 | every package of positive geometry and materials is a symmetric, non-negative network with positive capacities |
| ThermalAssembly.ConnectLayers | integrations/thermal_model/package_class.py:175-190 | the double loop fills the conductance of every pair of overlapping nodes |
| ThermalAssembly.ConnectNodes | integrations/thermal_model/layer_class.py:293-357 | the double loop fills the lateral conductance of every pair of nodes of a layer |
| ThermalAssembly.FillRow | integrations/thermal_model/package_class.py:97-140 | one node's row holds its conductances to its own layer, the layers below and above, and ambient, and no other row changes |
| ThermalAssembly.Assemble | integrations/thermal_model/package_class.py:64-155 | for a package of at least two layers, slice copying and row sums over all layers give exactly the matrix of row sums minus conductances |
| ThermalNetwork.MatrixIsLaplacian | integrations/thermal_model/package_class.py:141-155 | the assembled matrix is symmetric, non-positive off the diagonal, with row and column sums equal to the convective terms |
| ThermalNetwork.FlowIsConvectionAndConduction | integrations/thermal_model/package_class.py:141-155 | the matrix applied to temperatures is convection plus conduction along differences |
| ThermalNetwork.MaximumPrinciple | integrations/thermal_model/package_class.py:446-458 | if no row of the step system is negative, no temperature is |
| ThermalNetwork.StepIsMonotone | integrations/thermal_model/package_class.py:446-458 | a warmer start and more power give a state that is nowhere colder |
| ThermalNetwork.FlowSumsToConvection | integrations/thermal_model/package_class.py:446-458 | summed over all nodes, only convection remains |
| ThermalNetwork.HeatBalance | integrations/thermal_model/package_class.py:446-458 | stored heat changes by exactly dt times power in minus heat convected away |
| Transient.RunTransient | integrations/thermal_model/package_class.py:430-460 | refused exactly when step and power interval differ beyond the tolerance; otherwise the rows start at zero and each solves its backward-Euler step |
| Transient.MorePowerIsHotter | integrations/thermal_model/package_class.py:430-460 | pointwise larger power sequences give pointwise larger temperatures at every step |
| Transient.TransientIsUnique | integrations/thermal_model/package_class.py:430-460 | a power sequence has at most one transient |
| Elimination.ReducedIsDominant | integrations/thermal_model/package_class.py:446-450 | eliminating an unknown keeps a matrix non-positive off the diagonal with positive row sums |
| Elimination.SolutionSolves | integrations/thermal_model/package_class.py:446-450 | elimination solves every system with such a matrix, whatever the right-hand side |
| Elimination.StepMatrixIsDominant | integrations/thermal_model/package_class.py:446-450 | the step matrix of every physical network and positive time step is such a matrix |
| Transient.EveryStepIsSolvable | integrations/thermal_model/package_class.py:446-458 | so the factorized step matrix exists and solves every step |
| Transient.OneTransient | integrations/thermal_model/package_class.py:430-460 | every power sequence has exactly one transient |
| Transient.NeverBelowAmbient | integrations/thermal_model/package_class.py:430-460 | non-negative power keeps every temperature rise non-negative at every step |
| Transient.TransientHeatBalance | integrations/thermal_model/package_class.py:430-460 | over a whole transient the stored heat is dt times all power minus all heat convected |
| Transient.RunChunked | integrations/thermal_model/package_class.py:462-499 | refused exactly when step and power interval differ beyond the tolerance; otherwise, for any chunk size and at least one step, restarting, shifting and stitching gives the rows of one unchunked run, which is the transient when the solver takes backward-Euler steps |
| PackedRows.Pack | integrations/thermal_model/package_class.py:165-173 | packing keeps each row's non-zeros in order with zero padding at the last column to the widest row; it fails exactly on an empty matrix or an all-zero row |
| PackedRows.PaddedProductIsDense | integrations/thermal_model/package_class.py:165-173 | the padded product of a packed row equals the dense product for every vector |
| PackedRows.Rebuild | integrations/thermal_model/package_class.py:413-423 | rebuilding a packed matrix gives back the dense one |
| PackedRows.RowIsZeroIffIsolated | integrations/thermal_model/package_class.py:165-173 | a row of the assembled matrix is all zero exactly when its node has no conductance and no convection |
| ThermalPackage.BuildMatrix | integrations/thermal_model/package_class.py:64-173 | the assembled and packed matrix is that of the package, and packing fails exactly without nodes or with an isolated node |
| ThermalPackage.RebuiltSolvesSteps | integrations/thermal_model/package_class.py:413-450 | factorizing the matrix rebuilt from the packed one solves the steps of the package |
| ThermalPackage.SimulatePackage | integrations/thermal_model/package_class.py:64-460 | from layers and power to temperatures: fails exactly on isolated nodes, invalid inputs or differing intervals; otherwise the result is the only transient of the package, never below ambient without cooling, with exact heat balance at every step |
| PowerMap.NonUniformTiles | integrations/thermal_model/layer_class.py:43-54 | cells around any sorted node positions run from start to end without gap or overlap |
| PowerMap.UniformTiles | integrations/thermal_model/layer_class.py:70-96 | equal cells tile their interval |
| PowerMap.SpannedIsCovered | integrations/thermal_model/common.py:25-32 | the overlaps of the cells with a block inside contiguous cells add up to exactly the block's length |
| PowerMap.RepeatedHolds | integrations/thermal_model/layer_class.py:128-221 | in a row of identical chiplets with gaps, a block inside one chiplet lies within that chiplet's cells |
| PowerMap.BlockOnChipletIsTaken | integrations/thermal_model/layer_class.py:223-272 | on chiplets that do not overlap, a block inside its own chiplet is taken by the nodes whole and once |
| PowerMap.BlockOnIdenticalChipletsIsTaken | integrations/thermal_model/layer_class.py:128-221 | so is a block inside one of identical chiplets in rows and columns with gaps |
| PowerMap.NonUniformDivides | integrations/thermal_model/layer_class.py:131-172 | listed node positions divide every identical chiplet without gap or overlap |
| PowerMap.UniformDivides | integrations/thermal_model/layer_class.py:174-221 | so do equal cells |
| PowerMap.BlockInPackageIsTaken | integrations/thermal_model/layer_class.py:70-127 | on a grid without gaps, a block inside it is taken whole and once |
| PowerMap.GetPower | integrations/thermal_model/layer_class.py:359-432 | every node gets the sum over blocks of maximum power times overlap share times fraction; it fails exactly at the first source node whose area is not covered to the tolerance |
| PowerMap.PowerIsConserved | integrations/thermal_model/layer_class.py:359-432 | if the nodes take every block whole, they together carry exactly the power of the blocks at every step |
| PowerMap.OnlyWholeBlocksArrive | integrations/thermal_model/layer_class.py:359-432 | a block with power arrives with exactly its power if and only if the nodes take it whole |
| PowerTraces.RowKeyIsInjective | src/post/thermal_adapter.py:93-100 | rows of different chiplets never share a key |
| PowerTraces.PercentRestores | src/post/thermal_adapter.py:127-139 | a percentage of the maximum, multiplied back, is the watt value, also for an all-zero trace |
| PowerTraces.ConvertWatts | src/post/thermal_adapter.py:103-154 | succeeds exactly on non-empty, non-negative traces of equal length; every row restores its trace, peaks at 100 percent unless idle, and the idle chiplets are listed |
| PowerTraces.ValidateRows | integrations/thermal_model/power_class.py:163-232 | for a transient run, rows are accepted exactly when there are some, names are non-empty and differ, lengths are equal and as asked, and the names are those of the blocks |
| PowerTraces.ConvertedIsSequenced | integrations/thermal_model/power_class.py:163-232 | what the adapter writes is accepted exactly when there is a trace and it has the length asked for |
| PowerTraces.CreatePowerSeq | integrations/thermal_model/power_class.py:18-40 | fractions of the first row with the block's name, or missing exactly when there is none |
| PowerTraces.DeliverPower | src/post/thermal_adapter.py:332-354 | from traces through rows, their check, resolved maxima and blocks to any nodes: rejected exactly on unusable traces, refused exactly when there is no trace or the number of steps is not the one of the run, delivered exactly when beyond that all source nodes are covered, and then, if the nodes take every block whole, node powers at every step sum to the watts of the traces |
| PowerTraces.ChipletsTile | integrations/thermal_model/layer_class.py:223-272 | nodes of different chiplets take every block that lies on its chiplet whole |
| PowerTraces.IdenticalChipletsTile | integrations/thermal_model/layer_class.py:128-221 | so do nodes of identical chiplets in rows and columns |

## Left out

- Fields that record a run but do not steer it: percent complete, latency history, energies, scaled traffic matrices kept for reports, co-active traffic records, layer metric synchronization, statistics and log output.
- The network simulators, compute back ends, traffic formulas and the result cache: a simulator call is a positive latency per requested instance, compute latencies and traffic matrices are inputs.
- MappedModels.MappedModel.CalculatePhaseTiming: does not model the returned flag that tells whether a value changed, because it steers nothing.
- MappedModels.MappedModel.UpdateComputeMetrics: takes the latency of each layer, the maximum over its chunk results, as an input.
- MappedModels.MappedModel.Prepare: takes compute latencies and traffic matrices as inputs instead of deriving them from chunk results and mappings.
- Floating point: all arithmetic is exact, so rounding of percent values to twelve digits and of temperatures is not modelled.
- The random mapper, custom mapper functions and the choice of the active preference metric: the metric of each chiplet is an input.
- LayerMapping.MapLayer: assumes crossbar sizes and bit widths of compute chiplets are positive, because the program divides by them.
- GlobalManagers.GlobalManager.Retire: the release of capacity in the same loop is part of Injection.Fleet.Retire and Simulation.
- GlobalManagers.GlobalManager.Tick: the injection pass of the same iteration is part of Injection and Simulation.
- GlobalManagers.GlobalManager.Drain: is the loop after the last injection; Simulation.Simulator.Run is the whole loop.
- Injection.Injector.Simulate: takes the models that finish in each step as an input; Simulation takes them from the engine.
- Simulation.Simulator.Run: compute latencies and traffic of each model are inputs; an empty workload, which ends the program at once, is a run of no iterations.
- Simulation.Simulator.Decide: between the two conditions, models that an idle system postpones and a busy one may take, the outcome depends on the run; it is decided but has no condition on the workload alone.
- PowerMap.GetPower: layers of identical chiplets are one grid whose nodes all count as sources; a missing power layer, which ends the program, is not modelled.
- PowerTraces.ValidateRows: values are numbers already, and names are compared as written, while the program first drops the blanks around them; the check of a steady-state run is not modelled.
- PowerTraces.ConvertWatts: takes the traces in the order of their chiplet ids instead of sorting them.
- ThermalAssembly.Assemble: needs two layers, because the program's first layer always reads the one above it; does not model tuned capacitances or per-node material lookup; node materials are inputs.
- Transient.RunTransient: the sparse factorization is any function that returns a solution of the step system, and elimination is one; the native solver, the matrix exponential and the steady-state mode are not modelled.
- Partition.PartitionLayer: models channel counts; names, percentages and multiply-accumulate counts that are copied into each chunk are not modelled.
- Files, configuration, plotting, heat maps and command line.
