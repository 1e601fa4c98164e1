# Verified models of the fovea application core

This project models the parts of the app that decide something without Electron, serial or
camera code, and proves what each of them promises. Objects whose methods change fields are
classes; every method is proved against a function of its old state, and the promises are
lemmas about that function over every run.

- **Motion predictor** (`LinearAlgebra`, `Simplex`, `ImmFilter`, `Mixing`, `KalmanUpdate`,
  `ImmAxis`, `ImmMotion`, `ImmPredictor`, `TrackerRuns`): the three-model interacting Kalman filter
  over `real`. Model probabilities stay probability vectors and every covariance stays symmetric
  and positive semi-definite in every run; mixing conserves mean and covariance of the mixture; the
  gain is optimal. A filter on a trajectory its models follow stays on it through every prediction,
  the joint gate steps exactly what lies within its ellipse, and a tracked target is answered with
  where it will be after the delay.
- **Instance lifecycle and hardware gate** (`Instances`, `HardwareGate`, `InstanceProtocol`,
  `InstanceWindows`, `InstanceBooks`): the registry, the gate inside each process, and a world in
  which processes die and messages arrive at any time. At most one process holds the cameras and
  mirrors, no waiter is stranded, a window close ends an instance exactly when it was its last
  window, and the log of what was done to every instance balances in every run.
- **Store migrations** (`CalibrationRecords`, `Migrations`, `MigrationRuns`, `MigrationFacts`,
  `MigrationLayout`, `MigrationRunner`): the file operations of a migration run, cut anywhere. A
  rerun converges, a second run writes nothing, at every prefix the store knows exactly what it
  knew before, and at the end every record is filed by kind under the hash of its payload.
- **Config store** (`StorePatch`, `StoreAuthority`, `StoreWords`, `StoreClients`, `StoreJoined`,
  `StoreMain`): diffs and patches, the serialising authority, windows that edit concurrently over
  FIFO links, and who hears which change. Every key holds what the last call that spoke of it gave
  it, and the authority fed with the windows' patches ends with the document the windows share.
- **Controllers** (`Pid`, `MirrorDac`): the derivative filter's bound under any step cadence, and
  the exact condition under which a predicted DAC voltage is its own fixed point.
- **Stateful structures** (`MirrorHistory`, `LogRing`, `LogEviction`, `Metering`,
  `CoalescedWriter`, `InsertionMap`, `Options`, `PipeLedger`, `PipeCompose`, `BurstGrab`): a
  time-indexed ring with binary search, a doubly capped log tail, a rotating maximum, a write
  coalescer, a refcount broker with on-demand nodes, and a lossy-ring consumer.

## Where the code does not do what one would expect

- PID: the derivative bound does not hold under every cadence. For any range of sources and any
  further positive steps it holds exactly when, once the filter has moved, no step with a source
  stands still or goes back in time (`Pid.BoundedIffSettles`); such a step re-bases the slope
  without decaying it, and repeated with short steps it drives the derivative past any limit
  (`Pid.StepsInPlaceUnbounded`).
- DAC: predicting from a prediction is stable exactly when the bias code is 32768 or the command
  falls short of either rail up to the last code (`MirrorDac.IdempotentIff`); a saturated axis
  drifts (`MirrorDac.SaturatedDrifts`). The shipped bias and swing never saturate.
- Migrations: two different triple documents whose names truncate to the same id do not both
  survive an upgrade (`MigrationFacts.ConflictLosesATriple`), so agreement of such documents is
  needed as well as sufficient.
- Migrations: a store already at version 1 keeps any extrinsic dataset it still has under a camera
  key, since the step that wraps datasets runs from version 0 only (`MigrationLayout.DatasetsLeft`).
- Log tail: committing an overlong unterminated text early makes what is committed depend on how
  the text was cut. All cuttings of a text agree exactly when every terminated stretch is within
  the byte cap and the unterminated one is without its last character
  (`LogRing.ChunkingInvisibleIff`). What a ring shows agrees for all cuttings exactly when, in
  addition to the mild end, what follows each overlong line fills the ring without it
  (`LogEviction.RingInvisibleIff`). The byte cap does not bound a single line.
- Interval meter: with a clock that goes back, an event counts in the latest second the ring was
  shown. An interval counts exactly while its event is recent if and only if the event came in the
  clock's own second, or the clock is already past covering it (`Metering.RecentIff`).
- Composed nodes: a materializer may return a kind that has no materializer itself. Such a node is
  never torn down, and it leaks exactly when it is later decomposed to zero or its window closes
  (`PipeCompose.LeaksIff`).
- Config store: the difference and the reconciliation test membership with `in`, which also sees
  the names every object inherits. Removing a key with such a name is never sent, and a stale one
  survives a push. Round trip and reconciliation hold exactly when no such name is left over
  (`StorePatch.DiffRoundTrip`, `StorePatch.ReplacedIff`). A sole editor's document and the
  authority's agree exactly when the editor still has every inherited name that was in the
  document at the start or that it ever sent (`StoreClients.SoleEditorConverges`).
- Config store: the comment at `app/electron/store-main.ts:65-67` says the origin window
  reconciles against the patch reply; `app/lib/store.ts:79-91` discards the reply. The code is
  modelled, so a window that edits concurrently with others is not claimed to converge.

## Model

| member | source | states |
|---|---|---|
| LinearAlgebra.CauchySchwarz | app/lib/imm-predictor.ts:328-349 | for a positive semi-definite covariance the squared correlation of the position with any direction is at most the product of their variances: what keeps the rank-one update positive |
| LinearAlgebra.SandwichPSD | app/lib/imm-predictor.ts:64-86 | F * P * transpose(F) is symmetric and positive semi-definite whenever P is |
| Simplex.Normalize | app/lib/imm-predictor.ts:351-362 | dividing non-negative numbers with a positive sum by the sum gives a probability vector |
| Simplex.FlowConserves | app/lib/imm-predictor.ts:262-275 | a stochastic matrix moves probability between models without creating or losing any |
| Simplex.FlowPositive | app/lib/imm-predictor.ts:262-280 | no model ends a prediction with probability zero |
| ImmFilter.TransitionStochastic | app/lib/imm-predictor.ts:183-187 | for any non-empty list of models the renormalised transition rows are probability vectors with no zero entry |
| ImmFilter.CbarProbability | app/lib/imm-predictor.ts:262-275 | the predicted model probabilities are a probability vector without a zero |
| ImmFilter.WeightsProbability | app/lib/imm-predictor.ts:271-282 | the mixing weights into every model sum to one and the fallback for an unreachable model is never taken |
| ImmFilter.MixPSD | app/lib/imm-predictor.ts:283-299 | mixing (a convex sum plus outer products) keeps covariances positive semi-definite |
| ImmFilter.ProcessNoisePSD | app/lib/imm-predictor.ts:122-179 | all three process-noise matrices are positive semi-definite for every dt >= 0, by completing squares |
| ImmFilter.PredictPSD | app/lib/imm-predictor.ts:300-311 | F P transpose(F) + Q is positive semi-definite for every model and dt >= 0 |
| Mixing.MixingConservesMean | app/lib/imm-predictor.ts:262-299 | the interaction step leaves the combined state estimate exactly where it was |
| Mixing.MixingConservesSpread | app/lib/imm-predictor.ts:262-299 | about any point and in any direction the mixture has the same spread after the interaction as before |
| KalmanUpdate.UpdatePSD | app/lib/imm-predictor.ts:328-349 | a measurement update keeps a covariance positive semi-definite |
| KalmanUpdate.UpdateShrinks | app/lib/imm-predictor.ts:328-349 | no direction of the state becomes less certain by a measurement |
| KalmanUpdate.UpdatePosition | app/lib/imm-predictor.ts:328-349 | the updated position lies between prediction and measurement, with variance P00*R/(P00+R), below both R and P00 |
| KalmanUpdate.GainOptimal | app/lib/imm-predictor.ts:333-345 | no linear gain leaves less uncertainty in any direction, and one that leaves as little agrees with the filter's gain there |
| KalmanUpdate.UpdateIsLeastSquares | app/lib/imm-predictor.ts:328-349 | the updated state is, in all three coordinates, the least-squares compromise between prediction and measurement |
| ImmAxis.PredictedGood | app/lib/imm-predictor.ts:262-311 | mixing and predicting keep all covariances positive semi-definite and both vectors probabilities |
| ImmAxis.UpdatedGood | app/lib/imm-predictor.ts:328-363 | an update keeps every invariant, for any non-negative likelihood, underflow to zero included |
| ImmAxis.InnovationVariance | app/lib/imm-predictor.ts:315-324 | the combined innovation variance is at least the measurement noise, so the gate never divides by zero |
| ImmAxis.RunGood | app/lib/imm-predictor.ts:202-393 | in every state reachable by resets, misses and measurements with dt >= 0 every covariance is symmetric positive semi-definite and mu and cbar are probability vectors |
| ImmAxis.RunFound | app/lib/imm-predictor.ts:328-349 | in any run a measurement leaves each model's position between its prediction and z, with variance P00*R/(P00+R) < R |
| ImmAxis.PredictionMixConserves | app/lib/imm-predictor.ts:262-299 | the mix inside a prediction conserves the combined mean and spread of every filter that meets the invariants, which every reachable one does |
| ImmAxis.AxisImm.Reset | app/lib/imm-predictor.ts:229-238 | every model restarts at the measurement with the initial covariance and probabilities |
| ImmAxis.AxisImm.CombinedState | app/lib/imm-predictor.ts:241-246 | the probability-weighted mean of the model states |
| ImmAxis.AxisImm.MixProbabilities | app/lib/imm-predictor.ts:265-275 | the loop computes transpose(transition) * mu |
| ImmAxis.AxisImm.MixOne | app/lib/imm-predictor.ts:276-299 | the loop over source models computes the mixed mean and the mixed covariance with its outer products |
| ImmAxis.AxisImm.Mix | app/lib/imm-predictor.ts:276-299 | every model gets its own mixed start |
| ImmAxis.AxisImm.Predict | app/lib/imm-predictor.ts:262-311 | the in-place prediction is mixing followed by every model's own dynamics, and keeps the invariants |
| ImmAxis.AxisImm.PredictedMeasurement | app/lib/imm-predictor.ts:315-324 | combined predicted position and innovation variance, at least R |
| ImmAxis.AxisImm.MixtureSpread | app/lib/imm-predictor.ts:315-324 | the loop computes the within- plus between-model variance of the predicted position |
| ImmAxis.AxisImm.Update | app/lib/imm-predictor.ts:328-363 | the in-place update is the per-model Kalman update with Bayes reweighting, and keeps the invariants |
| ImmAxis.AxisImm.Reweigh | app/lib/imm-predictor.ts:351-362 | model probabilities become cbar times likelihood renormalised, or cbar when all underflow |
| ImmAxis.AxisImm.Step | app/lib/imm-predictor.ts:379-385 | predict, report z and S before the measurement is used, then update or miss; invariants kept |
| ImmAxis.BayesOdds | app/lib/imm-predictor.ts:347-362 | a measurement reweighs the models by Bayes' rule: the odds between any two become those of what each gave the measurement, and when none gave it anything the probabilities stay as predicted |
| ImmAxis.MissedGood | app/lib/imm-predictor.ts:365-372 | a miss rolls the model probabilities forward to the predicted ones and changes nothing else |
| ImmMotion.ModelMoves | app/lib/imm-predictor.ts:122-176 | each model carries a state along the motion it takes it for: standing still, steady velocity, steady acceleration |
| ImmMotion.PredictsBelief | app/lib/imm-predictor.ts:262-311 | a prediction moves every model's mixed state along the motion that model takes it for |
| ImmMotion.PredictsMotion | app/lib/imm-predictor.ts:262-311 | if every model state is the state at t of one trajectory all chosen models follow, every predicted state is that trajectory's state at t + dt, for any model list and any dt |
| ImmMotion.CombinedOnMotion | app/lib/imm-predictor.ts:241-246 | the combined state of a filter on a trajectory is the trajectory's state |
| ImmMotion.PredictedMoments | app/lib/imm-predictor.ts:315-324 | the predicted measurement and its variance are mean and variance of the position over all models, about any point |
| ImmMotion.PredictTwice | app/lib/imm-predictor.ts:262-311 | with one model, predicting over s and then t is predicting over s + t: state, covariance and probabilities |
| ImmMotion.NoiseTwice | app/lib/imm-predictor.ts:122-176 | the process noise of a step is that of its first part carried on through the second, plus that of its second, in every direction |
| ImmMotion.NoiseRate | app/lib/imm-predictor.ts:122-176 | the driven coordinate of a model gains variance at the rate of its noise density, the ones it drives gain none to first order |
| ImmMotion.StartKnows | app/lib/imm-predictor.ts:190-239 | a filter just started knows the position as well as one measurement says it and next to nothing of velocity and acceleration |
| ImmMotion.DefaultTransition | app/lib/imm-predictor.ts:180-187 | with all three models the transition rows and start probabilities are the configured ones |
| ImmMotion.TransitionOdds | app/lib/imm-predictor.ts:450-460 | choosing fewer models keeps the transition odds between those that are left |
| ImmPredictor.ClockForward | app/lib/imm-predictor.ts:561-674 | one tracker result never moves a warm clock back, and an out-of-order result leaves both filters unchanged |
| ImmPredictor.DragForgets | app/lib/imm-predictor.ts:561-585 | after a drag the next measurement starts both filters exactly there, whatever came before |
| ImmPredictor.ClockNeverBack | app/lib/imm-predictor.ts:561-674 | over any run of results in which the filters stay warm their clock never goes back, and while it stands still both filters are untouched |
| ImmPredictor.DragErasesHistory | app/lib/imm-predictor.ts:561-585 | from a drag on, the state and every answer are the same whatever results came before it |
| ImmPredictor.ProcessMoves | app/lib/imm-predictor.ts:561-674 | an answer keeps the result's identity and flags, differs only for a found result with a center, and moves the box exactly as the center without resizing it |
| ImmPredictor.CoastZeroAgrees | app/lib/imm-predictor.ts:491-543 | a free run of length zero after an answer the predictor replaced repeats that answer |
| ImmPredictor.Tracker.MissStep | app/lib/imm-predictor.ts:561-674 | a result without measurement predicts both axes or goes cold after too long a gap |
| ImmPredictor.Tracker.ProcessResult | app/lib/imm-predictor.ts:561-674 | one tracker result in place: exactly the specified state and answer, with both filters' invariants kept |
| ImmPredictor.Tracker.FreeRun | app/lib/imm-predictor.ts:491-543 | the free-running prediction, reading only |
| TrackerRuns.GateIff | app/lib/imm-predictor.ts:618-674 | a measurement in time is a step of both filters, answered with their estimate, exactly when it lies within the gate's ellipse about where it was expected; outside it both filters start over at it and the result passes unchanged |
| TrackerRuns.ExpectedIsStep | app/lib/imm-predictor.ts:618-674 | a measurement exactly where both axes expect it never starts the filters over |
| TrackerRuns.NearerIsStep | app/lib/imm-predictor.ts:618-674 | whatever lies nearer on both axes than a measurement that is stepped is stepped too |
| TrackerRuns.FarIsStart | app/lib/imm-predictor.ts:618-674 | in every direction there is a distance from which on both filters are exactly the initial filters at the measurement |
| TrackerRuns.EstimateAverages | app/lib/imm-predictor.ts:401-403 | the estimate is the average, by the model probabilities, of where each model has the target after the delay |
| TrackerRuns.EstimateOnTarget | app/lib/imm-predictor.ts:401-403 | for filters on a trajectory the estimate over d is the trajectory's position d later |
| TrackerRuns.StepOnTarget | app/lib/imm-predictor.ts:618-674 | an exact measurement keeps a predictor on its target and is answered with where the target will be after the delay |
| TrackerRuns.MissIs | app/lib/imm-predictor.ts:570-589 | a result without a measurement moves both axes on by exactly the time since the clock, leaves them when no time has passed and makes the predictor cold after too long a gap |
| TrackerRuns.UntimedIs | app/lib/imm-predictor.ts:591-616 | a measurement that does not come in time starts both filters at itself, or is too late and leaves them |
| TrackerRuns.StaysOnTarget | app/lib/imm-predictor.ts:561-674 | a predictor on its target stays on it through any helpful result, lost and late ones included |
| TrackerRuns.TracksTarget | app/lib/imm-predictor.ts:561-674 | over any run of helpful results a predictor stays on its target and answers every measurement in time with where the target will be after the delay |
| TrackerRuns.StillTarget | app/lib/imm-predictor.ts:561-674 | from a cold start, a target that stands still is answered where it stands, however results are lost, late or out of order |
| TrackerRuns.WarmIsRun | app/lib/imm-predictor.ts:561-674 | however it came to be warm, a predictor's filters are runs of the axis filter from one measurement of the run on, over exactly the time from it to the clock |
| TrackerRuns.AxesAlike | app/lib/imm-predictor.ts:561-674 | flipping both axes of state and input flips state and output |
| TrackerRuns.CoastShape | app/lib/imm-predictor.ts:491-543 | when a free run shows a center, when it is marked as coasting, and which result it goes by |
| TrackerRuns.CoastsOnTarget | app/lib/imm-predictor.ts:491-543 | a free run of a predictor on its target shows where the target will be that much later, and never runs backwards |
| TrackerRuns.CoastMeetsResult | app/lib/imm-predictor.ts:491-543 | a free run that reaches the time of a coming result shows where the target will be the delay after that result |
| TrackerRuns.CoastAfter | app/lib/imm-predictor.ts:561-674 | free runs go by the last result; after a miss they show nothing until a measurement is taken |
| HardwareGate.HardwareGate.SignalClear | app/orchestrator/hardware-gate.ts:41-46 | a clear opens the gate; a second clear publishes nothing |
| HardwareGate.HardwareGate.Arrive | app/orchestrator/hardware-gate.ts:56-66 | an acquisition passes at once exactly when the gate is open, otherwise it waits and that is published |
| HardwareGate.HardwareGate.Resume | app/orchestrator/hardware-gate.ts:56-66 | a blocked acquisition goes on only through an open gate |
| Instances.OrchestratorInstances.TryGrantHardware | app/electron/orchestrator-instances.ts:372-383 | the loop clears, in order, exactly the waiting instances no other instance blocks |
| Instances.OrchestratorInstances.EmitAlive | app/electron/orchestrator-instances.ts:385-391 | hardware liveness is published on change only |
| Instances.OrchestratorInstances.OpenInstance | app/electron/orchestrator-instances.ts:206-234 | forks and records an instance; hardware goes through the grant |
| Instances.OrchestratorInstances.BeginTeardown | app/electron/orchestrator-instances.ts:303-316 | a live instance drains with a deadline; any other is left alone |
| Instances.OrchestratorInstances.TeardownAll | app/electron/orchestrator-instances.ts:319-322 | every instance drains |
| Instances.OrchestratorInstances.OnWindowClosed | app/electron/orchestrator-instances.ts:286-295 | the window is released everywhere and its owner torn down when it was the last one |
| Instances.OrchestratorInstances.OnDeadline | app/electron/orchestrator-instances.ts:303-316 | a draining instance whose deadline fires is killed |
| Instances.OrchestratorInstances.OnAck | app/electron/orchestrator-instances.ts:326-337 | an ack marks the quiesce and disarms the deadline |
| Instances.OrchestratorInstances.MarkGone | app/electron/orchestrator-instances.ts:342-358 | the first half of an exit: dead, reported, swept when there was no ack |
| Instances.OrchestratorInstances.OnExit | app/electron/orchestrator-instances.ts:342-367 | an exit is classified, swept when ack-less, and followed by a grant |
| Instances.OrchestratorInstances.OnJanitorFinished | app/electron/orchestrator-instances.ts:355-367 | a finished sweep releases the instance and is followed by a grant |
| InstanceProtocol.GrantableAlone | app/electron/orchestrator-instances.ts:372-383 | two instances are never grantable together |
| InstanceProtocol.GrantKeeps | app/electron/orchestrator-instances.ts:372-383 | after a grant nobody who still waits is unblocked, and all invariants stand |
| InstanceProtocol.GoneCounts | app/electron/orchestrator-exit.ts:33-54 | an exit starts a janitor exactly when no ack came first, for that instance alone |
| InstanceProtocol.RunInv | app/electron/orchestrator-instances.ts:133-396 | the protocol invariant holds in every state of every interleaving of opens, closes, teardowns, acks, deadlines, deaths, late exit notices, janitor completions and delayed clears |
| InstanceProtocol.OneHardwareHolder | app/electron/orchestrator-instances.ts:127-131 | at most one process ever holds the hardware |
| InstanceProtocol.OneOpenGate | app/orchestrator/hardware-gate.ts:31-66 | at most one live hardware process has an open gate, however late the clears arrive |
| InstanceProtocol.ClearedTwiceMeansReleased | app/electron/orchestrator-instances.ts:127-131 | of two cleared hardware instances one is dead and acked or swept |
| InstanceProtocol.ClearedOnceAndLive | app/electron/orchestrator-instances.ts:372-383 | every instance is cleared at most once in a run, and only while live |
| InstanceProtocol.NoLostGrant | app/electron/orchestrator-instances.ts:326-383 | a live hardware instance whose rivals are all dead with no janitor pending has been cleared, once |
| InstanceProtocol.OneJanitorPerDeath | app/electron/orchestrator-exit.ts:49-54 | over the whole run an instance is swept at most once, only when dead, and exactly once when it is dead without an ack |
| InstanceProtocol.ExitStartsJanitor | app/electron/orchestrator-instances.ts:342-367 | the exit notice of a live instance starts its janitor exactly when it never acked |
| InstanceWindows.LiveOwnsAWindow | app/electron/orchestrator-instances.ts:284-295 | in every reachable state a live instance that ever had a window still owns one |
| InstanceWindows.CloseTakesDown | app/electron/orchestrator-instances.ts:284-295 | in every reachable state a window that closes takes a live instance down exactly when it is the instance's last and no earlier instance owns the same window |
| InstanceWindows.CloseSparesOthers | app/electron/orchestrator-instances.ts:284-295 | closing a window takes nobody down that owns another window afterwards and nobody that did not own it |
| InstanceWindows.ObserverCloses | app/electron/orchestrator-instances.ts:251-295 | a window that is only attached drains nobody and sends nothing |
| InstanceWindows.ClosedRec | app/electron/orchestrator-instances.ts:284-316 | what a close does to every record: only the first owner loses the window and drains if it was its last; everybody loses it as an observer |
| InstanceWindows.WindowsAreTold | app/electron/orchestrator-instances.ts:236-295 | in every run an instance observes exactly the windows attached to it that have not closed since, and owns exactly those claimed for it alone that have not closed since |
| InstanceBooks.RunBooks | app/electron/orchestrator-instances.ts:206-367 | over every run the log has one fork per instance, one shutdown per instance asked to stop, no kill of any other, and one report per death, unclean exactly for the swept ones and with a true reason |
| InstanceBooks.AckedIff | app/electron/orchestrator-instances.ts:324-329 | an instance counts as acked exactly when an ack of it came at any time since its fork, before any shutdown included |
| InstanceBooks.ExitTells | app/electron/orchestrator-instances.ts:339-355 | an exit is reported with its code, as clean when an ack ever came, otherwise as killed when the instance was asked to stop, otherwise as a crash |
| InstanceBooks.AckReaps | app/electron/orchestrator-instances.ts:326-337 | an ack while draining disarms the deadline and kills the process once, there and then |
| InstanceBooks.DeadlineKills | app/electron/orchestrator-instances.ts:309-314 | the deadline of a draining instance kills it once, and a timer that was disarmed or has fired never |
| InstanceBooks.QuitStopsAll | app/electron/orchestrator-instances.ts:318-322 | a quit asks every live instance to stop, once, and changes the phase of no other |
| InstanceBooks.PublishedUpToDate | app/electron/orchestrator-instances.ts:385-396 | in every reachable state the last published hardware liveness and list of live instances are up to date |
| CalibrationRecords.AddAllBinds | app/lib/calibration-records.ts:313-335 | uniting associations adds exactly their bindings and leaves id and payload alone |
| CalibrationRecords.AddAllTwice | app/lib/calibration-records.ts:326-335 | uniting the same associations twice is uniting them once |
| CalibrationRecords.ReKeyBinds | app/lib/calibration-records.ts:626-629 | re-keying changes no binding and re-keying again changes nothing |
| CalibrationRecords.ReKeyCuts | app/lib/calibration-records.ts:626-629 | a legacy hash is cut to its first 32 digits and every other name stays |
| Migrations.DoneAfter | app/lib/store-migrations.ts:88-133 | after its operations each step of a migration finds nothing left to do |
| Migrations.StaysDone | app/lib/store-migrations.ts:232-308 | a step with nothing to do still has nothing to do after any part of a step at the same stage or later |
| Migrations.Redo | app/lib/store-migrations.ts:193-209 | a step cut after some of its operations and run again ends where it would have ended |
| MigrationRuns.AllTasksOrdered | app/lib/store-migrations.ts:232-318 | the steps of a whole run are distinct and come in stage order |
| MigrationRuns.CrashAndRerun | app/lib/store-migrations.ts:358-394 | a run cut after any file operation and started again ends in the store of an uninterrupted run |
| MigrationRuns.ManyCrashes | app/lib/store-migrations.ts:358-394 | so does a run cut any number of times |
| MigrationRuns.SecondRunWritesNothing | app/lib/store-migrations.ts:358-394 | a second full run performs no operation |
| MigrationRuns.LostVersionWrite | app/lib/store-migrations.ts:388 | when only the version write was lost, the next run performs that write and nothing else |
| MigrationFacts.MergeKnows | app/lib/store-migrations.ts:193-209 | placing a record leaves what the store knows as it was |
| MigrationFacts.TaskKnows | app/lib/store-migrations.ts:88-133 | no part of any step makes the store forget or invent a dataset, calibration, binding or triple configuration |
| MigrationFacts.TaskRegular | app/lib/store-migrations.ts:232-308 | every part of a step keeps the store one the migrations are meant for |
| MigrationFacts.RunKnows | app/lib/store-migrations.ts:232-308 | what the store knows is the same after any number of operations of any list of steps |
| MigrationFacts.NothingLost | app/lib/store-migrations.ts:358-394 | at every prefix of a run the store knows exactly what it knew at the start |
| MigrationFacts.RawUntouched | app/lib/store-migrations.ts:228 | raw artifacts are bit for bit as they were at every prefix of a run |
| MigrationFacts.ConflictLosesATriple | app/lib/store-migrations.ts:299-308 | two different triple documents re-keyed to one id do not both survive an upgrade |
| MigrationLayout.UpgradedLayout | app/lib/store-migrations.ts:88-318 | after an upgrade from version 0 or 1 every record is in the directory of its payload's kind under the hash of its payload, with that id and no legacy hash in its bindings; no record is flat, no calibration under its camera key, no triple under a legacy hash |
| MigrationLayout.EverythingFiled | app/lib/store-migrations.ts:88-318 | after an upgrade every payload the store knew is filed under its hash in the directory of its kind, but for old datasets in a version 1 store |
| MigrationLayout.DatasetsLeft | app/lib/store-migrations.ts:88-133 | after an upgrade no old dataset is left, except that a store already at version 1 keeps those it has as they are |
| MigrationLayout.RunStamps | app/lib/store-migrations.ts:88-284 | at every prefix of a run what any record says of its creation, label and sources is what the store said of that payload at the start |
| MigrationLayout.RunShortens | app/lib/store-migrations.ts:190-209 | at every prefix of a run a per-kind record has a legacy hash in a binding only where it had it at the start |
| MigrationLayout.RunKeepsTriples | app/lib/store-migrations.ts:299-308 | at every prefix of a run a triple document under a short name is as it was, whatever is moved there |
| MigrationRunner.ListedOnly | app/lib/store-migrations.ts:243-308 | a pass over the names listed at its start performs what a pass over all names would |
| MigrationRunner.MigrationFs.List | app/lib/store-migrations.ts:40-49 | a listing names exactly the documents of the directory whose names are in the fixed order, in that order |
| MigrationRunner.MigrationFs.Merge | app/lib/store-migrations.ts:193-209 | unites a record onto the one filed at its id, or files it |
| MigrationRunner.MigrationFs.WrapDatasetDoc | app/lib/store-migrations.ts:96-131 | one dataset document, with the skips for artifacts and empty data |
| MigrationRunner.MigrationFs.MoveFlatDoc | app/lib/store-migrations.ts:244-255 | one flat record into its per-kind directory |
| MigrationRunner.MigrationFs.WrapCalibrationDoc | app/lib/store-migrations.ts:258-284 | one solved calibration wrapped as a record, with its three skips |
| MigrationRunner.MigrationFs.ReKeyAssociationsDoc | app/lib/store-migrations.ts:287-297 | one record's hashes shortened, written only when changed |
| MigrationRunner.MigrationFs.ReKeyTripleDoc | app/lib/store-migrations.ts:300-308 | one triple document moved, never over an existing one |
| MigrationRunner.MigrationFs.MigrateExtrinsicToRecords | app/lib/store-migrations.ts:88-133 | the loop performs exactly the operations of the version 0 to 1 steps |
| MigrationRunner.MigrationFs.MoveFlatDocs | app/lib/store-migrations.ts:243-255 | the first pass |
| MigrationRunner.MigrationFs.WrapCalibrations | app/lib/store-migrations.ts:257-284 | the second pass |
| MigrationRunner.MigrationFs.ReKeyDirectory | app/lib/store-migrations.ts:286-297 | the third pass, per directory |
| MigrationRunner.MigrationFs.ReKeyTriples | app/lib/store-migrations.ts:299-308 | the fourth pass |
| MigrationRunner.MigrationFs.MigrateToPerKindRecords | app/lib/store-migrations.ts:232-318 | the passes in order perform exactly the version 1 to 2 steps |
| MigrationRunner.MigrationFs.RunMigrations | app/lib/store-migrations.ts:358-394 | terminates with the version rising to the target or an unknown version refused, having performed exactly the listed operations; a current store is not touched |
| StorePatch.DeepEqual | app/lib/store-patch.ts:32-58 | the recursive comparison is equality of JSON values |
| StorePatch.DiffKeys | app/lib/store-patch.ts:64-72 | a key difference says of every key that differs, once, its new value or removal, but for a removed key the new object still answers to by inheritance; other documents are replaced whole exactly when they differ |
| StorePatch.ApplyPatch | app/lib/store-patch.ts:77-89 | the loop applies the operations in order |
| StorePatch.PatchByKey | app/lib/store-patch.ts:77-89 | what a patch leaves at a key depends on that key alone |
| StorePatch.DisjointPatchesCommute | app/lib/store-patch.ts:77-89 | patches on disjoint keys commute on any document |
| StorePatch.DiffMerges | app/lib/store-patch.ts:64-89 | applied to any document a difference brings the reported keys to their new values and leaves every other key |
| StorePatch.DiffRoundTrip | app/lib/store-patch.ts:64-89 | applying a difference to the document it was taken against gives the new document exactly when no removed key is an inherited name |
| StorePatch.DiffEmpty | app/lib/store-patch.ts:64-72 | a difference is empty exactly when no key is to be reported, which with no inherited name removed is a no-op edit |
| StorePatch.ReplacedIff | app/lib/store-patch.ts:94-106 | reconciling an object gives the value itself exactly when no inherited name is left over |
| StorePatch.Tracked.ReplaceInPlace | app/lib/store-patch.ts:94-106 | the object ends with the keys and values of the value, and with the inherited names it had and the value lacks; nothing means no keys |
| StorePatch.LostNameUnseen | app/lib/store-patch.ts:64-72 | concrete failure of the round trip: an edit that removes the key toString is not sent |
| StoreAuthority.Serialized | app/lib/store-authority.ts:76-166 | concurrent calls on a document return what the fold of all earlier calls makes of each, in arrival order |
| StoreAuthority.QuiescentState | app/lib/store-authority.ts:76-166 | with nothing queued cache and disk are what the fold of all calls leaves |
| StoreAuthority.HeadFinishes | app/lib/store-authority.ts:80-87 | the head of the queue completes within as many ticks as its phase still needs, three at most |
| StoreAuthority.EachHearsOthers | app/lib/store-authority.ts:76-78 | a listener that joins at any time hears every write somebody else commits from then on exactly once and in order, and none of its own |
| StoreAuthority.HeardSince | app/lib/store-authority.ts:76-178 | whenever a listener joins and whatever is under way then, at every later moment it has received exactly what the calls completed since let it hear |
| StoreAuthority.RunRefines | app/lib/store-authority.ts:56-190 | in every run the step-by-step machine refines the one-at-a-time fold |
| StoreAuthority.Doc.Notify | app/lib/store-authority.ts:76-78 | every listener but the origin is told |
| StoreAuthority.Doc.Next | app/lib/store-authority.ts:89-166 | one step of the queue: load, compute, persist or complete |
| StoreWords.LastWord | app/lib/store-authority.ts:89-166 | after any calls a key holds what the last write, update, patch, clear or standing-in fallback that speaks of it gave it |
| StoreWords.NoWord | app/lib/store-authority.ts:89-166 | a key no call speaks of holds what it held on disk |
| StoreWords.EveryAnswer | app/lib/store-authority.ts:76-166 | in every run every completed call but a clear has returned a document in which every key holds what the last call so far that speaks of it gave it |
| StoreWords.FileIsLastCommit | app/lib/store-authority.ts:100-166 | in every run the file is what the last completed committing call returned, and as it was found when none did |
| StoreWords.UpdateKeeps | app/lib/store-authority.ts:127 | an update sets the keys of its patch and keeps everything else the document has of its own: fields, items of an array, characters of a text |
| StoreClients.PushCausesNoPatch | app/lib/store.ts:93-101 | right after a push was applied a flush has nothing to send |
| StoreClients.OnlyTouchedKeysSent | app/lib/store.ts:79-91 | a window never patches a key its user has not edited since the window last agreed with itself, so a stale push never causes a removal |
| StoreClients.OwnerWins | app/lib/store.ts:73-102 | a key edited by one window only ends at the authority with the last value that window's flushes sent for it, whatever the others do |
| StoreClients.SoleEditorConverges | app/lib/store.ts:73-102 | with one editor and nothing under way all windows show the authority's document; it is what the editor last flushed at every key but inherited names it removed, and equal to it exactly when the editor still has every inherited name that was in the document at the start or that it ever sent |
| StoreClients.StoreClient.Microtask | app/lib/store.ts:85-91 | the queued write sends the difference to the last acked document, if there is one, and acks it |
| StoreClients.StoreClient.ApplyIncoming | app/lib/store.ts:94-102 | an incoming document is brought into the tracked object, the result is acknowledged, and nothing is sent |
| StoreClients.EditLands | app/lib/store.ts:73-102 | an edit by a key's only editor, not edited again or overrun by a push before a flush that speaks of it, is the authority's value once that window's patches have arrived |
| StoreJoined.AuthoritiesAgree | app/lib/store-authority.ts:136-154 | a document machine called with the patches of any run of windows in arrival order, whatever else is interleaved, ends quiescent with exactly the document the windows share |
| StoreJoined.PushesAreHeard | app/lib/store-authority.ts:76-78 | everything pushed to a window, taken in or under way, is what the authority lets a listener hear that is told of every call but its own |
| StoreMain.StoreMain.RendererListener | app/electron/store-main.ts:92-108 | one stable listener per window and document, subscribed once |
| StoreMain.StoreMain.NotifyExcept | app/lib/store-authority.ts:76-78 | every listening window but the excepted one, if any, is told exactly once |
| StoreMain.StoreMain.BroadcastPatch | app/electron/store-main.ts:65-71 | a patch reaches every other window that opened the document once, and never its origin |
| StoreMain.StoreMain.BroadcastClear | app/electron/store-main.ts:73-115 | a clear reaches every other window that opened the document, whether or not the clearing window did, and opens it for nobody |
| StoreMain.StoreMain.DropRenderer | app/electron/store-main.ts:81-87 | a closed window's subscriptions all go, and nobody else's |
| Pid.Saturated | app/lib/pid.ts:195-219 | with proper ranges the integrator is inside its clamp and every output inside the limits in every run |
| Pid.AverageStaysIn | app/lib/pid.ts:195-215 | on every cadence that settles, source minus tau times the filtered slope is a running convex combination of the sources since the reset |
| Pid.DerivativeBounded | app/lib/pid.ts:195-215 | if no step with a source stands still or goes back once the filter has moved, the filtered derivative stays within the spread of the sources over the time constant, however small or uneven the steps |
| Pid.BoundedIffSettles | app/lib/pid.ts:195-215 | a cadence keeps the bound for all sources in a range and all further positive steps exactly when no step with a source and dt at most zero follows a step that moved the filter |
| Pid.StepsInPlaceUnbounded | app/lib/pid.ts:208-215 | alternating steps in place with short ones drives the derivative past any limit |
| Pid.MeasurementModeAgrees | app/lib/pid.ts:200-215 | with the setpoint held, measurement mode and error mode keep the same integrator and derivative |
| Pid.ClampNearest | app/lib/pid.ts:195-219 | a clamp into a proper range lands inside it, leaves a value already inside alone, and moves any other no further than to the nearest point |
| Pid.VelocityForm | app/lib/pid.ts:81-84 | with only the integral gain and one range for both clamps the integrator is the command |
| Pid.PID.SetLimits | app/lib/pid.ts:143-150 | both bounds move and the live integrator is pulled in |
| Pid.PID.SetParams | app/lib/pid.ts:162-170 | gains replaced; limits alone re-derive the integral clamp |
| Pid.PID.Step | app/lib/pid.ts:195-220 | one control step in place, its output inside the limits |
| Pid.IntegratorSums | app/lib/pid.ts:195-199 | while the clamp never bites the integrator is its start plus ki times the error over time |
| Pid.Textbook | app/lib/pid.ts:195-220 | without saturation and time constant the output is kp times the error, the integrator, and kd times the slope of the source since the last one |
| Pid.LastSource | app/lib/pid.ts:200-215 | the slope is taken from the last step that had a source |
| Pid.GainOffRests | app/lib/pid.ts:206-215 | with the derivative gain at zero the filter is at rest after any run |
| MirrorDac.CodeRoundTrip | app/lib/controller-codec.ts:22-28 | a code converted to volts and back is itself, so setting a read-back bias changes nothing |
| MirrorDac.CodeIsFloor | app/lib/controller-codec.ts:22-28 | between the rails the code is the greatest whose voltage does not exceed the command |
| MirrorDac.AxisCodes | app/lib/controller-codec.ts:30-33 | with the bias on a code the two codes of an axis differ by floor plus ceiling of the half command, each cut at its rail |
| MirrorDac.PredictionError | app/orchestrator/controller.ts:399-404 | away from the rails the prediction is less than 200/65535 V from the clamped command |
| MirrorDac.IdempotentIff | app/orchestrator/controller.ts:399-404 | re-basing an axis on its own prediction leaves it exactly when the bias code is 32768 or the command falls short of both rails up to the last code |
| MirrorDac.NeverDrifts | app/orchestrator/controller.ts:399-404 | away from the rails the prediction is its own fixed point |
| MirrorDac.SaturatedDrifts | app/orchestrator/controller.ts:399-404 | a saturated command whose prediction falls on re-basing |
| MirrorDac.ReactuationHolds | app/orchestrator/controller.ts:369-404 | both axes of a mirror hold on re-actuation exactly when both commands are stable |
| MirrorDac.DefaultsNeverSaturate | app/orchestrator/controller.ts:206-207 | with the shipped bias and swing no command reaches a rail and every prediction is a fixed point |
| MirrorDac.Controller.SetBias | app/orchestrator/controller.ts:363-367 | the kept bias is the acknowledged code in volts, within one code below the request |
| MirrorDac.Controller.Actuate | app/orchestrator/controller.ts:369-386 | on firmware that echoes its codes the position becomes the prediction, an omitted side re-basing on the present one |
| MirrorHistory.AcceptedSorted | app/orchestrator/mirror-history.ts:57-59 | the accepted samples are in time order |
| MirrorHistory.KeepsLastAccepted | app/orchestrator/mirror-history.ts:57-67 | after any records the history is the last capacity accepted samples |
| MirrorHistory.LerpInHull | app/orchestrator/mirror-history.ts:34-38 | interpolation stays between its ends |
| MirrorHistory.WriteAppends | app/orchestrator/mirror-history.ts:60-66 | writing at the head appends and drops the oldest once full |
| MirrorHistory.History.At | app/orchestrator/mirror-history.ts:70-76 | index arithmetic over the wrapped ring finds the i-th oldest, or from the end |
| MirrorHistory.History.Record | app/orchestrator/mirror-history.ts:57-67 | appends in time order, drops an out-of-order sample |
| MirrorHistory.History.FirstLater | app/orchestrator/mirror-history.ts:99-106 | the binary search finds the adjacent pair with before.t <= t < after.t, so the zero span never occurs |
| MirrorHistory.History.MirrorAtTime | app/orchestrator/mirror-history.ts:81-121 | clamped at the ends, interpolated in the hull of the adjacent pair inside, and ageNs always the distance to the nearest stored sample |
| MirrorHistory.SteadyMirror | app/orchestrator/mirror-history.ts:107-121 | between two samples of a mirror that moves steadily the answer is where it was |
| MirrorHistory.InOrderAccepted | app/orchestrator/mirror-history.ts:55-59 | samples in time order are all accepted, equal times included |
| CoalescedWriter.RunOk | app/lib/coalesced-writer.ts:41-111 | the writer's invariant holds in every run of submits, settles, timers, clears and disposal |
| CoalescedWriter.OneWriteInFlight | app/lib/coalesced-writer.ts:67-89 | at most one device write is in flight |
| CoalescedWriter.WritesAreSubmits | app/lib/coalesced-writer.ts:49-53 | per key the device sees a subsequence of the submits |
| CoalescedWriter.FinalValueLands | app/lib/coalesced-writer.ts:67-89 | when idle the last submitted value of a key has been written, unless a clear or disposal came after that submit |
| CoalescedWriter.DroppedMeansCleared | app/lib/coalesced-writer.ts:55-66 | a key counts as dropped only while a clear or disposal is newer than its last submit, or a clear newer than its last accepted value |
| CoalescedWriter.PersistedAreAccepted | app/lib/coalesced-writer.ts:91-111 | per key what is persisted is a subsequence of what was accepted |
| CoalescedWriter.LastAcceptedPersists | app/lib/coalesced-writer.ts:91-111 | with no timer left for a key and the chain run dry its last accepted value is the last persisted, unless a clear came after it was accepted; disposal does not hurt |
| CoalescedWriter.NoStarvation | app/lib/coalesced-writer.ts:67-75 | over any run without clears a key queued at position i has been in flight by the time i + 1 more writes have settled |
| CoalescedWriter.Coalescer.SubmitValue | app/lib/coalesced-writer.ts:49-53 | queues or replaces the key's value and starts an idle pump |
| CoalescedWriter.Coalescer.WriteSettled | app/lib/coalesced-writer.ts:74-97 | an accepted value is scheduled, a refused one is not, and the pump goes on |
| CoalescedWriter.Coalescer.Clear | app/lib/coalesced-writer.ts:55-59 | queued writes and pending persists are dropped, the write in flight is not |
| CoalescedWriter.Coalescer.DisposeWriter | app/lib/coalesced-writer.ts:60-66 | accepts nothing more and flushes every pending persist, oldest key first |
| CoalescedWriter.LogsAreTrue | app/lib/coalesced-writer.ts:41-97 | in every run what was submitted is the submits before any disposal, what was written and has not settled is in flight, and what was accepted is exactly what settled well |
| CoalescedWriter.DebounceWaits | app/lib/coalesced-writer.ts:87-97 | until a timer fires or the writer is disposed nothing goes to the persist chain |
| CoalescedWriter.TimerPersists | app/lib/coalesced-writer.ts:95-105 | a timer sends the value waiting under its key to the persist chain and no other |
| CoalescedWriter.DisposeFlushes | app/lib/coalesced-writer.ts:55-63 | a disposal leaves nothing waiting: every pending persist is on its way |
| CoalescedWriter.ClearForgets | app/lib/coalesced-writer.ts:47-53 | until something is submitted again nothing is written after a clear, and nothing persisted but what was in flight when it came |
| LogRing.TailUnique | app/electron/log-ring.ts:80-90 | the retained lines are decided by all committed lines alone |
| LogRing.LinesConcat | app/electron/log-ring.ts:61-70 | carrying the unterminated end over a cut loses and invents no line |
| LogRing.ChunkingInvisible | app/electron/log-ring.ts:57-78 | a text without a stretch over the byte cap commits exactly its lines however it is cut |
| LogRing.MildOutcome | app/electron/log-ring.ts:57-78 | a mild text, however it is cut, commits and carries what it does when it comes whole |
| LogRing.ChunkingInvisibleIff | app/electron/log-ring.ts:57-78 | what a text commits and carries is the same for every two cuttings exactly when every terminated stretch is within the byte cap and the unterminated one is without its last character |
| LogRing.CutCommitsMore | app/electron/log-ring.ts:71-77 | an overlong line cut before its newline commits exactly one line more than when it comes whole |
| LogRing.SameTextSameRing | app/electron/log-ring.ts:57-90 | two rings fed one mild text in any two cuttings are equal |
| LogEviction.KeptIsTail | app/electron/log-ring.ts:80-90 | dropping lines from the front until the rest fits leaves the longest suffix within the caps, or a single line |
| LogEviction.DecidedShown | app/electron/log-ring.ts:57-90 | a decided text, however it is cut, leaves the ring as it does when it comes whole |
| LogEviction.OverlongShows | app/electron/log-ring.ts:57-90 | an overlong line that what follows does not push out leaves the ring different when cut before its newline |
| LogEviction.EndShows | app/electron/log-ring.ts:57-90 | an unterminated end over the cap without its last character leaves the ring different when cut before that character |
| LogEviction.RingInvisibleIff | app/electron/log-ring.ts:57-90 | every cutting of a text leaves a ring with given caps in one state exactly when the unterminated end is within the cap without its last character and what follows each overlong line fills the ring without it |
| LogRing.Ring.Append | app/electron/log-ring.ts:80-90 | the ring is the longest suffix of all committed lines within the caps, or a single line, and its byte total is true |
| LogRing.Ring.CommitLines | app/electron/log-ring.ts:62-70 | the loop commits every complete line without its line ending |
| LogRing.Ring.Push | app/electron/log-ring.ts:57-78 | one chunk commits its complete lines and an overlong end, and carries the rest |
| LogRing.Ring.Tail | app/electron/log-ring.ts:94-103 | the last n retained lines, the unterminated one included |
| LogRing.CarriageReturns | app/electron/log-ring.ts:63-70 | a line that ends in a carriage return and a newline is the line that ends in a newline |
| LogRing.FewestBytes | app/electron/log-ring.ts:80-90 | the bytes counted for a code point are the fewest whose UTF-8 payload holds it |
| Metering.ReportIsMaximum | app/orchestrator/metering.ts:124-132 | the report is the larger of the open gap and the longest interval closed in the clock's last ten seconds, for any timestamps |
| Metering.OrderedReport | app/orchestrator/metering.ts:98-132 | on a clock that never goes back those are the intervals whose closing event fell in the current or previous nine grid seconds |
| Metering.RecentIff | app/orchestrator/metering.ts:98-132 | from now on every reading covers an interval exactly while its event is in the current or previous nine grid seconds, if and only if the event came in the clock's own second or the clock is ten seconds past that |
| Metering.LongIdle | app/orchestrator/metering.ts:104-113 | after ten idle seconds all bins are clear, however long it was |
| Metering.BinsMaximum | app/orchestrator/metering.ts:126-129 | the largest bin is the maximum over ten seconds |
| Metering.IntervalRing.Rotate | app/orchestrator/metering.ts:104-113 | the ring comes to the second of now, bins and bin start aligned |
| Metering.IntervalRing.RecordEvent | app/orchestrator/metering.ts:115-122 | the event joins the history the bins summarise |
| Metering.IntervalRing.RingMax | app/orchestrator/metering.ts:126-132 | returns the report of the whole history |
| Metering.GapShown | app/orchestrator/metering.ts:124-132 | while nothing is recorded after an event every reading shows at least the time since |
| Metering.CoversByAge | app/orchestrator/metering.ts:104-132 | on a clock that never goes back a reading covers every interval whose event is at most nine seconds old and none whose event is ten seconds old |
| PipeLedger.RunBalanced | app/orchestrator/pipe-session.ts:116-140 | in every run and for every pipe, connects less disconnects at the broker are what all channels hold plus the balance of untracked calls |
| PipeLedger.DoubleDisconnect | app/orchestrator/pipe-session.ts:206-223 | a tracked disconnect is silent exactly when the channel holds nothing of the pipe |
| PipeLedger.OthersUntouched | app/orchestrator/pipe-session.ts:188-223 | no command of a channel changes what another holds |
| PipeLedger.ClosedHoldsNothing | app/orchestrator/pipe-session.ts:118-125 | from its close on a channel that connects no more contributes nothing |
| PipeLedger.GiveBackBalance | app/orchestrator/pipe-session.ts:122-123 | a closing channel disconnects each pipe exactly as often as it held it |
| PipeLedger.Broker.ConnectPipe | app/orchestrator/pipe-session.ts:188-205 | an unknown pipe is refused; a known one is connected and counted to the caller |
| PipeLedger.Broker.DisconnectPipe | app/orchestrator/pipe-session.ts:206-223 | only a count the caller holds is given up |
| PipeLedger.Broker.ReconcileChannel | app/orchestrator/pipe-session.ts:118-124 | the nested loops give back everything held, in order |
| PipeLedger.HoldsIsCounted | app/orchestrator/pipe-session.ts:188-223 | in every run what the ledger counts for a channel and a pipe is its connects of the known pipe less its disconnects since it last closed or held nothing |
| PipeLedger.BrokerIsTold | app/orchestrator/pipe-session.ts:134-223 | the broker is told of every advert and withdrawal once and in order, and of every untracked call of a known pipe |
| PipeCompose.RunOk | app/orchestrator/pipe-session.ts:146-292 | the node invariant holds in every run |
| PipeCompose.PositiveRefs | app/orchestrator/pipe-session.ts:146-161 | every composed node has at least one reference and every counted window at least one |
| PipeCompose.Exclusive | app/orchestrator/pipe-session.ts:229-251 | nobody but its owner references a window-rooted node |
| PipeCompose.TeardownsMatch | app/orchestrator/pipe-session.ts:149-152 | in every run materializations of an id less its teardowns are the materialized node standing there plus the leaked ones, whatever kinds the materializers return; so a gone node is matched exactly when none leaked |
| PipeCompose.RegisteredLeaksNothing | app/orchestrator/pipe-session.ts:255-260 | materializers that return kinds which have a materializer leak nothing |
| PipeCompose.LeaksIff | app/orchestrator/pipe-session.ts:149-176 | nothing leaks at an id exactly when no node that stood there with a kind no materializer has was gone later, by its last reference or with its window |
| PipeCompose.StepStanding | app/orchestrator/pipe-session.ts:146-285 | a step books exactly one materialization for a node it makes and one teardown for a node it removes whose kind has a materializer |
| PipeCompose.ClosedWindowFree | app/orchestrator/pipe-session.ts:163-177 | from its close on a window that composes no more owns and references nothing |
| PipeCompose.EpochNeverReused | app/orchestrator/pipe-session.ts:271-277 | once a node is gone no later node at its id carries its epoch or an older one |
| PipeCompose.CloseFind | app/orchestrator/pipe-session.ts:163-176 | closing a window treats every node on its own: owned ones go, shared ones lose the window's references, the rest stay |
| PipeCompose.Composer.ComposeNode | app/orchestrator/pipe-session.ts:225-285 | refuses outside the caller's namespace, refers to a standing node, or materializes a fresh one, with every error |
| PipeCompose.Composer.DecomposeNode | app/orchestrator/pipe-session.ts:154-161 | one reference less, teardown at none |
| PipeCompose.Composer.OnWindowClosed | app/orchestrator/pipe-session.ts:163-176 | the sweep over a snapshot while nodes are deleted treats every node exactly once |
| PipeCompose.ComposeIff | app/orchestrator/pipe-session.ts:225-285 | a composition succeeds exactly when the caller may name the node and owns it or it is shared, or its kind's materializer makes it, or it is an advertised camera; a failed one changes nothing; a new node has the materializer's kind and the caller as owner |
| PipeCompose.AdvertisedIff | app/orchestrator/pipe-session.ts:134-144 | the advertised pipes are those whose last announcement was no withdrawal |
| PipeCompose.RefsAreCounted | app/orchestrator/pipe-session.ts:154-292 | in every run every window holds on every node exactly the references its compositions and decompositions say |
| PipeCompose.StandsWhileHeld | app/orchestrator/pipe-session.ts:146-161 | a node stands exactly while somebody holds a reference |
| BurstGrab.RunBooks | app/orchestrator/capture-node.ts:91-117 | at every round next-wanted is start plus delivered plus dropped, frames rise strictly, and each sequence number below it is delivered once or dropped once |
| BurstGrab.BooksIffHonest | app/orchestrator/capture-node.ts:91-117 | the books balance at every round exactly when the reader answers with the wanted frame or an oldest frame not older, so every other reader breaks them |
| BurstGrab.ShortOnlyWhenStopped | app/orchestrator/capture-node.ts:94-98 | fewer frames than asked for only after a close or a passed deadline |
| BurstGrab.RetriesKeepWant | app/orchestrator/capture-node.ts:97-102 | torn and early reads ask for the same frame again |
| BurstGrab.GrabBurst | app/orchestrator/capture-node.ts:91-117 | the loop is the fold of its rounds and reads no further than it must |
| BurstGrab.EveryAnswerCounts | app/orchestrator/capture-node.ts:94-115 | while a burst goes on every frame it is answered with is handed out and it waits once for every not-yet |
| BurstGrab.StopsForGood | app/orchestrator/capture-node.ts:94-98 | a close or a passed deadline ends a burst there and then, whatever the reader would still say |
| BurstGrab.EnoughIsEnough | app/orchestrator/capture-node.ts:94 | a burst that has its frames asks for nothing more |

## Left out

Assumptions that the models make explicit:

- Arithmetic is exact: `real` for the filter, the controller and the DAC; rounding, NaN and
  infinity, the `degenerate()` reset and the non-finite escapes are not modelled, and the Gaussian
  likelihood is an arbitrary non-negative function.
- The filter is configured with at least one model, measurement noise above zero and noise
  densities of at least zero, without which the constructors promise only their fields; the 3x3
  index loops are unrolled, and the `combinedPosVar` hook is not modelled.
- The controller's voltage swing is not negative, as shipped. A PID whose lower limit is above its
  upper one keeps working as the source does; only the claims of saturation need proper ranges.
- Instance ids are numbers in the order of creation; session names and process ids are not
  modelled. Records of the registry are values in a sequence, so their aliasing is not captured.
- Content hashes are 32 hex digits without collision among the payloads a store knows; creation
  stamps and listing order stay the same between a run and its rerun; a record filed under an id
  is filed under its own; camera keys are never 32 hex digits; versions are integers. Report
  counters and snapshot hooks are not modelled; the `role` of an association is carried along and
  is not part of what a store is said to know.
- Documents of the config store are JSON values, none has a key named `__proto__` (which assigns
  the prototype instead of a key), and file writes succeed. In the window model
  documents are plain objects, and clearing or replacing a whole document is excluded there;
  windows neither open nor close during a run.
- Insertion-ordered maps are modelled as lists of entries with distinct keys.
- `onResult` and persist hooks of the write coalescer do not call back into it.
- Text is a sequence of code points, counted in UTF-8 bytes; the tee of the log tail is a plain
  pass-through and not modelled.
- Pipes advertised when the pipe session is built are advertise events at the start of a run.
- Composing is atomic (a synchronous materializer), and what a native drop does to a refcount is
  ignored. The pushes of pipe and node tables to renderers and the fovea materializer are not
  modelled.
- The frame ring answers a read with the wanted frame or with an oldest frame that is not older,
  as `core/src/ShmRead.cpp:165-262` does; the books of a burst are shown to need it.

Not modelled:

- A claim that the janitor never overlaps a live holder: a waiting instance that crashes starts a
  sweep at once.
- Convergence of windows under concurrent edits: the originator gets no echo and its patch reply
  is dropped.
- `PID2D`, which runs two independent controllers.
- Stream ids, the stream update gate and stream creation of the controller: id allocation and
  rate limiting with simple contracts.
- The busy-span and counter half of the workload meter.
- Import decisions, active-dataset resolution and ordering of calibration records, and their
  canonical encoding.
- Process clients of the store (`attachProcess`), which repeat the window bookkeeping.
- `accumulate`, `clampRect` and the image work of the capture node.
- Electron, serial, camera, shared-memory and worker plumbing, trigonometry and regressions.
- StoreWords.LastWord: speaks of documents that are no arrays or texts, since a key patch drops
  such a document whole and a read keeps it; `StoreWords.UpdateKeeps` says what an update makes of
  them, with a text spread by code points where the source takes UTF-16 units.
- StoreClients.EditLands: an edit made back to the value last acknowledged while an older patch is
  under way sends nothing, so the flush has to speak of the key.
- CoalescedWriter.FinalValueLands: says nothing of a value that a clear or disposal came after,
  since both drop queued writes on purpose; whatever is submitted later is covered again.
- StoreClients.OwnerWins: speaks of the authority, not of the copies in other windows.
