# SmartSOM: a verified model

SmartSOM simulates a shop floor on an integer clock: jobs wait in queues and finite slots, machines
process them, vehicles carry them cell by cell, and a reservation protocol decides who fetches what.
This project models that simulator, both of its controllers and nine smaller algorithms around it in
Dafny, and proves what they promise. Policies and movers are arbitrary: any candidate of a request, any
direction or waiting. Random draws are arbitrary functions. So every statement about runs holds for all
answers and all draws.

    dafny verify dfyconfig.toml

## How it is built

The core has two layers. The specification layer writes each step of the simulator as a function on a
state (`Operations`, `Physics`, `Stepping`) and proves that it keeps one invariant, `Safety.Inv`: who
holds each job (`Custody`), where jobs may be, station and slot limits with all outstanding commitments,
and the ledger of demands. The program layer is the simulator and the controllers as classes that update
their fields in place (`Engine.Simulator`, `Negotiation.BaseProtocol`, `Central.CentralControl`); each
method is proved to leave exactly the state the specification gives, and the controllers to perform only
enabled decisions. Between the two stand statements that name none of these functions: coordinates of the
moves, durations as inequalities, the outcome of each service, the first open slot, the log of a run. Every
specified phase is proved to be what they say. Runs are sequences of enabled decisions (`Runs`), so a theorem about runs is a theorem
about the programs.

| files | content |
|---|---|
| Collections, Factory, Availability, Movement | lists and sets, scenario and state, outage lookups, simultaneous moves |
| Custody, Safety, Components | the invariant and the lemmas about its parts |
| Operations, Preservation, Handling, Deliveries, Reservations, CentralSafety | every operation and that it keeps the invariant |
| Physics, Settling, Stepping | folds over all resources, the boundary phase, the interval, the initial state |
| Driving, Durations, ServiceTick, Workday, Phases | what each phase does, said from the state before it without the specification's operations |
| Checks, Conservation, Runs | the two run-time self-checks, and all runs |
| TimeJump, StaleClocks, JumpNeedsGuard, Rewards, Trails, Chronicles, Returns, TaskOrder | jumps and subdivisions, returns, product histories, what the log of a run tells, the order of the tasks |
| Engine, Negotiation, Central, Episodes, LocalFacts | the programs, and whole episodes of both controllers |
| Routes, Baseline, Outages, GraphCopy, ParallelEvaluation, Scenes, RuleProjection, Features, PortLookup, Layout | the algorithms around the core |
| Admission, Smallest | from an accepted factory document to the preconditions; one concrete factory that meets them |

## Preconditions

`Factory.WellFormed` collects what the simulator needs of a scenario: known and unique identifiers, exactly
one PRE and one POST with finite capacity per machine, positive rates, a release time that is not negative,
at least one demand and one vehicle, and vehicles that start apart on walkable cells.
`Admission.AcceptedIsWellFormed` proves it of every document that the record constructors, the design
validator, the production validator and the Base validator accept, under the second and third condition below. The
conditions that the code does not enforce everywhere are these:

- Per-machine outages are disjoint (`Availability.Proper`, `Availability.Disjoint`). The simulator scans the
  calendar linearly at construction and by bisection afterwards, and the two disagree on nested intervals;
  `Availability.BisectionAgreesExactly` gives the exact condition. Both generators satisfy it.
- There are no chargers, scrap bins or inspection stations. Routes leave their cells walkable while the
  run-time check treats them as solid (`Layout.ChargerOnTheFloor` is an accepted design with such a cell);
  `Layout.FloorsAgreeExactly` shows that the two agree on no other accepted design.
- There is at least one demand, and no buffer of the plain storage role, to which the protocol never sends a
  job.
- Every port cell of an owner supports the operation used there. Accepting takes the nearest of the
  owner's ports for the operation and starting a service the one at the vehicle's cell; both fail where there
  is none, and acceptance and service start in the model do not look at operations.

## Where the code is not what one might expect

- Every jump the simulator performs equals its ticks (`StaleClocks.JumpIsTicks`), but only because the idle
  interval is one tick while some vehicle could be served. Without that guard the two would differ exactly
  when the first task withdrawn at the end of the jump belongs to an empty vehicle whose idle clock was left
  running when it got the task (`StaleClocks.JumpExactly`); `JumpNeedsGuard.JumpWithoutGuardDiffers` is such
  a state.
- `merge` and `difference` are not inverse in general: `Scenes.LostField` is an input that loses a field,
  `Scenes.MergeDifferenceExactly` the exact condition. The scenes the code writes meet it.
- Compressing a factory into a scene forgets the rotation of machines, and single fault rules that equal the
  common rule: `Scenes.UnchangedExactly` is the exact condition, `Scenes.RotationAndRuleLost` the failing case.
- Before services the centralized controller gives up tasks in the order in which they were made, a
  dictionary's. The model reads that order off the event log, and `TaskOrder.KeyOrderIsInsertionOrder` proves
  that it is the dictionary's over every run.

Identifiers are natural numbers whose order stands for the order of the identifier strings, and lists of
identifiers are in the order in which the code walks them (machines, buffers and vehicles by identifier,
demands by release time). Fractions and rewards are reals.

## Model

| member | source | states |
|---|---|---|
| Runs.RunsNeverFail | src/smartsom/engine/production.py:654-694 | for every sequence of enabled decisions of either controller and every mover answer, in every state that a run from the constructed simulator reaches, both run-time self-checks pass: distinct vehicle cells off solids, job locations that match their holders, slots within capacity, exactly one active job per released and not yet shipped demand (the physics check), and the reservation limits (the protocol check) |
| Runs.PlacesOfRuns | src/smartsom/engine/physical_services.py:51-62 | in every reachable state a PRE holds only jobs its machine can process next, a POST only jobs that are finished or need another machine, the Output only finished jobs, and every vehicle with a target heads for a legal destination of its job, or for a source when it is empty |
| Trails.ProductsOfRuns | src/smartsom/engine/production.py:490-557 | over every run each demand is shipped at most once, and only after its operations were processed exactly once each, in order, each on a machine that has that operation type; per Input the releases are the admissions followed by the waiting jobs, in the same order (FIFO) |
| Rewards.ReturnOfRun | src/smartsom/engine/production.py:385-406 | the accumulated overdue time of every run is the sum over released demands of max(0, (shipment time or now) - due) - max(0, release - due), and the return is -(overdue + penalty * failed shipments) / number of demands |
| Returns.ReturnFromLog | src/smartsom/engine/production.py:385-406 | the return of every run, read off its log: one per demand and tick in which the demand was released, unshipped and past its due time, and the penalty per demand shipped with a flawed operation, divided by the number of demands and negated |
| Returns.QualityOfRuns | src/smartsom/engine/production.py:479-517 | in every state of every run a shipped demand counts as good exactly if its revealed quality is Passed, which is exactly if no completed operation of its job had a quality draw below the error rate of the mode it was started in, all read off the log; unshipped demands have no finding, and shipment times are those of the log |
| Returns.PunctualRuns | src/smartsom/engine/production.py:419-477 | over every run each announced start has the durations of its operation, and each completion is that of the last start on its machine, after exactly its actual duration of running ticks |
| Rewards.RunTelescopes | src/smartsom/engine/production.py:385-406 | the same between any two states of a run: interval overdue times and rewards telescope |
| Rewards.ReturnIgnoresPartition | src/smartsom/engine/production.py:340-346 | two runs between the same states collect the same overdue time and the same return, however they cut time into intervals |
| Rewards.JumpPaysTheSame | src/smartsom/engine/base_protocol.py:910-948 | a jump of k ticks and k single ticks are both runs to the same state and collect the same return |
| StaleClocks.JumpIsTicks | src/smartsom/engine/base_protocol.py:910-978 | main refinement: after a decision phase of either controller, when nobody moves, nothing is in service and no vehicle could be served, one interval of k ticks inside the quiet calendar reaches exactly the state of k intervals of one tick: jobs, queue, storage, machines, vehicles, ledger, idle clocks, assignments and event log |
| StaleClocks.JumpExactly | src/smartsom/engine/production.py:522-531 | without the guard that no vehicle could be served, the jump equals the subdivision if and only if the run is over at the end of the jump or the first assignment withdrawn there, in the order in which assignments were made, does not belong to an empty vehicle with a target whose idle clock was left running |
| JumpNeedsGuard.JumpWithoutGuardDiffers | src/smartsom/engine/base_protocol.py:956-957 | the guard cannot be dropped: a concrete state between decisions, quiet for two ticks, from which one jump and two ticks lead to different states; a vehicle is ready there |
| TaskOrder.KeyOrderIsInsertionOrder | src/smartsom/engine/central_control.py:84-91 | the order in which assignments are visited is the insertion order of a dictionary: over every decision of a run a new task comes last, and the others keep their order, whichever are given back |
| TimeJump.JumpAfterSync | src/smartsom/engine/base_protocol.py:104-117 | from synchronized idle clocks the jump always equals the subdivision |
| Episodes.BaseEpisode | src/smartsom/engine/base_protocol.py:605-948 | from the constructed and configured simulator, decision phases of the reservation protocol and intervals alternate until the run is done, for any policy and mover answers, recorded or not; the final state is the end of a run of enabled decisions from the initial state, both self-checks pass there, and the accumulated overdue time and reward are those of the closed form |
| Episodes.CentralEpisode | src/smartsom/engine/central_control.py:45-58 | the same for the centralized controller, which ends early only on an illegal answer, and never under a policy that answers with offered tasks |
| Episodes.PlayBase | src/smartsom/engine/base_protocol.py:605-948 | the same from any state between episodes in which the protocol's invariant holds |
| Episodes.PlayCentral | src/smartsom/engine/central_control.py:45-58 | the same for the centralized controller |
| Episodes.LeadsOn | src/smartsom/engine/base_protocol.py:605-948 | runs compose, so phases and intervals together are one run |
| Smallest.WorkshopIsWellFormed | src/smartsom/config/base_diagnostic.py:904-932 | the preconditions of the whole-run theorems can be met under either controller: a concrete factory with one machine, one vehicle and one order |
| Admission.AcceptedIsWellFormed | src/smartsom/domain/production.py:269-330 | a document that the constructors, the design validator, the production validator and the Base validator accept, with at least one demand and without chargers and plain storage, gives a scenario that meets all preconditions of the theorems about runs |
| Admission.AcceptedPorts | src/smartsom/domain/factory_design.py:821-832 | its ports lie on walkable cells off solids, and no cell is a port of two owners |
| Admission.PairBuffers | src/smartsom/engine/production.py:106-112 | the constructor's loop refuses exactly two buffers of one machine on one side, and otherwise enters every machine's buffers in the two station maps and nothing else |
| Admission.AcceptedPairs | src/smartsom/engine/production.py:106-112 | after the validators the loop refuses nothing, in whatever order it walks, and its maps are those of the scenario |
| Admission.SmallIsAccepted | src/smartsom/config/base_diagnostic.py:904-932 | some document is accepted |
| Movement.Resolve | src/smartsom/engine/production.py:345-379 | the rejection loop terminates and computes the least set of rejections, whatever the iteration order |
| Movement.RefusedIsLeastFixpoint | src/smartsom/engine/production.py:362-376 | the rejected moves are the least set that contains every contested move and is closed under being blocked by a vehicle that stays |
| Movement.RefusedHasCause | src/smartsom/engine/production.py:350-376 | every rejected move is contested or blocked by a vehicle that stays |
| Movement.CommitKeepsDistinct | src/smartsom/engine/production.py:372-379 | committing the other moves from distinct cells gives distinct cells |
| Movement.NoSwap | src/smartsom/engine/production.py:352-361 | two vehicles never swap cells |
| Movement.SelfSupportingGroupsMove | src/smartsom/engine/production.py:362-376 | chains and rotations still move: a group of uncontested moves whose destinations are free or left by the group is committed completely |
| Stepping.MoveKeeps | src/smartsom/engine/production.py:338-379 | a committed joint move keeps the whole invariant |
| Engine.Simulator.RequestedMoves | src/smartsom/engine/production.py:345-356 | the move loop collects exactly the permitted moves and the invalid ones |
| Engine.Simulator.ResolveMoves | src/smartsom/engine/production.py:357-376 | the class runs the rejection loop on its own vehicles |
| Engine.Simulator.MoveVehicles | src/smartsom/engine/production.py:345-384 | exactly the vehicles sent to a walkable neighbour (Up is y - 1, Down y + 1, Left x - 1, Right x + 1) while not serving can move, and only there; one of them stays exactly when another was sent to its cell, when the vehicle there was sent here, or when the vehicle there stays; every other row and field is unchanged; the events report exactly the moves, the conflicts and the forbidden actions |
| Driving.MoveIsDriven | src/smartsom/engine/production.py:345-379 | the specified joint move is that statement in coordinates |
| Driving.ConvoyGoes | src/smartsom/engine/production.py:362-376 | chains and rotations go: every vehicle of a group that was sent without rivals to free cells or to cells of the group arrives |
| Engine.Simulator.constructor | src/smartsom/engine/production.py:28-155 | the constructed object is the empty factory after its first boundary, and the physics check passes |
| Engine.Simulator.Configure | src/smartsom/engine/base_protocol.py:82-102 | configuring starts the idle clocks and sets the reevaluation interval; after the constructor this gives the initial state of all run theorems |
| Engine.Simulator.Step | src/smartsom/engine/production.py:317-417 | refuses a finished run (last tick reached, or every demand shipped unless dynamic), a non-positive duration, duplicate or unknown vehicles and a jump that is too long, each exactly when the code does and without changing anything; otherwise vehicles move, and then services, processing, down flags, releases, admission and machine release follow in this order, each as stated from the state before it; the reward is paid and added to the totals, and the physics check passes |
| Engine.Simulator.AdvanceTime | src/smartsom/engine/base_protocol.py:910-948 | with and without per-tick recording the chosen interval, which is one the rules of a run allow, ends in the same state, that of the phases of one interval in their order, with the same overdue time and the same total reward; exactly the vehicles that came to a port of their target have arrived now, the closing synchronization of the idle clocks changes nothing, and the closing reservation check passes |
| Engine.Simulator.NoteArrivals | src/smartsom/engine/base_protocol.py:938-942 | exactly the vehicles that entered a port cell of their target get a new arrival tick |
| Engine.Simulator.Subdivide | src/smartsom/engine/base_protocol.py:929-943 | the recording loop is the k-fold single tick and pays the telescoped reward |
| Engine.Simulator.IdleInterval | src/smartsom/engine/base_protocol.py:950-978 | the chosen interval is positive, never crosses a calendar event, ends at one when it is longer than a tick, and is 1 whenever somebody moves, is served or could be served |
| Engine.Simulator.NextEvent | src/smartsom/engine/base_protocol.py:958-978 | the minimum over the event calendar: nothing is scheduled before it |
| Engine.Simulator.Boundary | src/smartsom/engine/production.py:215-268 | down flags of the calendar, releases, first-come admission and release from the machines, one after the other, each as stated from the state before it |
| Engine.Simulator.SetFlags | src/smartsom/engine/production.py:216-228 | every machine gets the down flag of the calendar, by scan before the protocol exists and by bisection afterwards, and nothing else changes |
| Engine.Simulator.ReleaseDue | src/smartsom/engine/production.py:229-235 | exactly the due demands not yet released are released, each with its next attempt as a fresh job at the end of the queue, in the order of the list |
| Engine.Simulator.AdmitQueued | src/smartsom/engine/production.py:236-247 | job by job in queue order: it enters the first slot of its Input, by identifier, that the jobs there and those let in before it leave open, and waits exactly if they leave none; lists grow at their end and the queue keeps its order |
| Engine.Simulator.UnblockAll | src/smartsom/engine/production.py:248-268 | every blocked machine is ready again with its job if it can run the next operation, otherwise idle with the job in the first open slot of its POST, or unchanged if there is none; nothing else changes |
| Engine.Simulator.FreeSlot | src/smartsom/engine/production.py:192-199 | the first slot in identifier order that is not full; none exactly if all are full |
| Workday.IntervalPasses | src/smartsom/engine/production.py:338-417 | the specified interval is moves, services, processing and boundary phase one after the other, each as stated from the state before it |
| Workday.AllLetIn | src/smartsom/engine/production.py:236-247 | the specified admission is first come, first served into the first open slot |
| Workday.UnblocksLetOut | src/smartsom/engine/production.py:248-268 | the specified unblocking keeps or releases each job by its next operation and the slots of the POST before it |
| Workday.ReleasesGo | src/smartsom/engine/production.py:175-190 | the specified releases are those of the due demands |
| Workday.WorksWorked | src/smartsom/engine/production.py:525-557 | the specified processing is the work of every running machine |
| Engine.Simulator.Start | src/smartsom/engine/production.py:419-477 | the job leaves its slot for the machine, which runs it in the mode for the actual duration; under upward rounding that is the least n >= 1 with n * rate >= work * share * scale, share going from the lower to the upper bound with the draw, otherwise the nearest number to the rounded work; overrides and samples count, and the nominal duration is that of the declared work |
| Durations.DurationTakes | src/smartsom/engine/production.py:440-460 | the specified durations are those, in inequalities |
| Durations.FasterIsNoLonger | src/smartsom/engine/production.py:440-460 | a machine with a higher rate never needs longer, actually or nominally |
| Engine.Simulator.ProcessAll | src/smartsom/engine/production.py:525-557 | every machine that is processing and up works k ticks and is blocked exactly when its time is over; exactly the jobs that finish are one operation further, with unknown quality, and defective if they were or if their draw is below the error rate of the mode; everything else is unchanged |
| Engine.Simulator.Work | src/smartsom/engine/production.py:525-557 | one machine's progress over an interval, and completion exactly at zero |
| Engine.Simulator.Accept | src/smartsom/engine/base_protocol.py:575-598 | accepts exactly when the vehicle has no target and the owner's quota is positive; then the owner is its target from now on, and no other vehicle changes; otherwise nothing changes |
| Engine.Simulator.Cancel | src/smartsom/engine/base_protocol.py:370-388 | drops the assignment, and target and service if there is a target, of this vehicle only, and synchronizes the idle clocks |
| Engine.Simulator.FinishDelivery | src/smartsom/engine/production.py:490-520 | the job is at the end of its slot and the vehicle empty; exactly at an Output its demand is shipped now, its quality becomes Passed or Failed by its defects, and it counts as good exactly without one |
| Engine.Simulator.CompleteServices | src/smartsom/engine/base_protocol.py:390-408 | from the state before: a task to a station that is down now, or an unloading into one, leaves the job on the vehicle, without service and target; every other unloading leaves its job at its place and the vehicle empty, and at an Output ships its demand; every other loading leaves its job on the vehicle and in no slot; tasks that go on, and no others, keep their vehicle aimed; everything else is unchanged |
| ServiceTick.ServicesTick | src/smartsom/engine/physical_services.py:122-138 | the specified service tick, under either controller, is that statement |
| ServiceTick.ReconcilePhase | src/smartsom/engine/central_control.py:70-82 | reconciling drops exactly the tasks to stations flagged down and those delivered, aims loaded vehicles without a target, and leaves the others |
| Engine.Simulator.Advance | src/smartsom/engine/production.py:522-557 | services complete first, processing second |
| Physics.BoundarySettles | src/smartsom/engine/production.py:215-268 | after a boundary no queued job and no blocked machine could go on, and the down flags are those of the calendar |
| Stepping.FreshIsSafe | src/smartsom/engine/production.py:95-155 | the empty factory before the first boundary satisfies the invariant |
| Conservation.CheckNeverFails | src/smartsom/engine/production.py:654-694 | the physics check passes in every state that satisfies the invariant |
| Conservation.HoldingsAreAllJobs | src/smartsom/engine/production.py:660-679 | queue, slots, machines and vehicles together hold every job exactly once |
| Conservation.AllAccounted | src/smartsom/engine/production.py:680-694 | active and shipped demands are disjoint and together the released ones |
| Checks.ReservationsNeverFail | src/smartsom/engine/base_protocol.py:869-908 | station stock plus PRE commitments fit the station, POST stock plus the started job cover the POST commitments, Input commitments are stocked, and stored plus unloading jobs fit every slot |
| Checks.QuotaMeansVacancy | src/smartsom/engine/base_protocol.py:337-356 | a positive quota is exactly room for one more commitment |
| Preservation.SetDownKeeps | src/smartsom/engine/production.py:216-228 | breakdown and repair keep the invariant |
| Preservation.ReleaseKeeps | src/smartsom/engine/production.py:175-190 | releasing a demand keeps it |
| Preservation.AdmitKeeps | src/smartsom/engine/production.py:236-247 | admission keeps it |
| Preservation.UnblockKeeps | src/smartsom/engine/production.py:248-268 | same-machine retention and release to POST keep it |
| Handling.StartKeeps | src/smartsom/engine/production.py:419-477 | starting a job that no assignment reserves keeps it |
| Handling.WorkKeeps | src/smartsom/engine/production.py:525-557 | processing and completion keep it |
| Reservations.AcceptKeeps | src/smartsom/engine/base_protocol.py:575-598 | accepting under a positive quota keeps it |
| Reservations.CancelKeeps | src/smartsom/engine/base_protocol.py:370-388 | cancelling keeps it |
| Reservations.ServeKeeps | src/smartsom/engine/physical_services.py:109-120 | starting a loading or unloading service keeps it |
| Deliveries.PickUpKeeps | src/smartsom/engine/production.py:490-505 | a finished loading keeps it |
| Deliveries.CompleteKeeps | src/smartsom/engine/physical_services.py:122-138 | one tick of any vehicle's service keeps it |
| CentralSafety.AssignKeeps | src/smartsom/engine/central_control.py:155-179 | a centralized transport assignment keeps it |
| CentralSafety.ReconcileKeeps | src/smartsom/engine/central_control.py:70-82 | reconciling an assignment with a breakdown keeps it |
| Runs.ApplyStable | src/smartsom/engine/base_protocol.py:605-854 | every enabled decision leads from a stable state to a stable state |
| Runs.ApplyCalm | src/smartsom/engine/base_protocol.py:605-854 | decisions never give a queued job or a blocked machine something to do before the next boundary |
| Trails.RunHistory | src/smartsom/engine/production.py:490-557 | every decision extends the event log consistently with steps, shipments and queue |
| TimeJump.QuietTick | src/smartsom/engine/production.py:522-557 | a quiet tick completes no service, releases nothing and admits nothing |
| TimeJump.Merge | src/smartsom/engine/production.py:522-557 | an interval after a quiet tick is the interval from before it, one tick longer |
| Negotiation.BaseProtocol.Decide | src/smartsom/engine/base_protocol.py:605-854 | a decision phase terminates for any answers, stays a run of enabled decisions and passes the reservation check; every vehicle keeps its cell and job, and a target and service it had unless the owner takes nobody; every machine that could run something runs one of its choices and every other machine and job is as before; whoever stands at its port and could serve there does; every vehicle that may ask ends with a target, waiting where waiting is allowed, or with no open owner left to it |
| Negotiation.BaseProtocol.CancelStaleReservations | src/smartsom/engine/base_protocol.py:612-614 | exactly the vehicles that head for the PRE of a machine that is down, or for the POST of one without stock, lose target and service, their idle clocks start, and the new events are their cancellations; every other row, assignment and clock and all else is unchanged |
| Negotiation.BaseProtocol.StartMachines | src/smartsom/engine/base_protocol.py:615-644 | every machine that is up and has its kept job or a capable job in its PRE runs one of its choices from now on, in some mode, for its duration; every other machine and job is unchanged, and no machine has a choice left |
| Phases.CouldRunMeans | src/smartsom/engine/production.py:270-297 | the choices of a machine: it is up by the calendar, and the job is the one it kept, or it is idle and the job lies in its PRE; the job has not failed, and the machine has the type of its next operation and the mode |
| Phases.OpenMeans | src/smartsom/engine/base_protocol.py:560-573 | the candidates of a vehicle: it is free, reaches the owner, which suits what it carries, takes somebody, and has room for one more commitment |
| Negotiation.OwnersMean | src/smartsom/engine/base_protocol.py:645-664 | what a vehicle remembers of its last turn to ask is exactly the owners open to it, with their quotas |
| Negotiation.BaseProtocol.Round | src/smartsom/engine/base_protocol.py:668-789 | one round of applications and answers strictly lowers the summed number of unrefused owners of the active vehicles, or nobody applied and everybody is exhausted |
| Negotiation.BaseProtocol.Negotiate | src/smartsom/engine/base_protocol.py:645-789 | negotiation terminates; only vehicles that asked change, each by getting a reachable, suitable, open owner with room as its target; an owner that must accept has refused nobody while it has room; every vehicle that was awake ends with a target, waiting, or refused by all its candidates |
| Negotiation.BaseProtocol.Grant | src/smartsom/engine/base_protocol.py:746-784 | each applicant is accepted or gains this owner among its refusals, and the accept error never occurs |
| Negotiation.BaseProtocol.ServeSite | src/smartsom/engine/base_protocol.py:790-853 | site service terminates, one more locked vehicle per turn, and ends when no vehicle can be served there |
| Negotiation.BaseProtocol.PickVehicle | src/smartsom/engine/base_protocol.py:822-830 | at the Output the vehicle that arrived first, by identifier on a tie; elsewhere any |
| Negotiation.WeightDrops | src/smartsom/engine/base_protocol.py:668-789 | the termination measure of negotiation decreases with every answered application |
| Negotiation.ServedElsewhere | src/smartsom/engine/base_protocol.py:790-853 | serving one site leaves finished sites finished |
| LocalFacts.ReadPhase.QuotaOf | src/smartsom/engine/base_protocol.py:337-356 | inside a read phase the quota from cached parts is the quota of the plain query |
| LocalFacts.ReadPhase.CreditComponents | src/smartsom/engine/base_protocol.py:119-148 | the cached pickup credit is the plain one |
| LocalFacts.ReadPhase.Enter | src/smartsom/engine/base_protocol.py:247-301 | reservations grouped by owner at once are the commitments of every owner; nested phases change nothing |
| LocalFacts.ReadPhase.ItemsOf | src/smartsom/engine/base_protocol.py:303-313 | cached inventories are the plain ones |
| LocalFacts.ReadPhase.ReadyOf | src/smartsom/engine/base_protocol.py:410-416 | cached loadable jobs are the plain ones |
| LocalFacts.CommitmentsAppend | src/smartsom/engine/base_protocol.py:323-335 | one more vehicle adds itself to exactly its owner's commitments |
| LocalFacts.PhysicalCount | src/smartsom/engine/base_protocol.py:119-148 | stock counted as a set is stock counted as a list |
| Central.CentralControl.Decide | src/smartsom/engine/central_control.py:45-58 | a centralized phase terminates, is refused only for an illegal answer and passes the reservation check; a task whose destination is available stays, its vehicle on its way as it was or to the destination once loaded; in a phase that is not refused no vehicle is left whose task could be served at the port where it stands |
| Central.CentralControl.Choose | src/smartsom/engine/central_control.py:155-179 | an answer is illegal exactly when it is neither a choice of a machine nor a free vehicle, an unreserved job it has or can reach in an open source, and an open next stop with room; a taken answer starts that job or aims that vehicle and changes no other row, is a run decision and uses up freedom |
| Central.OfferedMeans | src/smartsom/engine/central_control.py:93-153 | the offered tasks are just these |
| Phases.MayCarryMeans | src/smartsom/engine/central_control.py:93-153 | transport tasks: a free vehicle that has the job, or can reach it in an open source while nobody loads or has a task for it, and an open next stop of the job with room |
| Central.CentralControl.ChooseTasks | src/smartsom/engine/central_control.py:45-58 | choosing tasks terminates for any policy, and a policy that answers with offered tasks is never refused |
| Central.CentralControl.ServeTask | src/smartsom/engine/central_control.py:181-200 | loads or unloads exactly when possible and keeps other vehicles' services |
| Central.CentralControl.Reconcile | src/smartsom/engine/central_control.py:70-82 | exactly the tasks to stations flagged down and those already delivered are dropped, vehicles loaded without a target are aimed at their destination, and every other row and task is unchanged |
| Central.ChoiceFrees | src/smartsom/engine/central_control.py:155-179 | every chosen task lowers the number of idle machines and vehicles without a task |
| Availability.BisectionAgreesExactly | src/smartsom/engine/base_protocol.py:67-80 | the bisected lookup equals the linear scan at every tick if and only if no interval of the machine is hidden behind a later one that ends earlier |
| Availability.DisjointCalendarsAgree | src/smartsom/engine/base_protocol.py:67-80 | on per-machine disjoint calendars both lookups agree |
| Availability.MaskedDiffers | src/smartsom/engine/production.py:216-225 | a hidden interval makes them differ at the end of the hiding one |
| Availability.NestedOutagesDiffer | src/smartsom/engine/production.py:216-225 | a concrete calendar and tick at which they differ |
| Availability.AvailabilityIsConstant | src/smartsom/engine/base_protocol.py:962-966 | availability does not change between calendar edges |
| Outages.SampleFaults | src/smartsom/config/base_diagnostic.py:1026-1044 | row by row: the first starts after the first uptime, every other one uptime after the previous repair, each lasts its repair time; all that start before the horizon and no other |
| Outages.SampleReliability | src/smartsom/config/reliability.py:137-165 | the same, with a repair that would end after the horizon clipped to it |
| Outages.ScheduleApart | src/smartsom/config/reliability.py:137-165 | both give positive lengths and starts strictly after the previous end |
| Outages.GenerateOutages | src/smartsom/config/base_diagnostic.py:1024-1044 | the scenario calendar has each enabled machine's schedule and nothing else, and is disjoint |
| Outages.ReliabilityOutages | src/smartsom/config/reliability.py:105-165 | the factory calendar is the same rows ordered by start and machine |
| Outages.GeneratedCalendarsAgree | src/smartsom/engine/base_protocol.py:67-80 | on every generated calendar, in any order, bisection and scan agree |
| Outages.MergeOutages | src/smartsom/domain/machine_events.py:28-49 | merging gives sorted intervals with gaps that cover the same machine ticks, and leaves a merged plan as it is |
| Outages.CanonicalIsUnique | src/smartsom/domain/machine_events.py:28-49 | two merged plans that cover the same machine ticks are equal |
| Outages.MergedPlansAgree | src/smartsom/domain/machine_events.py:28-49 | merged plans need no further condition for the bisected lookup |
| Routes.StaticRoutes.Search | src/smartsom/engine/base_routes.py:45-57 | multi-source breadth-first search maps precisely the cells that can reach a goal to their least number of steps |
| Routes.WithinIsWalk | src/smartsom/engine/base_routes.py:20-33 | the recursive distance bound used in the specification is the existence of a walk of that length |
| Routes.ExactUnique | src/smartsom/engine/base_routes.py:45-57 | there is only one such map, so the goal order does not matter |
| Routes.StaticRoutes.Distances | src/smartsom/engine/base_routes.py:45-57 | the goal-keyed cache never changes the answer |
| Routes.StaticRoutes.DistancesToOwner | src/smartsom/engine/base_routes.py:59-70 | the per-owner goal cache is refreshed when the port list changed, and distances that a caller dropped from the other cache (`Forget`) are searched again |
| Routes.StaticRoutes.ToOwner | src/smartsom/engine/base_routes.py:72-73 | the least number of steps to any of the owner's current ports, reached by one of them and undercut by none, and infinite exactly when none is reachable |
| Routes.StaticRoutes.Between | src/smartsom/engine/base_routes.py:75-80 | the minimum over all pairs of ports; fails exactly when the origin has none |
| Routes.StaticRoutes.Replace | src/smartsom/engine/base_routes.py:59-70 | all of this still holds after the port lists change |
| Baseline.NominalBaseline | src/smartsom/config/base_diagnostic.py:951-992 | the cost is that of some itinerary of capable machines, in which a machine that can run the next operation too keeps the job, and no itinerary is cheaper; an itinerary costs the least whole ticks of its fastest mode per operation plus travel and handling per walk; it fails exactly when there is no itinerary |
| Baseline.OrderIsBilled | src/smartsom/config/base_diagnostic.py:951-992 | the cost of a chain is the sum over its operations and its walks |
| Baseline.NextCosts | src/smartsom/config/base_diagnostic.py:957-984 | one row of the table has exactly the machines some chain ends at, each with its least cost |
| Baseline.LeastIsBest | src/smartsom/config/base_diagnostic.py:967-980 | the minimum over predecessors is the minimum over chains |
| Baseline.ChainGrows | src/smartsom/config/base_diagnostic.py:967-980 | chains grow by one machine and pay one walk and one processing more |
| GraphCopy.DetachedCopy | src/smartsom/_copy.py:11-24 | the copy terminates on every finite graph, cyclic or not, and is item by item the image of the source, injective, sharing exactly what reaches nothing mutable; the source is unchanged |
| GraphCopy.Copier.Clone | src/smartsom/_copy.py:27-102 | one call keeps memo, finished clones and clones under construction consistent and returns the image of its argument |
| GraphCopy.Copier.CloneContainer | src/smartsom/_copy.py:44-82 | lists and dictionaries get one fresh clone each, memoized before their items; the row of atoms shortcut gives the same |
| GraphCopy.Copier.CloneTuple | src/smartsom/_copy.py:83-100 | a tuple is reused exactly when every item is its own image, also when it was reached again through a mutable item |
| GraphCopy.SamePaths | src/smartsom/_copy.py:27-102 | the copy has exactly the index paths of the source, each leading to the image |
| GraphCopy.CopyKeepsAliases | src/smartsom/_copy.py:27-102 | two paths meet in the copy exactly when they meet in the source |
| GraphCopy.CopyIsDetached | src/smartsom/_copy.py:11-24 | no list or dictionary reachable from the copy belongs to the source, and what is shared is exactly what is immutable throughout |
| GraphCopy.PureIsUnreachable | src/smartsom/_copy.py:83-100 | sharing is allowed exactly for objects from which no path reaches a list or dictionary |
| GraphCopy.TupleReuse | src/smartsom/_copy.py:92-97 | the identity comparison of the items decides just that |
| ParallelEvaluation.CaseResults | src/smartsom/experiments/parallel_evaluation.py:75-180 | for every pool size and every interleaving of worker messages the output is a prefix of the serial results, and all of them unless a worker failed or is still busy |
| ParallelEvaluation.Dispatcher.Receive | src/smartsom/experiments/parallel_evaluation.py:134-172 | raises exactly on an error report, a closed pipe, an unknown message or another worker's case; otherwise every delivered result is kept |
| ParallelEvaluation.Dispatcher.Yield | src/smartsom/experiments/parallel_evaluation.py:173-180 | hands out the awaited case and sends the next pending one to the freed worker |
| ParallelEvaluation.Dispatcher.Bounded | src/smartsom/experiments/parallel_evaluation.py:109-132 | active and buffered cases never exceed the workers, and the awaited case is already dispatched |
| ParallelEvaluation.Dispatcher.Run | src/smartsom/experiments/parallel_evaluation.py:129-180 | waits only while the awaited case is with a worker |
| ParallelEvaluation.HeldCount | src/smartsom/experiments/parallel_evaluation.py:105-132 | active and buffered cases are as many as the dispatched and not yet yielded ones |
| Scenes.MergeFields | src/smartsom/config/scenario_authoring.py:33-44 | the in-place merge is the recursive one |
| Scenes.MergeBlends | src/smartsom/config/scenario_authoring.py:33-44 | the merge is the blend: every field of either side, a field of both blended when both are mappings of one mode, and otherwise the value's |
| Scenes.MergeReplaces | src/smartsom/config/scenario_authoring.py:33-44 | merging a value over a default gives the value exactly when it repeats the default's fields wherever mappings merge |
| Scenes.MergeDifferenceExactly | src/smartsom/config/scenario_authoring.py:505-506 | merge(d, difference(d, v)) = v if and only if v repeats every field of d, adds no null field, and every mapping it changes without a mode switch repeats its default's fields |
| Scenes.LostField | src/smartsom/config/scenario_authoring.py:505-506 | a concrete default and value for which the round trip loses the difference |
| Scenes.FromFactory | src/smartsom/config/scenario_authoring.py:266-354 | refuses exactly machines larger than one cell or with several operations; otherwise every shared default is the leading value of the items, or built in where no item has the field, every item gives exactly the parameters that differ from it and its machine's own rule, and a buffer leaves out its storage exactly if that is its role's |
| Scenes.Expand | src/smartsom/config/scenario_authoring.py:189-263 | refuses exactly unknown fields; otherwise every machine, vehicle and buffer has its own values blended over the defaults, field by field and through mappings of the same mode, the common rule is the defaults' breakdown completed from the built-in one, and a machine has its own rule exactly if that differs or is switched off, the last machine of a name deciding |
| Scenes.CommonAt | src/smartsom/config/scenario_authoring.py:494-502 | a shared default is there exactly if some item has the field, and is the value most items have, on a tie the one that comes first |
| Scenes.RoundTrip | src/smartsom/config/scenario_authoring.py:134-354 | expanding a compressed factory succeeds and returns every resource with its parameters, storage modes and batteries, and the fault rules |
| Scenes.UnchangedExactly | src/smartsom/config/scenario_authoring.py:266-354 | it returns the same factory if and only if no machine is rotated, and the same fault rules if and only if each single rule belongs to a machine and differs from the common one; every machine's effective rule is the same in any case |
| Scenes.RotationAndRuleLost | src/smartsom/config/scenario_authoring.py:266-354 | every rotated machine with a single rule equal to the common one comes back straight and without the rule |
| Scenes.SaveAndLoad | src/smartsom/config/scenario_authoring.py:189-354 | the same for the two programs one after the other |
| Scenes.BufferReturns | src/smartsom/config/scenario_authoring.py:242-245 | a storage left out comes back from the role default, a changed one survives, also across a mode switch |
| RuleProjection.Project | src/smartsom/algorithms/rule_actions.py:184-373 | fails exactly on a misconfigured rule set, an illegal custom choice or an empty result; otherwise every rule has one row per mode, every special action one, equal actions are aliases, and the projected candidates are exactly the available rows with distinct legal actions and their rule's code |
| RuleProjection.Best | src/smartsom/algorithms/rule_actions.py:328-345 | the least candidate of the pool by score, arrival and name, or none for an empty pool |
| Features.ScoreIsMerit | src/smartsom/algorithms/rule_actions.py:110-150 | on a feature vector as the observations encode it, every rule of a catalog scores the quantity it is named after: waiting time, distance, congestion, remaining work, slack and so on |
| Features.PoolMeans | src/smartsom/algorithms/rule_actions.py:264-330 | a rule may choose from exactly the candidates of the mode, restricted to stocked owners, to unfinished jobs with a machine to go to, to requests whose destinations are all machines, or to applicants whose idle times differ, as its name asks |
| Features.PickIsBest | src/smartsom/algorithms/rule_actions.py:328-345 | the picked candidate is one the rule allows, no other of its pool has less of that quantity, and of equals it is the pair whose vehicle arrived first, then the first by name |
| RuleProjection.MinimalIsUnique | src/smartsom/algorithms/rule_actions.py:328-345 | the tie-break determines the choice |
| RuleProjection.Projection.Emit | src/smartsom/algorithms/rule_actions.py:228-263 | an unavailable, alias or available row, and nothing else changes |
| RuleProjection.RowAdded | src/smartsom/algorithms/rule_actions.py:228-263 | each alias points to an earlier retained row with its action, and each available row is the first with its action |
| RuleProjection.Projection.KeepSpecial | src/smartsom/algorithms/rule_actions.py:346-366 | stop and waiting keep their own names and actions |
| RuleProjection.ResolvesLegally | src/smartsom/algorithms/rule_actions.py:376-383 | every retained rule resolves to the action it shows, which is one of the request's |
| RuleProjection.AliasesAreRepresented | src/smartsom/algorithms/rule_actions.py:376-383 | aliases and unavailable rules do not resolve, their representatives do |
| RuleProjection.BitsDetermineCode | src/smartsom/algorithms/rule_actions.py:86-87 | the rule code can be read back from its feature columns |
| RuleProjection.BitsSpell | src/smartsom/algorithms/rule_actions.py:86-87 | the columns are the two lowest binary digits of the code and the rest of it |
| RuleProjection.CodeMeans | src/smartsom/algorithms/rule_actions.py:205-207 | codes count from one: the catalog in its order, then each extension after those with an earlier name |
| RuleProjection.ModesMean | src/smartsom/algorithms/rule_actions.py:264-269 | a machine's modes are those of its candidates, each once and in order; any other request has one round |
| PortLookup.Build | src/smartsom/engine/port_lookup.py:69-112 | declines exactly when some record is not native; otherwise the index answers as the full scan, in every later heap in which its guards hold |
| PortLookup.SameScan | src/smartsom/engine/port_lookup.py:55-66 | records that are as they were give the same scan |
| PortLookup.EnterPort | src/smartsom/engine/port_lookup.py:76-105 | a port is listed once under exactly the keys it serves |
| PortLookup.Services.PortsFor | src/smartsom/engine/physical_services.py:30-45 | with the cached index, a rebuilt one or none, the answer is the full scan |
| Layout.Validate | src/smartsom/domain/factory_design.py:573-682 | no geometric issue is reported if and only if blocked cells, footprints, ports and vehicles are inside the grid, apart and on the floor |
| Layout.AcceptedGeometry | src/smartsom/domain/factory_design.py:871-894 | an accepted design of machines and buffers gives the simulator distinct walkable starting cells, no walkable solid cell and walkable ports |
| Layout.FloorsAgreeExactly | src/smartsom/engine/base_routes.py:9-19 | routes and the run-time check agree on the floor if and only if the accepted design has no charger, scrap bin or inspection station |
| Layout.ChargerOnTheFloor | src/smartsom/engine/base_routes.py:9-19 | an accepted design with a cell that routes may use and the run-time check refuses |
| Layout.OccupiedCells | src/smartsom/domain/factory_design.py:518-524 | row by row exactly the cells of the footprint |

## Left out

- Engine.Simulator.Accept: does not model which port of the owner becomes the target; services only need that the vehicle stands on one of them.
- Engine.Simulator.AdvanceTime: does not model the counters of machine status and physical ticks, which nothing reads back.
- Engine.Simulator.Step: does not model snapshots, the texts of errors and the metrics counters; the returned events are the new segment of the log.
- Engine.Simulator.FinishDelivery: does not model the "sink" slot and direct delivery to a machine without buffers, which the Base contract excludes; an Output is a buffer with slots.
- Engine.Simulator.Work: does not model the accumulated risk of a job, a statistic that no branch of the simulator reads.
- Negotiation.BaseProtocol.Negotiate: does not model candidate features, observations and the order in which candidates are listed, because answers are arbitrary.
- Central.CentralControl.Choose: does not model which port of the next owner becomes the target, as for acceptance.
- LocalFacts.ReadPhase.ReadyOf: gives the loadable jobs as a set, whereas the code sorts them; policies choose among them freely.
- LocalFacts.ReadPhase.QuotaOf: does not model the nominal-time and feature caches and the switch that turns caching off for overridden queries.
- Baseline.NominalBaseline: costs and rates are exact, whereas the code divides floats before rounding up; distances are a parameter, proved separately for the routes.
- Routes.StaticRoutes.DistancesToOwner: does not model callers that edit a returned distance map in place.
- Outages.GenerateOutages: does not model how uptimes and repairs are drawn; they are arbitrary positive tick counts.
- GraphCopy.DetachedCopy: does not model extension hooks, changed copy registrations and keeping sources alive; dictionaries are their values and keys in copying order, so two keys that become equal when copied are not modelled.
- ParallelEvaluation.CaseResults: does not model pipes, process start and join, cancellation and the exception classes; a worker's result is the evaluation of the case it names, and a finite log of messages may end while cases are still running.
- Scenes.SaveAndLoad: does not model the conversion of decimals and models to text and back, field validation beyond unknown names, and the editor operations that reconcile a scene with an edited design.
- RuleProjection.Project: requires a request that passes validation and does not model social links and the texts in the audit.
- Features.ScoreIsMerit: names the numbers of a candidate; how observations compute them from the state is not modelled.
- PortLookup.Services.PortsFor: does not model a replaced target decoder, which always scans, and compares records by value where the code compares by identity, so the index may be kept in more cases than in the code.
- Layout.Validate: is the geometric part; identifiers, slots and roles are conditions in `Admission.DesignAccepts`, and port bindings, disposal bins and capability warnings are not modelled.
- Admission.AcceptedIsWellFormed: does not model the checks that no theorem here needs: capable machines for every operation, declared work, samples, headings, vehicle capacity and speed, and the operation types of the Base contract.
- Deadlock freedom and eventual shipment of all demands: the code does not promise them.
- Policies, learners, movers, critic features and dashboards: arbitrary answers.
- YAML, JSON and model decoding, digests, run directories, locks, checkpoints and queues: file contents and operating system behaviour.
- Inspection stations, scrap bins, chargers, batteries in use, travel-time matrices and attempts after the first: outside the current runtime contract.
