/** The invariant of every reachable state: what each holder may hold, what each vehicle may be
    doing, and the reservation limits the protocol asserts at run time. */
module Safety {
  import opened Collections
  import opened Factory
  import opened Custody

  // -- product flow ----------------------------------------------------------------------------

  /** The next operation of the job can run on the machine. */
  predicate Capable(c: Scenario, j: JobId, step: nat, m: MachineId) {
    && j.demand in c.demands && m in c.machines && step < |c.demands[j.demand].steps|
    && c.demands[j.demand].steps[step].opType in c.machines[m].types
  }

  /** `destination_owners` as a predicate. */
  predicate IsDestination(c: Scenario, j: JobId, step: nat, b: BufferId) {
    && j.demand in c.demands && b in c.buffers
    && if step < |c.demands[j.demand].steps|
       then c.buffers[b].role.Pre? && Capable(c, j, step, c.buffers[b].role.machine)
       else c.buffers[b].role.Output?
  }

  predicate IsSource(c: Scenario, b: BufferId) {
    b in c.buffers && (c.buffers[b].role.Input? || c.buffers[b].role.Post?)
  }

  /** A PRE job can be processed there, a POST job cannot, an Output job is finished. */
  ghost predicate RowFits(c: Scenario, j: JobId, row: JobRow) {
    && j.demand in c.demands && row.step <= |c.demands[j.demand].steps|
    && (row.loc.Stored? ==>
          && row.loc.place.owner in c.buffers
          && match c.buffers[row.loc.place.owner].role
             case Input => true
             case Output => row.step == |c.demands[j.demand].steps|
             case Pre(m) => Capable(c, j, row.step, m)
             case Post(m) => !Capable(c, j, row.step, m))
  }

  ghost predicate JobsOk(c: Scenario, jobs: map<JobId, JobRow>) {
    forall j {:trigger RowFits(c, j, jobs[j])} :: j in jobs ==> RowFits(c, j, jobs[j])
  }

  ghost predicate MachineOk(c: Scenario, jobs: map<JobId, JobRow>, m: MachineId, row: MachineRow) {
    && (row.job.None? <==> row.status.Idle?)
    && (row.job.Some? ==> row.job.value in jobs)
    && (row.status.Processing? ==> row.remaining >= 1 && row.mode.Some? && m in c.machines && row.mode.value in c.machines[m].modes)
    && (row.status.Processing? || row.status.Ready? ==> Capable(c, row.job.value, jobs[row.job.value].step, m))
  }

  ghost predicate MachinesOk(c: Scenario, jobs: map<JobId, JobRow>, machines: map<MachineId, MachineRow>) {
    forall m {:trigger MachineOk(c, jobs, m, machines[m])} :: m in machines ==> MachineOk(c, jobs, m, machines[m])
  }

  // -- vehicles --------------------------------------------------------------------------------

  ghost predicate ServiceOk(c: Scenario, jobs: map<JobId, JobRow>, a: AgvRow, x: Service) {
    && a.target == Some(x.place.owner) && x.remaining == 1 && x.job in jobs
    && x.place.owner in c.ports && a.cell in c.ports[x.place.owner]
    && x.place.owner in c.buffers && x.place.slot in c.buffers[x.place.owner].capacity
    && match x.kind
       case Pickup => a.job.None? && jobs[x.job].loc == Stored(x.place)
       case DropOff => a.job == Some(x.job)
  }

  ghost predicate VehicleOk(c: Scenario, jobs: map<JobId, JobRow>, a: AgvRow) {
    && a.cell in c.walkable
    && (a.job.Some? ==> a.job.value in jobs)
    && (a.target.Some? && a.job.None? ==> IsSource(c, a.target.value))
    && (a.target.Some? && a.job.Some? ==> IsDestination(c, a.job.value, jobs[a.job.value].step, a.target.value))
    && (a.service.Some? ==> ServiceOk(c, jobs, a, a.service.value))
  }

  predicate Loading(a: AgvRow, j: JobId) {
    a.service.Some? && a.service.value.kind.Pickup? && a.service.value.job == j
  }

  ghost predicate VehiclesOk(c: Scenario, jobs: map<JobId, JobRow>, agvs: map<AgvId, AgvRow>) {
    && (forall v {:trigger VehicleOk(c, jobs, agvs[v])} :: v in agvs ==> VehicleOk(c, jobs, agvs[v]))
    && (forall v, w {:trigger Compatible(agvs[v], agvs[w])} ::
          v in agvs && w in agvs && v != w ==> Compatible(agvs[v], agvs[w]))
  }

  /** Two vehicles never share a cell nor load the same job. */
  ghost predicate Compatible(a: AgvRow, b: AgvRow) {
    && a.cell != b.cell
    && (a.service.Some? && a.service.value.kind.Pickup? ==> !Loading(b, a.service.value.job))
  }

  // -- reservations ----------------------------------------------------------------------------

  /** A vehicle counts against an owner while it is heading there, or while a central assignment
      will bring it there. An empty vehicle without a target has already delivered. */
  predicate CommitsTo(agvs: map<AgvId, AgvRow>, tasks: map<AgvId, Assignment>, v: AgvId, b: BufferId)
    requires v in agvs
  {
    || agvs[v].target == Some(b)
    || (v in tasks && tasks[v].destination == b && (agvs[v].job.Some? || agvs[v].target.Some?))
  }

  ghost function Commits(agvs: map<AgvId, AgvRow>, tasks: map<AgvId, Assignment>, b: BufferId): set<AgvId> {
    set v | v in agvs && CommitsTo(agvs, tasks, v, b)
  }

  predicate AtStation(c: Scenario, loc: Location, m: MachineId)
    requires m in c.pre && m in c.post
  {
    || loc == AtMachine(m)
    || (loc.Stored? && (loc.place.owner == c.pre[m] || loc.place.owner == c.post[m]))
  }

  /** Jobs inside a station: PRE, POST and the machine. */
  ghost function Load(c: Scenario, jobs: map<JobId, JobRow>, m: MachineId): set<JobId>
    requires m in c.pre && m in c.post
  {
    set j | j in jobs && AtStation(c, jobs[j].loc, m)
  }

  /** Jobs a pickup commitment may count on: the stock of a source, and for a POST the started job. */
  predicate Supplies(c: Scenario, loc: Location, b: BufferId)
    requires b in c.buffers
  {
    || (loc.Stored? && loc.place.owner == b)
    || (loc.AtMachine? && c.buffers[b].role == Post(loc.machine))
  }

  ghost function Supply(c: Scenario, jobs: map<JobId, JobRow>, b: BufferId): set<JobId>
    requires b in c.buffers
  {
    set j | j in jobs && Supplies(c, jobs[j].loc, b)
  }

  predicate Locks(a: AgvRow, p: Place) {
    a.service.Some? && a.service.value.kind.DropOff? && a.service.value.place == p
  }

  ghost function Locked(agvs: map<AgvId, AgvRow>, p: Place): set<AgvId> {
    set v | v in agvs && Locks(agvs[v], p)
  }

  function SlotTotal(cap: map<SlotId, Option<nat>>, slots: seq<SlotId>): nat
    requires forall k :: k in slots ==> k in cap
  {
    if slots == [] then 0
    else (if cap[slots[0]].Some? then cap[slots[0]].value else 0) + SlotTotal(cap, slots[1..])
  }

  function StationCapacity(c: Scenario, m: MachineId): nat
    requires WellFormed(c) && m in c.machines
  {
    assert GoodMachine(c, m) && GoodBuffer(c, c.pre[m]) && GoodBuffer(c, c.post[m]);
    var a, b := c.buffers[c.pre[m]], c.buffers[c.post[m]];
    1 + SlotTotal(a.capacity, a.declared) + SlotTotal(b.capacity, b.declared)
  }

  ghost predicate StationFits(c: Scenario, jobs: map<JobId, JobRow>, agvs: map<AgvId, AgvRow>,
                              tasks: map<AgvId, Assignment>, m: MachineId)
    requires WellFormed(c) && m in c.machines
  {
    assert GoodMachine(c, m);
    |Load(c, jobs, m)| + |Commits(agvs, tasks, c.pre[m])| <= StationCapacity(c, m)
  }

  ghost predicate StationsFit(c: Scenario, jobs: map<JobId, JobRow>, agvs: map<AgvId, AgvRow>,
                              tasks: map<AgvId, Assignment>)
    requires WellFormed(c)
  {
    forall m {:trigger StationFits(c, jobs, agvs, tasks, m)} :: m in c.machines ==> StationFits(c, jobs, agvs, tasks, m)
  }

  ghost predicate SuppliesCover(c: Scenario, jobs: map<JobId, JobRow>, agvs: map<AgvId, AgvRow>,
                                tasks: map<AgvId, Assignment>)
  {
    forall b {:trigger SourceCovered(c, jobs, agvs, tasks, b)} ::
      IsSource(c, b) ==> SourceCovered(c, jobs, agvs, tasks, b)
  }

  ghost predicate SourceCovered(c: Scenario, jobs: map<JobId, JobRow>, agvs: map<AgvId, AgvRow>,
                                tasks: map<AgvId, Assignment>, b: BufferId)
    requires b in c.buffers
  {
    |Commits(agvs, tasks, b)| <= |Supply(c, jobs, b)|
  }

  ghost predicate LocksFit(c: Scenario, storage: map<Place, seq<JobId>>, agvs: map<AgvId, AgvRow>) {
    forall p {:trigger PlaceFits(c, storage, agvs, p)} :: p in storage ==> PlaceFits(c, storage, agvs, p)
  }

  ghost predicate PlaceFits(c: Scenario, storage: map<Place, seq<JobId>>, agvs: map<AgvId, AgvRow>, p: Place)
    requires p in storage
  {
    && KnownPlace(c, p)
    && var cap := c.buffers[p.owner].capacity[p.slot];
       cap.Some? ==> |storage[p]| + |Locked(agvs, p)| <= cap.value
  }

  // -- the centralized controller --------------------------------------------------------------

  ghost predicate AssignmentOk(c: Scenario, jobs: map<JobId, JobRow>, a: AgvRow, x: Assignment) {
    && x.job in jobs && x.destination in c.buffers
    && (a.job.Some? ==> a.job.value == x.job && a.target in {None, Some(x.destination)}
                        && IsDestination(c, x.job, jobs[x.job].step, x.destination))
    && (a.job.None? && a.target.Some? ==>
          && jobs[x.job].loc.Stored? && a.target == Some(jobs[x.job].loc.place.owner)
          && IsDestination(c, x.job, jobs[x.job].step, x.destination))
    && (a.job.None? && a.target.None? ==>
          jobs[x.job].loc.Stored? && jobs[x.job].loc.place.owner == x.destination)
    && (a.service.Some? ==> a.service.value.job == x.job)
  }

  /** Without a central controller nothing is assigned; with one, every reservation belongs to an
      assignment and no job is assigned twice. */
  ghost predicate ControlOk(c: Scenario, jobs: map<JobId, JobRow>, agvs: map<AgvId, AgvRow>,
                            tasks: map<AgvId, Assignment>)
  {
    && (!c.central ==> tasks == map[])
    && tasks.Keys <= agvs.Keys
    && (forall v {:trigger AssignmentOk(c, jobs, agvs[v], tasks[v])} ::
          v in tasks ==> AssignmentOk(c, jobs, agvs[v], tasks[v]))
    && (forall v, w {:trigger OtherJob(tasks[v], tasks[w])} ::
          v in tasks && w in tasks && v != w ==> OtherJob(tasks[v], tasks[w]))
    && (c.central ==> forall v {:trigger TargetAssigned(agvs, tasks, v)} :: v in agvs ==> TargetAssigned(agvs, tasks, v))
  }

  ghost predicate OtherJob(x: Assignment, y: Assignment) {
    x.job != y.job
  }

  ghost predicate TargetAssigned(agvs: map<AgvId, AgvRow>, tasks: map<AgvId, Assignment>, v: AgvId)
    requires v in agvs
  {
    agvs[v].target.Some? ==> v in tasks
  }

  // -- demands ---------------------------------------------------------------------------------

  /** One attempt per released demand; a demand is shipped exactly when its job is in an Output. */
  ghost predicate LedgerOk(c: Scenario, jobs: map<JobId, JobRow>, l: Ledger) {
    && l.released <= c.demands.Keys && l.good <= l.shipped <= l.released && l.shipmentTimes.Keys == l.shipped
    && l.attempts.Keys == l.released
    && (forall d {:trigger Attempted(jobs, l, d)} :: d in l.released ==> Attempted(jobs, l, d))
    && (forall j {:trigger LedgerRow(c, jobs[j], j, l)} :: j in jobs ==> LedgerRow(c, jobs[j], j, l))
  }

  ghost predicate Attempted(jobs: map<JobId, JobRow>, l: Ledger, d: DemandId) {
    d in l.attempts && l.attempts[d] == 1 && Job(d, 1) in jobs
  }

  ghost predicate LedgerRow(c: Scenario, row: JobRow, j: JobId, l: Ledger) {
    j.demand in l.released && j.attempt == 1 && (j.demand in l.shipped <==> InOutput(c, row.loc))
  }

  predicate InOutput(c: Scenario, loc: Location) {
    loc.Stored? && loc.place.owner in c.buffers && c.buffers[loc.place.owner].role.Output?
  }

  ghost predicate Inv(c: Scenario, s: State)
    requires WellFormed(c)
  {
    && Shaped(c, s) && Held(s)
    && JobsOk(c, s.jobs) && MachinesOk(c, s.jobs, s.machines) && VehiclesOk(c, s.jobs, s.agvs)
    && StationsFit(c, s.jobs, s.agvs, s.assignments) && SuppliesCover(c, s.jobs, s.agvs, s.assignments)
    && LocksFit(c, s.storage, s.agvs)
    && ControlOk(c, s.jobs, s.agvs, s.assignments)
    && LedgerOk(c, s.jobs, s.ledger)
  }

  // -- counting --------------------------------------------------------------------------------

  lemma LoadAfter(c: Scenario, jobs: map<JobId, JobRow>, j: JobId, row: JobRow, m: MachineId)
    requires m in c.pre && m in c.post && j in jobs
    ensures |Load(c, jobs[j := row], m)| == |Load(c, jobs, m)|
              - (if AtStation(c, jobs[j].loc, m) then 1 else 0) + (if AtStation(c, row.loc, m) then 1 else 0)
  {
    SwapCount(Load(c, jobs, m), Load(c, jobs[j := row], m), j);
  }

  lemma SupplyAfter(c: Scenario, jobs: map<JobId, JobRow>, j: JobId, row: JobRow, b: BufferId)
    requires b in c.buffers && j in jobs
    ensures |Supply(c, jobs[j := row], b)| == |Supply(c, jobs, b)|
              - (if Supplies(c, jobs[j].loc, b) then 1 else 0) + (if Supplies(c, row.loc, b) then 1 else 0)
  {
    SwapCount(Supply(c, jobs, b), Supply(c, jobs[j := row], b), j);
  }

  lemma CommitsAfter(agvs: map<AgvId, AgvRow>, tasks: map<AgvId, Assignment>,
                     agvs': map<AgvId, AgvRow>, tasks': map<AgvId, Assignment>, v: AgvId, b: BufferId)
    requires v in agvs && agvs'.Keys == agvs.Keys
    requires forall w :: w in agvs && w != v ==> agvs'[w] == agvs[w] && (w in tasks <==> w in tasks')
    requires forall w :: w in agvs && w != v && w in tasks ==> tasks'[w] == tasks[w]
    ensures |Commits(agvs', tasks', b)| == |Commits(agvs, tasks, b)|
              - (if CommitsTo(agvs, tasks, v, b) then 1 else 0) + (if CommitsTo(agvs', tasks', v, b) then 1 else 0)
  {
    SwapCount(Commits(agvs, tasks, b), Commits(agvs', tasks', b), v);
  }

  lemma LockedAfter(agvs: map<AgvId, AgvRow>, v: AgvId, a: AgvRow, p: Place)
    requires v in agvs
    ensures |Locked(agvs[v := a], p)| == |Locked(agvs, p)|
              - (if Locks(agvs[v], p) then 1 else 0) + (if Locks(a, p) then 1 else 0)
  {
    SwapCount(Locked(agvs, p), Locked(agvs[v := a], p), v);
  }
}
