/** The frozen scenario and the mutable execution state of the production simulator. */
module Factory {
  import opened Collections
  import opened Availability

  // Identifiers are numbers whose order stands for the order of the identifier strings.
  type MachineId = nat
  type BufferId = nat
  type SlotId = nat
  type AgvId = nat
  type DemandId = nat
  type OpType = nat
  type ModeId = nat

  datatype Cell = Cell(x: int, y: int)
  datatype Place = Place(owner: BufferId, slot: SlotId)
  /** `<demand>/attempt/<n>` */
  datatype JobId = Job(demand: DemandId, attempt: nat)

  datatype Role = Input | Output | Pre(machine: MachineId) | Post(machine: MachineId)

  /** `sorted` lists the slots by identifier, `declared` in design order. */
  datatype Buffer = Buffer(role: Role, sorted: seq<SlotId>, declared: seq<SlotId>, capacity: map<SlotId, Option<nat>>)
  datatype Mode = Mode(timeScale: real, errorRate: real)
  datatype Machine = Machine(types: set<OpType>, rate: real, modes: map<ModeId, Mode>)
  datatype Step = Step(opType: OpType, ticks: real, overrides: map<MachineId, real>)
  datatype Demand = Demand(steps: seq<Step>, releaseAt: int, dueAt: int, input: BufferId)

  /** Draws and samples are arbitrary: `processingDraw` and `qualityDraw` stand for the hashed draws,
      `samples` for the optional frozen durations. */
  datatype Scenario = Scenario(
    machineIds: seq<MachineId>, machines: map<MachineId, Machine>,
    bufferIds: seq<BufferId>, buffers: map<BufferId, Buffer>,
    pre: map<MachineId, BufferId>, post: map<MachineId, BufferId>,
    agvIds: seq<AgvId>, start: map<AgvId, Cell>,
    solids: set<Cell>, walkable: set<Cell>, ports: map<BufferId, set<Cell>>,
    demandIds: seq<DemandId>, demands: map<DemandId, Demand>,
    outages: seq<Outage>, dynamic: bool, tickLimit: int, penalty: real,
    low: real, high: real, ceilRounding: bool,
    processingDraw: (JobId, nat) -> real, qualityDraw: (JobId, nat) -> real,
    samples: map<(JobId, nat, MachineId), nat>,
    reaches: (Cell, BufferId) -> bool, central: bool)

  datatype Status = Idle | Processing | Blocked | Ready
  datatype Quality = Unknown | Passed | Failed
  datatype Location = Queued | Stored(place: Place) | AtMachine(machine: MachineId) | OnAgv(agv: AgvId)
  datatype JobRow = JobRow(step: nat, loc: Location, since: int, quality: Quality, defective: bool, confirmed: bool)
  datatype MachineRow = MachineRow(
    job: Option<JobId>, status: Status, remaining: int, elapsed: int, nominal: int, mode: Option<ModeId>, down: bool)
  datatype Kind = Pickup | DropOff
  datatype Service = Service(kind: Kind, job: JobId, place: Place, startedAt: int, remaining: int)
  datatype AgvRow = AgvRow(
    cell: Cell, job: Option<JobId>, target: Option<BufferId>, service: Option<Service>, arrivedAt: int)
  datatype Assignment = Assignment(job: JobId, destination: BufferId)

  datatype Event =
    | DemandReleased(tick: int, demand: DemandId)
    | AttemptQueued(tick: int, job: JobId)
    | InputAdmitted(tick: int, job: JobId, place: Place)
    | Breakdown(tick: int, machine: MachineId)
    | Repair(tick: int, machine: MachineId)
    | Retained(tick: int, machine: MachineId, job: JobId)
    | MachineReleased(tick: int, job: JobId, machine: MachineId, place: Place)
    | Moved(tick: int, agv: AgvId, before: Cell, after: Cell)
    | Rejected(tick: int, agv: AgvId, conflict: bool)
    | ProcessingStarted(tick: int, machine: MachineId, job: JobId, mode: ModeId, nominal: int, actual: int)
    | ProcessingCompleted(tick: int, job: JobId, machine: MachineId, step: nat, elapsed: int)
    | QualityRevealed(tick: int, job: JobId, quality: Quality, first: bool)
    | Transferred(tick: int, kind: Kind, agv: AgvId, job: JobId, place: Place)
    | ServiceStarted(tick: int, kind: Kind, agv: AgvId, job: JobId, place: Place)
    | ServiceCompleted(tick: int, kind: Kind, agv: AgvId, job: JobId)
    | ServiceInterrupted(tick: int, agv: AgvId, service: Service)
    | ReservationAccepted(tick: int, agv: AgvId, owner: BufferId)
    | ReservationCancelled(tick: int, agv: AgvId, owner: BufferId)
    | TaskAssigned(tick: int, agv: AgvId, job: JobId, destination: BufferId)

  /** Demand progress: released, attempts made, shipped, when, and shipped without defect. */
  datatype Ledger = Ledger(
    released: set<DemandId>, attempts: map<DemandId, nat>,
    shipped: set<DemandId>, shipmentTimes: map<DemandId, int>, good: set<DemandId>)

  /** `log` is every event of the run so far; the event list a step returns is a segment of it. */
  datatype State = State(
    tick: int, jobs: map<JobId, JobRow>, queue: seq<JobId>, storage: map<Place, seq<JobId>>,
    machines: map<MachineId, MachineRow>, agvs: map<AgvId, AgvRow>,
    ledger: Ledger,
    idleSince: map<AgvId, int>,
    assignments: map<AgvId, Assignment>, log: seq<Event>)

  ghost predicate KnownPlace(c: Scenario, p: Place) {
    p.owner in c.buffers && p.slot in c.buffers[p.owner].capacity
  }

  ghost predicate GoodBuffer(c: Scenario, b: BufferId) {
    && b in c.buffers && b in c.ports
    && var x := c.buffers[b];
    && NoDup(x.declared) && NoDup(x.sorted)
    && (forall k :: k in x.capacity <==> k in x.declared) && (forall k :: k in x.capacity <==> k in x.sorted)
    && (x.role.Pre? ==> x.role.machine in c.machines && x.role.machine in c.pre && c.pre[x.role.machine] == b)
    && (x.role.Post? ==> x.role.machine in c.machines && x.role.machine in c.post && c.post[x.role.machine] == b)
    && (x.role.Pre? || x.role.Post? ==> forall k :: k in x.capacity ==> x.capacity[k].Some?)
  }

  ghost predicate GoodMachine(c: Scenario, m: MachineId) {
    && m in c.machines && c.machines[m].rate > 0.0
    && (forall k :: k in c.machines[m].modes ==> c.machines[m].modes[k].timeScale > 0.0)
    && m in c.pre && c.pre[m] in c.buffers && c.buffers[c.pre[m]].role == Pre(m)
    && m in c.post && c.post[m] in c.buffers && c.buffers[c.post[m]].role == Post(m)
  }

  ghost predicate GoodDemand(c: Scenario, d: DemandId) {
    && d in c.demands && |c.demands[d].steps| > 0 && c.demands[d].releaseAt >= 0
    && c.demands[d].input in c.buffers && c.buffers[c.demands[d].input].role == Input
  }

  /** What the scenario constructors, `validate_production_scenario` and `validate_base_factory`
      establish, together with the absence of chargers (solids and walkable cells are then disjoint);
      `Admission` proves it. */
  ghost predicate WellFormed(c: Scenario) {
    && NoDup(c.machineIds) && SetOf(c.machineIds) == c.machines.Keys
    && NoDup(c.bufferIds) && SetOf(c.bufferIds) == c.buffers.Keys
    && NoDup(c.agvIds) && SetOf(c.agvIds) == c.start.Keys && |c.agvIds| > 0
    && NoDup(c.demandIds) && SetOf(c.demandIds) == c.demands.Keys && |c.demandIds| > 0
    && (forall b {:trigger GoodBuffer(c, b)} :: b in c.buffers ==> GoodBuffer(c, b))
    && (forall m {:trigger GoodMachine(c, m)} :: m in c.machines ==> GoodMachine(c, m))
    && (forall d {:trigger GoodDemand(c, d)} :: d in c.demands ==> GoodDemand(c, d))
    && (forall v, w {:trigger StartApart(c, v, w)} :: v in c.start && w in c.start ==> StartApart(c, v, w))
    && c.walkable !! c.solids
    && c.tickLimit > 0 && 0.0 < c.low <= c.high
  }

  ghost predicate StartApart(c: Scenario, v: AgvId, w: AgvId)
    requires v in c.start && w in c.start
  {
    c.start[v] in c.walkable && (v != w ==> c.start[v] != c.start[w])
  }

  function Max(a: int, b: int): int {
    if a < b then b else a
  }
}
