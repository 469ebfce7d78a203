/** One committed interval of the simulator, its guards, its reward, and the initial state. */
module Stepping {
  import opened Collections
  import opened Availability
  import opened Factory
  import opened Custody
  import opened Safety
  import opened Operations
  import opened Handling
  import opened Deliveries
  import opened Reservations
  import opened Settling
  import opened Physics
  import Movement

  // -- processing ------------------------------------------------------------------------------

  /** No running machine would pass its completion inside the interval. */
  ghost predicate Reachable(s: State, k: int) {
    k >= 1 && forall m {:trigger WithinWork(s.machines, m, k)} :: m in s.machines ==> WithinWork(s.machines, m, k)
  }

  ghost predicate WithinWork(machines: map<MachineId, MachineRow>, m: MachineId, k: int)
    requires m in machines
  {
    machines[m].status.Processing? && !machines[m].down ==> k <= machines[m].remaining
  }

  lemma OneTickIsReachable(c: Scenario, s: State)
    requires WellFormed(c) && Inv(c, s)
    ensures Reachable(s, 1)
  {
    forall m | m in s.machines ensures WithinWork(s.machines, m, 1) {
      assert MachineOk(c, s.jobs, m, s.machines[m]);
    }
  }

  // Processing reads and changes only jobs, machines and the log.
  datatype Shop = Shop(jobs: Rows, machines: Machines, log: seq<Event>)

  function ShopOf(s: State): Shop {
    Shop(s.jobs, s.machines, s.log)
  }

  function WithShop(s: State, x: Shop): State {
    s.(jobs := x.jobs, machines := x.machines, log := x.log)
  }

  /** A running machine has its job and a known mode. */
  ghost predicate Workable(c: Scenario, x: Shop) {
    forall m {:trigger WorkableRow(c, x, m)} :: m in x.machines ==> WorkableRow(c, x, m)
  }

  ghost predicate WorkableRow(c: Scenario, x: Shop, m: MachineId)
    requires m in x.machines
  {
    x.machines[m].status.Processing? ==>
      && x.machines[m].job.Some? && x.machines[m].job.value in x.jobs
      && m in c.machines && x.machines[m].mode.Some? && x.machines[m].mode.value in c.machines[m].modes
  }

  function ShopWork(c: Scenario, tick: int, x: Shop, m: MachineId, k: int): Shop
    requires m in x.machines && WorkableRow(c, x, m)
  {
    var row := x.machines[m];
    if !row.status.Processing? || row.down then x
    else if row.remaining != k then
      x.(machines := x.machines[m := row.(remaining := row.remaining - k, elapsed := row.elapsed + k)])
    else
      var j := row.job.value;
      var r := x.jobs[j];
      var defect := c.qualityDraw(j, r.step) < c.machines[m].modes[row.mode.value].errorRate;
      Shop(x.jobs[j := r.(defective := r.defective || defect, quality := Unknown, step := r.step + 1)],
           x.machines[m := row.(remaining := 0, elapsed := row.elapsed + k, status := Blocked)],
           x.log + [ProcessingCompleted(tick, j, m, r.step, row.elapsed + k)])
  }

  lemma ShopWorkKeeps(c: Scenario, tick: int, x: Shop, m: MachineId, k: int)
    requires Workable(c, x) && m in x.machines && WorkableRow(c, x, m)
    ensures Workable(c, ShopWork(c, tick, x, m, k)) && ShopWork(c, tick, x, m, k).machines.Keys == x.machines.Keys
  {
    var y := ShopWork(c, tick, x, m, k);
    forall w | w in y.machines ensures WorkableRow(c, y, w) { assert WorkableRow(c, x, w); }
  }

  function ShopWorks(c: Scenario, tick: int, x: Shop, n: nat, k: int): (y: Shop)
    requires Workable(c, x) && n <= |c.machineIds| && forall m :: m in c.machineIds ==> m in x.machines
    ensures Workable(c, y) && y.machines.Keys == x.machines.Keys
  {
    if n == 0 then x
    else
      var y := ShopWorks(c, tick, x, n - 1, k);
      var m := c.machineIds[n - 1];
      assert WorkableRow(c, y, m);
      ShopWorkKeeps(c, tick, y, m, k);
      ShopWork(c, tick, y, m, k)
  }

  lemma InvWorkable(c: Scenario, s: State)
    requires WellFormed(c) && Inv(c, s)
    ensures Workable(c, ShopOf(s)) && forall m :: m in c.machineIds ==> m in s.machines
  {
    assert forall m :: m in c.machineIds ==> m in SetOf(c.machineIds);
    forall m | m in s.machines ensures WorkableRow(c, ShopOf(s), m) { assert MachineOk(c, s.jobs, m, s.machines[m]); }
  }

  lemma WorkIsShopWork(c: Scenario, s: State, m: MachineId, k: int)
    requires WellFormed(c) && Inv(c, s) && m in c.machines && WorkableRow(c, ShopOf(s), m)
    ensures Work(c, s, m, k) == WithShop(s, ShopWork(c, s.tick, ShopOf(s), m, k))
  {
  }

  /** Processing changes machine rows, the finished jobs' rows and the log. */
  ghost predicate OnlyWork(s: State, t: State) {
    t == s.(machines := t.machines, jobs := t.jobs, log := t.log) && t.machines.Keys == s.machines.Keys
  }

  ghost predicate Unworked(c: Scenario, before: Machines, after: Machines, n: nat) {
    forall i {:trigger c.machineIds[i]} :: n <= i < |c.machineIds| && c.machineIds[i] in before && c.machineIds[i] in after ==>
      after[c.machineIds[i]] == before[c.machineIds[i]]
  }

  lemma WorkFrame(c: Scenario, s: State, u: State, m: MachineId, k: int)
    requires WellFormed(c) && Inv(c, u) && m in c.machines && OnlyWork(s, u)
    ensures OnlyWork(s, Work(c, u, m, k))
    ensures forall x :: x in u.machines && x != m ==> Work(c, u, m, k).machines[x] == u.machines[x]
  {
    assert MachineOk(c, u.jobs, m, u.machines[m]);
  }

  lemma UnworkedStep(c: Scenario, before: Machines, middle: Machines, after: Machines, n: nat)
    requires NoDup(c.machineIds) && 0 < n <= |c.machineIds| && middle.Keys == after.Keys
    requires Unworked(c, before, middle, n - 1)
    requires forall x :: x in middle && x != c.machineIds[n - 1] ==> after[x] == middle[x]
    ensures Unworked(c, before, after, n)
  {
    forall i | n <= i < |c.machineIds| && c.machineIds[i] in before && c.machineIds[i] in after
      ensures after[c.machineIds[i]] == before[c.machineIds[i]]
    {
      NoDupIndex(c.machineIds, n - 1, i);
    }
  }

  function Works(c: Scenario, s: State, n: nat, k: int): (t: State)
    requires WellFormed(c) && Inv(c, s) && n <= |c.machineIds| && Reachable(s, k)
    ensures Inv(c, t) && OnlyWork(s, t) && Unworked(c, s.machines, t.machines, n)
    ensures Workable(c, ShopOf(s)) && (forall m :: m in c.machineIds ==> m in s.machines)
            && t == WithShop(s, ShopWorks(c, s.tick, ShopOf(s), n, k))
  {
    InvWorkable(c, s);
    if n == 0 then s
    else
      var u := Works(c, s, n - 1, k);
      var m := c.machineIds[n - 1];
      assert m in SetOf(c.machineIds);
      assert WithinWork(s.machines, m, k);
      WorkKeeps(c, u, m, k);
      WorkFrame(c, s, u, m, k);
      assert WorkableRow(c, ShopOf(u), m);
      WorkIsShopWork(c, u, m, k);
      UnworkedStep(c, s.machines, u.machines, Work(c, u, m, k).machines, n);
      Work(c, u, m, k)
  }

  /** `_advance` */
  function Advance(c: Scenario, s: State, k: int): (t: State)
    requires WellFormed(c) && Inv(c, s) && Reachable(s, k)
    ensures Inv(c, t) && t.tick == s.tick && Aimed(t.agvs, t.assignments) && ClocksKnown(c, t)
    ensures t.ledger.released == s.ledger.released && Ships(s.ledger, t.ledger, s.tick)
  {
    var u := CompleteServices(c, s);
    assert Reachable(u, k) by {
      forall m | m in u.machines ensures WithinWork(u.machines, m, k) { assert WithinWork(s.machines, m, k); }
    }
    Works(c, u, |c.machineIds|, k)
  }

  // -- movement --------------------------------------------------------------------------------

  datatype Action = Wait | Up | Down | Left | Right

  function Shift(cell: Cell, a: Action): Cell {
    match a
    case Wait => cell
    case Up => Cell(cell.x, cell.y - 1)
    case Down => Cell(cell.x, cell.y + 1)
    case Left => Cell(cell.x - 1, cell.y)
    case Right => Cell(cell.x + 1, cell.y)
  }

  type Actions = map<AgvId, Action>

  function ActionOf(acts: Actions, v: AgvId): Action {
    if v in acts then acts[v] else Wait
  }

  /** `mover_mask`: a serving vehicle may only wait; a move must end on a walkable cell. */
  predicate Permitted(c: Scenario, a: AgvRow, act: Action) {
    act.Wait? || (a.service.None? && Shift(a.cell, act) in c.walkable)
  }

  function CellsOf(agvs: map<AgvId, AgvRow>): (r: Movement.Cells)
    ensures r.Keys == agvs.Keys
  {
    map v | v in agvs :: agvs[v].cell
  }

  function MovesOf(c: Scenario, agvs: map<AgvId, AgvRow>, acts: Actions): (r: Movement.Cells)
    ensures r.Keys <= agvs.Keys
  {
    map v | v in agvs && !ActionOf(acts, v).Wait? && Permitted(c, agvs[v], ActionOf(acts, v)) ::
      Shift(agvs[v].cell, ActionOf(acts, v))
  }

  function MoveEvents(c: Scenario, s: State, acts: Actions, ids: seq<AgvId>): seq<Event> {
    if ids == [] then []
    else
      var v := ids[0];
      var cells, moves := CellsOf(s.agvs), MovesOf(c, s.agvs, acts);
      (if v in moves && v !in Movement.Refused(cells, moves) && v in s.agvs
       then [Moved(s.tick, v, s.agvs[v].cell, moves[v])] else [])
      + MoveEvents(c, s, acts, ids[1..])
  }

  function RejectEvents(c: Scenario, s: State, acts: Actions, ids: seq<AgvId>): seq<Event> {
    if ids == [] then []
    else
      var v := ids[0];
      var cells, moves := CellsOf(s.agvs), MovesOf(c, s.agvs, acts);
      (if v in Movement.Refused(cells, moves) then [Rejected(s.tick, v, true)]
       else if v in s.agvs && !Permitted(c, s.agvs[v], ActionOf(acts, v)) then [Rejected(s.tick, v, false)] else [])
      + RejectEvents(c, s, acts, ids[1..])
  }

  /** All accepted moves at once. */
  function Move(c: Scenario, s: State, acts: Actions): State {
    var after := Movement.Committed(CellsOf(s.agvs), MovesOf(c, s.agvs, acts));
    s.(agvs := map v | v in s.agvs :: s.agvs[v].(cell := after[v]),
       log := s.log + MoveEvents(c, s, acts, c.agvIds) + RejectEvents(c, s, acts, c.agvIds))
  }

  lemma AfterWalkable(c: Scenario, s: State, acts: Actions)
    requires VehiclesOk(c, s.jobs, s.agvs)
    ensures var after := Movement.Committed(CellsOf(s.agvs), MovesOf(c, s.agvs, acts));
            after.Keys == s.agvs.Keys
            && forall v :: v in s.agvs ==> after[v] in c.walkable && (s.agvs[v].service.Some? ==> after[v] == s.agvs[v].cell)
  {
    forall v | v in s.agvs ensures s.agvs[v].cell in c.walkable { assert VehicleOk(c, s.jobs, s.agvs[v]); }
  }

  lemma RelocatedVehicles(c: Scenario, jobs: map<JobId, JobRow>, agvs: map<AgvId, AgvRow>, after: Movement.Cells, later: map<AgvId, AgvRow>)
    requires VehiclesOk(c, jobs, agvs) && after.Keys == agvs.Keys && Movement.Distinct(after)
    requires forall v :: v in agvs ==> after[v] in c.walkable && (agvs[v].service.Some? ==> after[v] == agvs[v].cell)
    requires later.Keys == agvs.Keys && forall v :: v in agvs ==> later[v] == agvs[v].(cell := after[v])
    ensures VehiclesOk(c, jobs, later)
  {
    forall v | v in later ensures VehicleOk(c, jobs, later[v]) { assert VehicleOk(c, jobs, agvs[v]); }
    forall v, w | v in later && w in later && v != w ensures Compatible(later[v], later[w]) { assert Compatible(agvs[v], agvs[w]); }
  }

  lemma MoveVehicles(c: Scenario, s: State, acts: Actions)
    requires VehiclesOk(c, s.jobs, s.agvs)
    ensures VehiclesOk(c, s.jobs, Move(c, s, acts).agvs)
  {
    var cells, moves := CellsOf(s.agvs), MovesOf(c, s.agvs, acts);
    var after := Movement.Committed(cells, moves);
    AfterWalkable(c, s, acts);
    forall v, w | v in cells && w in cells && v != w ensures cells[v] != cells[w] { assert Compatible(s.agvs[v], s.agvs[w]); }
    Movement.CommitKeepsDistinct(cells, moves);
    hide VehiclesOk, MoveEvents, RejectEvents, MovesOf, CellsOf, Movement.Committed, Movement.Distinct;
    RelocatedVehicles(c, s.jobs, s.agvs, after, Move(c, s, acts).agvs);
  }

  /** The vehicles may stand elsewhere and may have arrived, nothing else. */
  ghost predicate SameTasks(agvs: map<AgvId, AgvRow>, after: map<AgvId, AgvRow>) {
    after.Keys == agvs.Keys && forall v :: v in agvs ==> after[v] == agvs[v].(cell := after[v].cell, arrivedAt := after[v].arrivedAt)
  }

  /** Cells and arrival times play no part in custody, control and reservations. */
  lemma MoveOthers(c: Scenario, s: State, agvs: map<AgvId, AgvRow>)
    requires WellFormed(c) && Inv(c, s) && SameTasks(s.agvs, agvs)
    ensures Custodial(s.jobs, s.queue, s.storage, s.machines, agvs)
    ensures ControlOk(c, s.jobs, agvs, s.assignments) && LocksFit(c, s.storage, agvs)
    ensures StationsFit(c, s.jobs, agvs, s.assignments) && SuppliesCover(c, s.jobs, agvs, s.assignments)
  {
    FrameHeld(s.jobs, s.queue, s.storage, s.machines, s.agvs, s.jobs, s.machines, agvs);
    MoveControl(c, s.jobs, s.agvs, s.assignments, agvs);
    MoveLimits(c, s, agvs);
  }

  lemma MoveControl(c: Scenario, jobs: map<JobId, JobRow>, agvs: map<AgvId, AgvRow>, tasks: map<AgvId, Assignment>,
                    after: map<AgvId, AgvRow>)
    requires ControlOk(c, jobs, agvs, tasks) && SameTasks(agvs, after)
    ensures ControlOk(c, jobs, after, tasks)
  {
    forall w | w in tasks ensures AssignmentOk(c, jobs, after[w], tasks[w]) {
      assert AssignmentOk(c, jobs, agvs[w], tasks[w]);
    }
    if c.central {
      forall w | w in after ensures TargetAssigned(after, tasks, w) { assert TargetAssigned(agvs, tasks, w); }
    }
  }

  lemma MoveLimits(c: Scenario, s: State, agvs: map<AgvId, AgvRow>)
    requires WellFormed(c) && StationsFit(c, s.jobs, s.agvs, s.assignments) && LocksFit(c, s.storage, s.agvs)
    requires SuppliesCover(c, s.jobs, s.agvs, s.assignments) && SameTasks(s.agvs, agvs)
    ensures LocksFit(c, s.storage, agvs)
    ensures StationsFit(c, s.jobs, agvs, s.assignments) && SuppliesCover(c, s.jobs, agvs, s.assignments)
  {
    forall m | m in c.machines ensures StationFits(c, s.jobs, agvs, s.assignments, m) {
      assert StationFits(c, s.jobs, s.agvs, s.assignments, m);
      assert GoodMachine(c, m);
      assert Commits(agvs, s.assignments, c.pre[m]) == Commits(s.agvs, s.assignments, c.pre[m]);
    }
    forall b | IsSource(c, b) ensures SourceCovered(c, s.jobs, agvs, s.assignments, b) {
      assert SourceCovered(c, s.jobs, s.agvs, s.assignments, b);
      assert Commits(agvs, s.assignments, b) == Commits(s.agvs, s.assignments, b);
    }
    forall p | p in s.storage ensures PlaceFits(c, s.storage, agvs, p) {
      assert PlaceFits(c, s.storage, s.agvs, p);
      assert Locked(agvs, p) == Locked(s.agvs, p);
    }
  }

  lemma MoveKeeps(c: Scenario, s: State, acts: Actions)
    requires WellFormed(c) && Inv(c, s)
    ensures Inv(c, Move(c, s, acts))
  {
    hide JobsOk, MachinesOk, VehiclesOk, StationsFit, SuppliesCover, LocksFit, ControlOk, LedgerOk, Custodial, WellFormed;
    MoveVehicles(c, s, acts);
    MoveOthers(c, s, Move(c, s, acts).agvs);
  }

  // -- arrivals --------------------------------------------------------------------------------

  /** The vehicle has come to a port of its target. */
  predicate Reaches(c: Scenario, before: Movement.Cells, v: AgvId, a: AgvRow) {
    && a.target.Some? && a.target.value in c.ports && a.cell in c.ports[a.target.value]
    && v in before && before[v] !in c.ports[a.target.value]
  }

  /** `advance`: vehicles that came to their target during the interval arrive now. */
  function Arrive(c: Scenario, before: Movement.Cells, s: State): State {
    s.(agvs := map v | v in s.agvs :: if Reaches(c, before, v, s.agvs[v]) then s.agvs[v].(arrivedAt := s.tick) else s.agvs[v])
  }

  lemma ArriveVehicles(c: Scenario, before: Movement.Cells, s: State)
    requires VehiclesOk(c, s.jobs, s.agvs)
    ensures VehiclesOk(c, s.jobs, Arrive(c, before, s).agvs)
  {
    var agvs := Arrive(c, before, s).agvs;
    forall v | v in agvs ensures VehicleOk(c, s.jobs, agvs[v]) { assert VehicleOk(c, s.jobs, s.agvs[v]); }
    forall v, w | v in agvs && w in agvs && v != w ensures Compatible(agvs[v], agvs[w]) { assert Compatible(s.agvs[v], s.agvs[w]); }
  }

  lemma ArriveKeeps(c: Scenario, before: Movement.Cells, s: State)
    requires WellFormed(c) && Inv(c, s)
    ensures Inv(c, Arrive(c, before, s))
  {
    hide JobsOk, MachinesOk, VehiclesOk, StationsFit, SuppliesCover, LocksFit, ControlOk, LedgerOk, Custodial, WellFormed;
    ArriveVehicles(c, before, s);
    MoveOthers(c, s, Arrive(c, before, s).agvs);
  }

  // -- the interval ----------------------------------------------------------------------------

  /** The physical part of the event calendar: nothing due strictly inside the next `k` ticks. */
  ghost predicate Quiet(c: Scenario, s: State, k: int) {
    && Reachable(s, k) && s.tick + k <= c.tickLimit
    && (forall d :: d in c.demands && s.tick < c.demands[d].releaseAt ==> s.tick + k <= c.demands[d].releaseAt)
    && NoEdge(c.outages, s.tick, s.tick + k - 1)
    && (forall v :: v in s.agvs ==> s.agvs[v].service.None?)
  }

  /** Legal durations: one tick, or a jump with every vehicle waiting through a quiet interval. */
  ghost predicate Allowed(c: Scenario, s: State, acts: Actions, k: int) {
    && !Done(c, s)
    && (k == 1 || (k > 1 && (forall v :: v in acts ==> acts[v].Wait?) && Quiet(c, s, k)))
  }

  /** What the boundary achieved and decisions keep: settled, with known idle clocks, every assigned
      vehicle under way and the down flags of the calendar. */
  ghost predicate Calm(c: Scenario, s: State) {
    Settled(c, s) && Aimed(s.agvs, s.assignments) && ClocksKnown(c, s) && FlagsCurrent(c, s)
  }

  /** The state between two decisions of a run. */
  ghost predicate Stable(c: Scenario, s: State)
    requires WellFormed(c)
  {
    Inv(c, s) && Calm(c, s) && DueReleased(c, s)
  }

  /** Moves are committed before time advances. */
  function Depart(c: Scenario, s: State, acts: Actions, k: int): (t: State)
    requires WellFormed(c) && Inv(c, s) && Reachable(s, k)
    ensures Inv(c, t) && Reachable(t, k) && t.tick == s.tick + k && t.ledger == s.ledger
  {
    MoveKeeps(c, s, acts);
    DepartReach(c, s, acts, k);
    Move(c, s, acts).(tick := s.tick + k)
  }

  lemma DepartReach(c: Scenario, s: State, acts: Actions, k: int)
    requires Reachable(s, k)
    ensures Reachable(Move(c, s, acts).(tick := s.tick + k), k)
  {
    var t := Move(c, s, acts).(tick := s.tick + k);
    forall m | m in t.machines ensures WithinWork(t.machines, m, k) { assert WithinWork(s.machines, m, k); }
  }

  lemma BoundaryCalm(c: Scenario, u: State, t: State)
    requires SameFleet(u, t) && Settled(c, t) && FlagsCurrent(c, t) && Aimed(u.agvs, u.assignments) && ClocksKnown(c, u)
    ensures Calm(c, t)
  {
    assert Done(c, t) == Done(c, u);
    if !Done(c, t) {
      forall v | v in t.agvs ensures Clocked(t.agvs, t.idleSince, v) { assert Clocked(u.agvs, u.idleSince, v); }
    }
  }

  /** The committed interval, after its guards. */
  function Interval(c: Scenario, s: State, acts: Actions, k: int): (t: State)
    requires WellFormed(c) && Inv(c, s) && Reachable(s, k)
    ensures Inv(c, t) && Calm(c, t) && t.tick == s.tick + k
    ensures NoneEarly(c, s.ledger.released, s.tick) ==> DueReleased(c, t)
  {
    var u := Advance(c, Depart(c, s, acts, k), k);
    LaterNotEarly(c, u.ledger.released, s.tick, u.tick);
    BoundaryCalm(c, u, Boundary(c, u, false));
    Boundary(c, u, false)
  }

  lemma BoundaryShips(l: Ledger, middle: Ledger, after: Ledger, tick: int)
    requires Ships(l, middle, tick) && SameShipments(middle, after)
    ensures Ships(l, after, tick)
  {
    forall d | d in after.shipped ensures ShippedWhen(l, after, tick, d) { assert ShippedWhen(l, middle, tick, d); }
  }

  lemma InvLedger(c: Scenario, s: State)
    requires WellFormed(c) && Inv(c, s)
    ensures s.ledger.good <= s.ledger.shipped <= s.ledger.released <= c.demands.Keys
    ensures s.ledger.shipmentTimes.Keys == s.ledger.shipped
  {
  }

  lemma IntervalShips(c: Scenario, s: State, acts: Actions, k: int)
    requires WellFormed(c) && Inv(c, s) && Reachable(s, k)
    ensures var t := Interval(c, s, acts, k); Ships(s.ledger, t.ledger, t.tick) && t.ledger.shipped <= s.ledger.released
  {
    hide Inv;
    var a := Depart(c, s, acts, k);
    var u, t := Advance(c, a, k), Interval(c, s, acts, k);
    assert Ships(s.ledger, u.ledger, t.tick);
    InvLedger(c, u);
    BoundaryShips(s.ledger, u.ledger, t.ledger, t.tick);
  }

  // -- the initial state -----------------------------------------------------------------------

  function EmptySlots(c: Scenario): map<Place, seq<JobId>> {
    map b, k | b in c.buffers && k in c.buffers[b].capacity :: Place(b, k) := []
  }

  function IdleMachines(c: Scenario): map<MachineId, MachineRow> {
    map m | m in c.machines :: MachineRow(None, Idle, 0, 0, 0, None, false)
  }

  function ParkedVehicles(c: Scenario): map<AgvId, AgvRow> {
    map v | v in c.start :: AgvRow(c.start[v], None, None, None, 0)
  }

  function Fresh(c: Scenario): State {
    State(0, map[], [],
          EmptySlots(c), IdleMachines(c), ParkedVehicles(c),
          Ledger({}, map[], {}, map[], {}), map[], map[], [])
  }

  lemma FreshVehicles(c: Scenario, jobs: map<JobId, JobRow>, agvs: map<AgvId, AgvRow>)
    requires WellFormed(c) && agvs == (map v | v in c.start :: AgvRow(c.start[v], None, None, None, 0))
    ensures VehiclesOk(c, jobs, agvs)
  {
    forall v, w | v in agvs && w in agvs && v != w ensures Compatible(agvs[v], agvs[w]) {
      assert StartApart(c, v, w);
    }
    forall v | v in agvs ensures VehicleOk(c, jobs, agvs[v]) {
      assert StartApart(c, v, v);
    }
  }

  lemma FreshLimits(c: Scenario, storage: map<Place, seq<JobId>>, agvs: map<AgvId, AgvRow>)
    requires WellFormed(c) && agvs == (map v | v in c.start :: AgvRow(c.start[v], None, None, None, 0))
    requires forall p :: p in storage ==> storage[p] == [] && KnownPlace(c, p)
    ensures StationsFit(c, map[], agvs, map[]) && SuppliesCover(c, map[], agvs, map[]) && LocksFit(c, storage, agvs)
  {
    forall m | m in c.machines ensures StationFits(c, map[], agvs, map[], m) {
      assert GoodMachine(c, m);
      assert Load(c, map[], m) == {} && Commits(agvs, map[], c.pre[m]) == {};
    }
    forall b | IsSource(c, b) ensures SourceCovered(c, map[], agvs, map[], b) {
      assert Commits(agvs, map[], b) == {};
    }
    forall p | p in storage ensures PlaceFits(c, storage, agvs, p) {
      assert Locked(agvs, p) == {};
    }
  }

  lemma FreshHolders(c: Scenario)
    requires WellFormed(c)
    ensures Shaped(c, Fresh(c)) && Held(Fresh(c))
    ensures forall p :: p in Fresh(c).storage ==> Fresh(c).storage[p] == [] && KnownPlace(c, p)
  {
    var s := Fresh(c);
    forall p ensures p in s.storage <==> KnownPlace(c, p) {
      if KnownPlace(c, p) { assert Place(p.owner, p.slot) in s.storage; }
    }
    forall p | p in s.storage ensures NoDup(s.storage[p]) {}
  }

  lemma FreshMachines(c: Scenario)
    ensures MachinesOk(c, map[], Fresh(c).machines)
  {
    var machines := Fresh(c).machines;
    forall m | m in machines ensures MachineOk(c, map[], m, machines[m]) {}
  }

  lemma FreshIsSafe(c: Scenario)
    requires WellFormed(c)
    ensures Inv(c, Fresh(c))
  {
    var s := Fresh(c);
    FreshHolders(c);
    FreshMachines(c);
    FreshVehicles(c, s.jobs, s.agvs);
    FreshLimits(c, s.storage, s.agvs);
  }

  lemma DisjointScanAgrees(c: Scenario, tick: int)
    ensures Proper(c.outages) && Disjoint(c.outages) ==> ScanAgrees(c, tick, true)
  {
    if Proper(c.outages) && Disjoint(c.outages) {
      forall m | m in c.machines ensures DownAt(c.outages, m, tick) == Covered(c.outages, m, tick) {
        DisjointCalendarsAgree(c.outages, m, tick);
      }
    }
  }

  /** The constructed simulator: the boundary phase at tick zero. */
  function Constructed(c: Scenario): (s: State)
    requires WellFormed(c)
    ensures Inv(c, s) && Settled(c, s) && Aimed(s.agvs, s.assignments) && DueReleased(c, s)
    ensures Proper(c.outages) && Disjoint(c.outages) ==> FlagsCurrent(c, s)
  {
    FreshIsSafe(c);
    DisjointScanAgrees(c, 0);
    Boundary(c, Fresh(c), true)
  }

  /** Where runs begin: `configure` starts the idle clocks. */
  function Initial(c: Scenario): (s: State)
    requires WellFormed(c)
    ensures Inv(c, s) && Settled(c, s) && Aimed(s.agvs, s.assignments) && ClocksKnown(c, s)
    ensures Proper(c.outages) && Disjoint(c.outages) ==> FlagsCurrent(c, s)
    ensures DueReleased(c, s)
  {
    var s := Constructed(c);
    SyncKeeps(c, s);
    SyncFrame(c, s);
    SyncIdle(c, s)
  }
}
