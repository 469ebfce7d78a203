/** Making, using and dropping reservations, under both controllers, keeps the safety invariant. */
module Reservations {
  import opened Collections
  import opened Factory
  import opened Custody
  import opened Safety
  import opened Components
  import opened Operations

  // -- dropping a reservation ------------------------------------------------------------------

  lemma SyncKeeps(c: Scenario, s: State)
    requires WellFormed(c) && Inv(c, s)
    ensures Inv(c, SyncIdle(c, s))
  {
  }

  /** Rows of one vehicle and its assignment change; its job and cell stay. */
  ghost predicate VehicleEdit(s: State, t: State, v: AgvId, a: AgvRow) {
    && v in s.agvs && t.agvs == s.agvs[v := a] && a.job == s.agvs[v].job && a.cell == s.agvs[v].cell
    && t.jobs == s.jobs && t.queue == s.queue && t.storage == s.storage && t.machines == s.machines && t.ledger == s.ledger
    && t.idleSince.Keys <= s.agvs.Keys + s.idleSince.Keys
  }

  lemma EditHeld(s: State, v: AgvId, a: AgvRow)
    requires Held(s) && v in s.agvs && a.job == s.agvs[v].job
    ensures Custodial(s.jobs, s.queue, s.storage, s.machines, s.agvs[v := a])
  {
    FrameHeld(s.jobs, s.queue, s.storage, s.machines, s.agvs, s.jobs, s.machines, s.agvs[v := a]);
  }

  lemma DroppedControl(c: Scenario, jobs: map<JobId, JobRow>, agvs: map<AgvId, AgvRow>, tasks: map<AgvId, Assignment>,
                       v: AgvId, a: AgvRow)
    requires ControlOk(c, jobs, agvs, tasks) && v in agvs && a.target.None?
    ensures ControlOk(c, jobs, agvs[v := a], tasks - {v})
  {
    var after, left := agvs[v := a], tasks - {v};
    forall w | w in left ensures AssignmentOk(c, jobs, after[w], left[w]) {
      assert AssignmentOk(c, jobs, agvs[w], tasks[w]);
    }
    forall u, w | u in left && w in left && u != w ensures OtherJob(left[u], left[w]) {
      assert OtherJob(tasks[u], tasks[w]);
    }
    if c.central {
      forall w | w in after ensures TargetAssigned(after, left, w) { assert TargetAssigned(agvs, tasks, w); }
    }
  }

  lemma DroppedVehicle(c: Scenario, s: State, v: AgvId, a: AgvRow)
    requires WellFormed(c) && Inv(c, s) && v in s.agvs
    requires a.target.None? && a.service.None? && a.job == s.agvs[v].job && a.cell == s.agvs[v].cell
    ensures VehicleOk(c, s.jobs, a)
  {
    assert VehicleOk(c, s.jobs, s.agvs[v]);
  }

  lemma DroppedKeeps(c: Scenario, s: State, t: State, v: AgvId, a: AgvRow)
    requires WellFormed(c) && Inv(c, s) && VehicleEdit(s, t, v, a)
    requires a.target.None? && a.service.None? && t.assignments == s.assignments - {v}
    ensures Inv(c, t)
  {
    hide VehicleOk;
    assert VehicleOk(c, s.jobs, a) by { DroppedVehicle(c, s, v, a); }
    VehicleSet(c, s.jobs, s.agvs, v, a);
    DroppedControl(c, s.jobs, s.agvs, s.assignments, v, a);
    DroppedLimits(c, s.jobs, s.agvs, s.assignments, v, a);
    LocksVehicleSet(c, s.storage, s.agvs, v, a);
    EditHeld(s, v, a);
  }

  lemma DroppedLimits(c: Scenario, jobs: map<JobId, JobRow>, agvs: map<AgvId, AgvRow>, tasks: map<AgvId, Assignment>,
                      v: AgvId, a: AgvRow)
    requires WellFormed(c) && StationsFit(c, jobs, agvs, tasks) && SuppliesCover(c, jobs, agvs, tasks)
    requires v in agvs && a.target.None?
    ensures StationsFit(c, jobs, agvs[v := a], tasks - {v}) && SuppliesCover(c, jobs, agvs[v := a], tasks - {v})
  {
    var after := agvs[v := a];
    StationsVehicleSet(c, jobs, agvs, tasks, after, tasks - {v}, v);
    SuppliesVehicleSet(c, jobs, agvs, tasks, after, tasks - {v}, v);
  }

  lemma CancelKeeps(c: Scenario, s: State, v: AgvId)
    requires WellFormed(c) && Inv(c, s) && v in s.agvs
    ensures Inv(c, Cancel(c, s, v))
  {
    hide Inv, VehicleEdit;
    InvVehicle(c, s, v);
    CancelEdit(c, s, v);
    DroppedKeeps(c, s, Cancel(c, s, v), v, s.agvs[v].(target := None, service := None));
  }

  lemma InvVehicle(c: Scenario, s: State, v: AgvId)
    requires WellFormed(c) && Inv(c, s) && v in s.agvs
    ensures VehicleOk(c, s.jobs, s.agvs[v])
  {
  }

  lemma CancelEdit(c: Scenario, s: State, v: AgvId)
    requires v in s.agvs && VehicleOk(c, s.jobs, s.agvs[v])
    ensures VehicleEdit(s, Cancel(c, s, v), v, s.agvs[v].(target := None, service := None))
    ensures Cancel(c, s, v).assignments == s.assignments - {v}
  {
    var a := s.agvs[v];
    if a.target.None? {
      assert a.(target := None, service := None) == a;
      assert s.agvs[v := a] == s.agvs;
    }
  }

  // -- making a reservation --------------------------------------------------------------------

  /** The owner can take one more commitment. */
  ghost predicate Vacancy(c: Scenario, s: State, b: BufferId)
    requires WellFormed(c) && b in c.buffers
  {
    assert GoodBuffer(c, b);
    match c.buffers[b].role
    case Output => true
    case Pre(m) =>
      assert GoodMachine(c, m);
      |Load(c, s.jobs, m)| + |Commits(s.agvs, s.assignments, b)| < StationCapacity(c, m)
    case _ => |Commits(s.agvs, s.assignments, b)| < |Supply(c, s.jobs, b)|
  }

  predicate Unbound(s: State, v: AgvId) {
    v in s.agvs && s.agvs[v].target.None? && s.agvs[v].service.None? && v !in s.assignments
  }

  lemma AcceptedStations(c: Scenario, s: State, v: AgvId, b: BufferId, a: AgvRow)
    requires WellFormed(c) && StationsFit(c, s.jobs, s.agvs, s.assignments) && b in c.buffers && Vacancy(c, s, b)
    requires Unbound(s, v) && a == s.agvs[v].(target := Some(b), arrivedAt := s.tick)
    ensures StationsFit(c, s.jobs, s.agvs[v := a], s.assignments)
  {
    forall m | m in c.machines ensures StationFits(c, s.jobs, s.agvs[v := a], s.assignments, m) {
      assert StationFits(c, s.jobs, s.agvs, s.assignments, m);
      assert GoodMachine(c, m);
      CommitsAfter(s.agvs, s.assignments, s.agvs[v := a], s.assignments, v, c.pre[m]);
    }
  }

  lemma AcceptedSupplies(c: Scenario, s: State, v: AgvId, b: BufferId, a: AgvRow)
    requires WellFormed(c) && SuppliesCover(c, s.jobs, s.agvs, s.assignments) && b in c.buffers && Vacancy(c, s, b)
    requires Unbound(s, v) && a == s.agvs[v].(target := Some(b), arrivedAt := s.tick)
    ensures SuppliesCover(c, s.jobs, s.agvs[v := a], s.assignments)
  {
    forall x | IsSource(c, x) ensures SourceCovered(c, s.jobs, s.agvs[v := a], s.assignments, x) {
      assert SourceCovered(c, s.jobs, s.agvs, s.assignments, x);
      CommitsAfter(s.agvs, s.assignments, s.agvs[v := a], s.assignments, v, x);
    }
  }

  /** A free vehicle reserves a legal owner with room for one more commitment. */
  ghost predicate Acceptable(c: Scenario, s: State, v: AgvId, b: BufferId)
    requires WellFormed(c) && Inv(c, s)
  {
    && Unbound(s, v) && b in c.buffers && Vacancy(c, s, b)
    && (match s.agvs[v].job
        case None => IsSource(c, b)
        case Some(j) => j in s.jobs && IsDestination(c, j, s.jobs[j].step, b))
  }

  lemma AcceptKeeps(c: Scenario, s: State, v: AgvId, b: BufferId)
    requires WellFormed(c) && Inv(c, s) && !c.central && Acceptable(c, s, v, b)
    ensures Inv(c, Accept(c, s, v, b))
  {
    var t := Accept(c, s, v, b);
    var a := s.agvs[v].(target := Some(b), arrivedAt := s.tick);
    assert VehicleOk(c, s.jobs, s.agvs[v]);
    VehicleSet(c, s.jobs, s.agvs, v, a);
    AcceptedStations(c, s, v, b, a);
    AcceptedSupplies(c, s, v, b, a);
    LocksVehicleSet(c, s.storage, s.agvs, v, a);
    EditHeld(s, v, a);
  }

  // -- starting a service ----------------------------------------------------------------------

  /** A vehicle at its target's port may load a ready job, or unload where a slot is unlocked. */
  ghost predicate Servable(c: Scenario, s: State, v: AgvId, kind: Kind, j: JobId, p: Place) {
    && v in s.agvs && s.agvs[v].service.None? && s.agvs[v].target == Some(p.owner)
    && p.owner in c.ports && s.agvs[v].cell in c.ports[p.owner]
    && KnownPlace(c, p) && p in s.storage && j in s.jobs
    && (v in s.assignments ==> s.assignments[v].job == j)
    && match kind
       case Pickup => s.agvs[v].job.None? && s.jobs[j].loc == Stored(p)
                      && forall w :: w in s.agvs ==> !Loading(s.agvs[w], j)
       case DropOff => s.agvs[v].job == Some(j)
                       && (c.buffers[p.owner].capacity[p.slot].Some? ==>
                             |s.storage[p]| + |Locked(s.agvs, p)| < c.buffers[p.owner].capacity[p.slot].value)
  }

  lemma ServedLocks(c: Scenario, s: State, v: AgvId, kind: Kind, j: JobId, p: Place, a: AgvRow)
    requires LocksFit(c, s.storage, s.agvs) && Servable(c, s, v, kind, j, p)
    requires a == s.agvs[v].(service := Some(Service(kind, j, p, s.tick, 1)))
    ensures LocksFit(c, s.storage, s.agvs[v := a])
  {
    forall x | x in s.storage ensures PlaceFits(c, s.storage, s.agvs[v := a], x) {
      assert PlaceFits(c, s.storage, s.agvs, x);
      LockedAfter(s.agvs, v, a, x);
    }
  }

  lemma ServedControl(c: Scenario, jobs: map<JobId, JobRow>, agvs: map<AgvId, AgvRow>, tasks: map<AgvId, Assignment>,
                      v: AgvId, x: Service, a: AgvRow)
    requires ControlOk(c, jobs, agvs, tasks) && v in agvs && a == agvs[v].(service := Some(x))
    requires v in tasks ==> tasks[v].job == x.job
    ensures ControlOk(c, jobs, agvs[v := a], tasks)
  {
    var after := agvs[v := a];
    forall w | w in tasks ensures AssignmentOk(c, jobs, after[w], tasks[w]) {
      assert AssignmentOk(c, jobs, agvs[w], tasks[w]);
    }
    if c.central {
      forall w | w in after ensures TargetAssigned(after, tasks, w) { assert TargetAssigned(agvs, tasks, w); }
    }
  }

  lemma ServeKeeps(c: Scenario, s: State, v: AgvId, kind: Kind, j: JobId, p: Place)
    requires WellFormed(c) && Inv(c, s) && Servable(c, s, v, kind, j, p)
    ensures Inv(c, Serve(s, v, kind, j, p))
  {
    hide JobsOk, MachinesOk, StationsFit, SuppliesCover, LocksFit, ControlOk, LedgerOk, Custodial;
    var t := Serve(s, v, kind, j, p);
    var a := t.agvs[v];
    assert VehicleOk(c, s.jobs, s.agvs[v]);
    VehicleSet(c, s.jobs, s.agvs, v, a);
    ServedControl(c, s.jobs, s.agvs, s.assignments, v, a.service.value, a);
    StationsVehicleSet(c, s.jobs, s.agvs, s.assignments, t.agvs, t.assignments, v);
    SuppliesVehicleSet(c, s.jobs, s.agvs, s.assignments, t.agvs, t.assignments, v);
    ServedLocks(c, s, v, kind, j, p, a);
    EditHeld(s, v, a);
  }
}
