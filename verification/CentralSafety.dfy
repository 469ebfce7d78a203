/** The centralized controller's assignments keep the safety invariant. */
module CentralSafety {
  import opened Collections
  import opened Factory
  import opened Custody
  import opened Safety
  import opened Components
  import opened Operations
  import opened Reservations

  // -- reconcile -------------------------------------------------------------------------------

  lemma AimedControl(c: Scenario, jobs: map<JobId, JobRow>, agvs: map<AgvId, AgvRow>, tasks: map<AgvId, Assignment>,
                     v: AgvId, a: AgvRow)
    requires ControlOk(c, jobs, agvs, tasks) && v in tasks && AssignmentOk(c, jobs, a, tasks[v])
    ensures ControlOk(c, jobs, agvs[v := a], tasks)
  {
    var after := agvs[v := a];
    forall w | w in tasks ensures AssignmentOk(c, jobs, after[w], tasks[w]) {
      if w != v { assert AssignmentOk(c, jobs, agvs[w], tasks[w]); }
    }
    if c.central {
      forall w | w in after ensures TargetAssigned(after, tasks, w) { assert TargetAssigned(agvs, tasks, w); }
    }
  }

  lemma AimKeeps(c: Scenario, s: State, v: AgvId)
    requires WellFormed(c) && Inv(c, s) && v in s.agvs && v in s.assignments
    requires s.agvs[v].job == Some(s.assignments[v].job) && s.agvs[v].target.None?
    ensures Inv(c, Aim(s, v, s.assignments[v].destination))
  {
    var t := Aim(s, v, s.assignments[v].destination);
    var a := t.agvs[v];
    assert VehicleOk(c, s.jobs, s.agvs[v]) && AssignmentOk(c, s.jobs, s.agvs[v], s.assignments[v]);
    VehicleSet(c, s.jobs, s.agvs, v, a);
    AimedControl(c, s.jobs, s.agvs, s.assignments, v, a);
    StationsVehicleSet(c, s.jobs, s.agvs, s.assignments, t.agvs, t.assignments, v);
    SuppliesVehicleSet(c, s.jobs, s.agvs, s.assignments, t.agvs, t.assignments, v);
    LocksVehicleSet(c, s.storage, s.agvs, v, a);
    EditHeld(s, v, a);
  }

  lemma ReconcileKeeps(c: Scenario, s: State, v: AgvId)
    requires WellFormed(c) && Inv(c, s) && v in s.agvs
    ensures Inv(c, Reconcile(c, s, v))
  {
    if v in s.assignments {
      assert AssignmentOk(c, s.jobs, s.agvs[v], s.assignments[v]);
      var x, a := s.assignments[v], s.agvs[v];
      if !Eligible(c, s, x.destination) {
        CancelKeeps(c, s, v);
      } else if a.job == Some(x.job) && a.target.None? {
        AimKeeps(c, s, v);
      } else if a.job.None? && s.jobs[x.job].loc.Stored? && s.jobs[x.job].loc.place.owner == x.destination {
        assert VehicleOk(c, s.jobs, a);
        assert s.agvs[v := a] == s.agvs;
        DroppedKeeps(c, s, Reconcile(c, s, v), v, a);
      }
    }
  }

  // -- a new assignment ------------------------------------------------------------------------

  /** A transport candidate: an unreserved job, carried or ready at a source, and a legal destination
      with room for one more commitment. */
  ghost predicate Assignable(c: Scenario, s: State, v: AgvId, j: JobId, b: BufferId)
    requires WellFormed(c) && Inv(c, s)
  {
    && c.central && Unbound(s, v) && j in s.jobs && b in c.buffers
    && (forall w :: w in s.assignments ==> s.assignments[w].job != j)
    && IsDestination(c, j, s.jobs[j].step, b) && Vacancy(c, s, b)
    && match s.agvs[v].job
       case Some(i) => i == j
       case None => s.jobs[j].loc.Stored? && IsSource(c, s.jobs[j].loc.place.owner)
  }

  lemma AssignedControl(c: Scenario, jobs: map<JobId, JobRow>, agvs: map<AgvId, AgvRow>, tasks: map<AgvId, Assignment>,
                        v: AgvId, a: AgvRow, x: Assignment)
    requires ControlOk(c, jobs, agvs, tasks) && c.central && v in agvs && v !in tasks && AssignmentOk(c, jobs, a, x)
    requires forall w :: w in tasks ==> tasks[w].job != x.job
    ensures ControlOk(c, jobs, agvs[v := a], tasks[v := x])
  {
    var after, tasks' := agvs[v := a], tasks[v := x];
    forall w | w in tasks' ensures AssignmentOk(c, jobs, after[w], tasks'[w]) {
      if w != v { assert AssignmentOk(c, jobs, agvs[w], tasks[w]); }
    }
    forall u, w | u in tasks' && w in tasks' && u != w ensures OtherJob(tasks'[u], tasks'[w]) {
      if u != v && w != v { assert OtherJob(tasks[u], tasks[w]); }
    }
    forall w | w in after ensures TargetAssigned(after, tasks', w) { assert TargetAssigned(agvs, tasks, w); }
  }

  lemma AssignedStations(c: Scenario, s: State, v: AgvId, a: AgvRow, x: Assignment)
    requires WellFormed(c) && StationsFit(c, s.jobs, s.agvs, s.assignments) && Unbound(s, v)
    requires x.destination in c.buffers && Vacancy(c, s, x.destination)
    requires a.target == Some(x.destination) || (a.target.Some? && IsSource(c, a.target.value))
    ensures StationsFit(c, s.jobs, s.agvs[v := a], s.assignments[v := x])
  {
    forall m | m in c.machines ensures StationFits(c, s.jobs, s.agvs[v := a], s.assignments[v := x], m) {
      assert StationFits(c, s.jobs, s.agvs, s.assignments, m);
      assert GoodMachine(c, m);
      CommitsAfter(s.agvs, s.assignments, s.agvs[v := a], s.assignments[v := x], v, c.pre[m]);
    }
  }

  /** The jobs assigned from one source are distinct jobs stored there. */
  lemma AssignedFrom(c: Scenario, s: State, b: BufferId, j: JobId)
    requires WellFormed(c) && Inv(c, s) && c.central && IsSource(c, b)
    requires j in s.jobs && Supplies(c, s.jobs[j].loc, b) && forall w :: w in s.assignments ==> s.assignments[w].job != j
    ensures |Commits(s.agvs, s.assignments, b)| < |Supply(c, s.jobs, b)|
  {
    hide JobsOk, MachinesOk, VehiclesOk, StationsFit, SuppliesCover, LocksFit, LedgerOk, Custodial, WellFormed;
    var heading := Commits(s.agvs, s.assignments, b);
    var f := map v | v in heading && v in s.assignments :: s.assignments[v].job;
    var others := Supply(c, s.jobs, b) - {j};
    forall v | v in heading ensures v in f && f[v] in others {
      assert TargetAssigned(s.agvs, s.assignments, v);
      assert v in s.assignments;
      assert AssignmentOk(c, s.jobs, s.agvs[v], s.assignments[v]);
    }
    forall u, w | u in heading && w in heading && u != w ensures f[u] != f[w] {
      assert OtherJob(s.assignments[u], s.assignments[w]);
    }
    InjectionBound(heading, f, others);
  }

  lemma AssignedSupplies(c: Scenario, s: State, v: AgvId, a: AgvRow, x: Assignment)
    requires WellFormed(c) && SuppliesCover(c, s.jobs, s.agvs, s.assignments) && Unbound(s, v)
    requires a.target.Some? && x.destination in c.buffers && !IsSource(c, x.destination)
    requires IsSource(c, a.target.value) ==>
               |Commits(s.agvs, s.assignments, a.target.value)| < |Supply(c, s.jobs, a.target.value)|
    ensures SuppliesCover(c, s.jobs, s.agvs[v := a], s.assignments[v := x])
  {
    forall b | IsSource(c, b) ensures SourceCovered(c, s.jobs, s.agvs[v := a], s.assignments[v := x], b) {
      assert SourceCovered(c, s.jobs, s.agvs, s.assignments, b);
      CommitsAfter(s.agvs, s.assignments, s.agvs[v := a], s.assignments[v := x], v, b);
    }
  }

  lemma AssignRowOk(c: Scenario, s: State, v: AgvId, j: JobId, b: BufferId)
    requires WellFormed(c) && Inv(c, s) && Assignable(c, s, v, j, b)
    ensures var goal := if s.agvs[v].job.Some? then b else s.jobs[j].loc.place.owner;
            var a := s.agvs[v].(target := Some(goal), arrivedAt := s.tick);
            && VehicleOk(c, s.jobs, a) && AssignmentOk(c, s.jobs, a, Assignment(j, b))
            && (IsSource(c, goal) ==> |Commits(s.agvs, s.assignments, goal)| < |Supply(c, s.jobs, goal)|)
            && (goal == b || IsSource(c, goal)) && !IsSource(c, b)
  {
    assert VehicleOk(c, s.jobs, s.agvs[v]);
    if s.agvs[v].job.None? {
      AssignedFrom(c, s, s.jobs[j].loc.place.owner, j);
    }
  }

  lemma AssignParts(c: Scenario, s: State, v: AgvId, a: AgvRow, x: Assignment)
    requires WellFormed(c) && c.central && Unbound(s, v) && VehiclesOk(c, s.jobs, s.agvs) && LocksFit(c, s.storage, s.agvs)
    requires ControlOk(c, s.jobs, s.agvs, s.assignments) && StationsFit(c, s.jobs, s.agvs, s.assignments)
    requires SuppliesCover(c, s.jobs, s.agvs, s.assignments)
    requires a == s.agvs[v].(target := a.target, arrivedAt := s.tick) && a.target.Some?
    requires VehicleOk(c, s.jobs, a) && AssignmentOk(c, s.jobs, a, x)
    requires Vacancy(c, s, x.destination) && !IsSource(c, x.destination)
    requires a.target.value == x.destination || IsSource(c, a.target.value)
    requires IsSource(c, a.target.value) ==>
               |Commits(s.agvs, s.assignments, a.target.value)| < |Supply(c, s.jobs, a.target.value)|
    requires forall w :: w in s.assignments ==> s.assignments[w].job != x.job
    ensures VehiclesOk(c, s.jobs, s.agvs[v := a]) && LocksFit(c, s.storage, s.agvs[v := a])
    ensures ControlOk(c, s.jobs, s.agvs[v := a], s.assignments[v := x])
    ensures StationsFit(c, s.jobs, s.agvs[v := a], s.assignments[v := x])
    ensures SuppliesCover(c, s.jobs, s.agvs[v := a], s.assignments[v := x])
  {
    VehicleSet(c, s.jobs, s.agvs, v, a);
    AssignedControl(c, s.jobs, s.agvs, s.assignments, v, a, x);
    AssignedStations(c, s, v, a, x);
    AssignedSupplies(c, s, v, a, x);
    LocksVehicleSet(c, s.storage, s.agvs, v, a);
  }

  lemma AssignKeeps(c: Scenario, s: State, v: AgvId, j: JobId, b: BufferId)
    requires WellFormed(c) && Inv(c, s) && Assignable(c, s, v, j, b)
    ensures Inv(c, Assign(c, s, v, j, b))
  {
    hide JobsOk, MachinesOk, VehiclesOk, StationsFit, SuppliesCover, LocksFit, ControlOk, LedgerOk, Custodial;
    AssignRowOk(c, s, v, j, b);
    var a := Assign(c, s, v, j, b).agvs[v];
    AssignParts(c, s, v, a, Assignment(j, b));
    EditHeld(s, v, a);
  }
}
