/** How each component of the safety invariant reacts to one changed row. */
module Components {
  import opened Collections
  import opened Factory
  import opened Custody
  import opened Safety

  // -- one job row changes ---------------------------------------------------------------------

  /** No vehicle is loading the job and no assignment names it. */
  ghost predicate Untouched(agvs: map<AgvId, AgvRow>, tasks: map<AgvId, Assignment>, j: JobId) {
    && (forall v :: v in agvs ==> !Loading(agvs[v], j))
    && (forall v :: v in tasks ==> tasks[v].job != j)
  }

  /** The move brings the job into no station it was not in and takes it from no source. */
  ghost predicate Neutral(c: Scenario, from: Location, to: Location)
    requires WellFormed(c)
  {
    && (forall m :: m in c.machines && m in c.pre && m in c.post && AtStation(c, to, m) ==> AtStation(c, from, m))
    && (forall b :: IsSource(c, b) && Supplies(c, from, b) ==> Supplies(c, to, b))
    && InOutput(c, from) == InOutput(c, to)
  }

  lemma JobSet(c: Scenario, jobs: map<JobId, JobRow>, j: JobId, row: JobRow)
    requires JobsOk(c, jobs) && RowFits(c, j, row)
    ensures JobsOk(c, jobs[j := row])
  {
    var after := jobs[j := row];
    forall i | i in after ensures RowFits(c, i, after[i]) {
      if i != j { assert RowFits(c, i, jobs[i]); }
    }
  }

  lemma MachinesJobMoved(c: Scenario, jobs: map<JobId, JobRow>, machines: map<MachineId, MachineRow>, j: JobId, row: JobRow)
    requires MachinesOk(c, jobs, machines) && j in jobs && row.step == jobs[j].step
    ensures MachinesOk(c, jobs[j := row], machines)
  {
    forall m | m in machines ensures MachineOk(c, jobs[j := row], m, machines[m]) {
      assert MachineOk(c, jobs, m, machines[m]);
    }
  }

  lemma VehiclesJobMoved(c: Scenario, jobs: map<JobId, JobRow>, agvs: map<AgvId, AgvRow>, j: JobId, row: JobRow)
    requires VehiclesOk(c, jobs, agvs) && j in jobs
    requires forall v :: v in agvs ==> !Loading(agvs[v], j)
    requires row.step == jobs[j].step || forall v :: v in agvs ==> agvs[v].job != Some(j)
    ensures VehiclesOk(c, jobs[j := row], agvs)
  {
    forall v | v in agvs ensures VehicleOk(c, jobs[j := row], agvs[v]) {
      assert VehicleOk(c, jobs, agvs[v]);
    }
    forall v, w | v in agvs && w in agvs && v != w ensures Compatible(agvs[v], agvs[w]) {}
  }

  lemma ControlJobMoved(c: Scenario, jobs: map<JobId, JobRow>, agvs: map<AgvId, AgvRow>,
                        tasks: map<AgvId, Assignment>, j: JobId, row: JobRow)
    requires ControlOk(c, jobs, agvs, tasks) && j in jobs
    requires forall v :: v in tasks ==> tasks[v].job != j
    ensures ControlOk(c, jobs[j := row], agvs, tasks)
  {
    forall v | v in tasks ensures AssignmentOk(c, jobs[j := row], agvs[v], tasks[v]) {
      assert AssignmentOk(c, jobs, agvs[v], tasks[v]);
    }
  }

  lemma StationsJobMoved(c: Scenario, jobs: map<JobId, JobRow>, agvs: map<AgvId, AgvRow>,
                         tasks: map<AgvId, Assignment>, j: JobId, row: JobRow)
    requires WellFormed(c) && StationsFit(c, jobs, agvs, tasks) && j in jobs && Neutral(c, jobs[j].loc, row.loc)
    ensures StationsFit(c, jobs[j := row], agvs, tasks)
  {
    forall m | m in c.machines ensures StationFits(c, jobs[j := row], agvs, tasks, m) {
      assert StationFits(c, jobs, agvs, tasks, m);
      assert GoodMachine(c, m);
      LoadAfter(c, jobs, j, row, m);
    }
  }

  lemma SuppliesJobMoved(c: Scenario, jobs: map<JobId, JobRow>, agvs: map<AgvId, AgvRow>,
                         tasks: map<AgvId, Assignment>, j: JobId, row: JobRow)
    requires WellFormed(c) && SuppliesCover(c, jobs, agvs, tasks) && j in jobs && Neutral(c, jobs[j].loc, row.loc)
    ensures SuppliesCover(c, jobs[j := row], agvs, tasks)
  {
    forall b | IsSource(c, b) ensures SourceCovered(c, jobs[j := row], agvs, tasks, b) {
      assert SourceCovered(c, jobs, agvs, tasks, b);
      SupplyAfter(c, jobs, j, row, b);
    }
  }

  lemma LedgerJobMoved(c: Scenario, jobs: map<JobId, JobRow>, l: Ledger, j: JobId, row: JobRow)
    requires LedgerOk(c, jobs, l) && j in jobs && InOutput(c, row.loc) == InOutput(c, jobs[j].loc)
    ensures LedgerOk(c, jobs[j := row], l)
  {
    var after := jobs[j := row];
    forall d | d in l.released ensures Attempted(after, l, d) {
      assert Attempted(jobs, l, d);
    }
    forall i | i in after ensures LedgerRow(c, after[i], i, l) {
      assert LedgerRow(c, jobs[i], i, l);
    }
  }

  /** A neutral move of an untouched job keeps everything but custody and slot capacity. */
  lemma JobMoved(c: Scenario, s: State, j: JobId, row: JobRow)
    requires WellFormed(c) && Inv(c, s) && j in s.jobs && row.step == s.jobs[j].step && RowFits(c, j, row)
    requires Untouched(s.agvs, s.assignments, j) && Neutral(c, s.jobs[j].loc, row.loc)
    ensures var jobs := s.jobs[j := row];
            && JobsOk(c, jobs) && MachinesOk(c, jobs, s.machines) && VehiclesOk(c, jobs, s.agvs)
            && StationsFit(c, jobs, s.agvs, s.assignments) && SuppliesCover(c, jobs, s.agvs, s.assignments)
            && ControlOk(c, jobs, s.agvs, s.assignments)
            && LedgerOk(c, jobs, s.ledger)
  {
    JobSet(c, s.jobs, j, row);
    MachinesJobMoved(c, s.jobs, s.machines, j, row);
    VehiclesJobMoved(c, s.jobs, s.agvs, j, row);
    ControlJobMoved(c, s.jobs, s.agvs, s.assignments, j, row);
    StationsJobMoved(c, s.jobs, s.agvs, s.assignments, j, row);
    SuppliesJobMoved(c, s.jobs, s.agvs, s.assignments, j, row);
    LedgerJobMoved(c, s.jobs, s.ledger, j, row);
  }

  // -- one machine row changes -----------------------------------------------------------------

  lemma MachineSet(c: Scenario, jobs: map<JobId, JobRow>, machines: map<MachineId, MachineRow>, m: MachineId, row: MachineRow)
    requires MachinesOk(c, jobs, machines) && MachineOk(c, jobs, m, row)
    ensures MachinesOk(c, jobs, machines[m := row])
  {
    var after := machines[m := row];
    forall x | x in after ensures MachineOk(c, jobs, x, after[x]) {
      if x != m { assert MachineOk(c, jobs, x, machines[x]); }
    }
  }

  // -- one vehicle row changes -----------------------------------------------------------------

  lemma VehicleSet(c: Scenario, jobs: map<JobId, JobRow>, agvs: map<AgvId, AgvRow>, v: AgvId, a: AgvRow)
    requires VehiclesOk(c, jobs, agvs) && v in agvs && VehicleOk(c, jobs, a) && a.cell == agvs[v].cell
    requires a.service.Some? && a.service.value.kind.Pickup? ==>
               forall w :: w in agvs && w != v ==> !Loading(agvs[w], a.service.value.job)
    ensures VehiclesOk(c, jobs, agvs[v := a])
  {
    var after := agvs[v := a];
    forall u | u in after ensures VehicleOk(c, jobs, after[u]) {
      if u != v { assert VehicleOk(c, jobs, agvs[u]); }
    }
    forall u, w | u in after && w in after && u != w ensures Compatible(after[u], after[w]) {
      assert Compatible(agvs[u], agvs[w]);
      if w == v { assert Compatible(agvs[w], agvs[u]); }
    }
  }

  /** Fewer commitments: the vehicle counts nowhere it did not count before. */
  ghost predicate NoNewCommitment(agvs: map<AgvId, AgvRow>, tasks: map<AgvId, Assignment>,
                                  agvs': map<AgvId, AgvRow>, tasks': map<AgvId, Assignment>, v: AgvId)
    requires v in agvs && v in agvs'
  {
    forall b :: CommitsTo(agvs', tasks', v, b) ==> CommitsTo(agvs, tasks, v, b)
  }

  ghost predicate OnlyVehicle(agvs: map<AgvId, AgvRow>, tasks: map<AgvId, Assignment>,
                              agvs': map<AgvId, AgvRow>, tasks': map<AgvId, Assignment>, v: AgvId)
  {
    && v in agvs && agvs'.Keys == agvs.Keys
    && (forall w :: w in agvs && w != v ==> agvs'[w] == agvs[w] && (w in tasks <==> w in tasks'))
    && (forall w :: w in agvs && w != v && w in tasks ==> tasks'[w] == tasks[w])
  }

  lemma StationsVehicleSet(c: Scenario, jobs: map<JobId, JobRow>, agvs: map<AgvId, AgvRow>, tasks: map<AgvId, Assignment>,
                           agvs': map<AgvId, AgvRow>, tasks': map<AgvId, Assignment>, v: AgvId)
    requires WellFormed(c) && StationsFit(c, jobs, agvs, tasks)
    requires OnlyVehicle(agvs, tasks, agvs', tasks', v) && NoNewCommitment(agvs, tasks, agvs', tasks', v)
    ensures StationsFit(c, jobs, agvs', tasks')
  {
    forall m | m in c.machines ensures StationFits(c, jobs, agvs', tasks', m) {
      assert StationFits(c, jobs, agvs, tasks, m);
      assert GoodMachine(c, m);
      CommitsAfter(agvs, tasks, agvs', tasks', v, c.pre[m]);
    }
  }

  lemma SuppliesVehicleSet(c: Scenario, jobs: map<JobId, JobRow>, agvs: map<AgvId, AgvRow>, tasks: map<AgvId, Assignment>,
                           agvs': map<AgvId, AgvRow>, tasks': map<AgvId, Assignment>, v: AgvId)
    requires SuppliesCover(c, jobs, agvs, tasks)
    requires OnlyVehicle(agvs, tasks, agvs', tasks', v) && NoNewCommitment(agvs, tasks, agvs', tasks', v)
    ensures SuppliesCover(c, jobs, agvs', tasks')
  {
    forall b | IsSource(c, b) ensures SourceCovered(c, jobs, agvs', tasks', b) {
      assert SourceCovered(c, jobs, agvs, tasks, b);
      CommitsAfter(agvs, tasks, agvs', tasks', v, b);
    }
  }

  // -- slot capacity ---------------------------------------------------------------------------

  lemma LocksVehicleSet(c: Scenario, storage: map<Place, seq<JobId>>, agvs: map<AgvId, AgvRow>, v: AgvId, a: AgvRow)
    requires LocksFit(c, storage, agvs) && v in agvs
    requires forall p :: Locks(a, p) ==> Locks(agvs[v], p)
    ensures LocksFit(c, storage, agvs[v := a])
  {
    forall p | p in storage ensures PlaceFits(c, storage, agvs[v := a], p) {
      assert PlaceFits(c, storage, agvs, p);
      LockedAfter(agvs, v, a, p);
    }
  }

  lemma LocksAppend(c: Scenario, storage: map<Place, seq<JobId>>, agvs: map<AgvId, AgvRow>, p: Place, j: JobId)
    requires LocksFit(c, storage, agvs) && p in storage && KnownPlace(c, p) && Locked(agvs, p) == {}
    requires c.buffers[p.owner].capacity[p.slot].Some? ==> |storage[p]| < c.buffers[p.owner].capacity[p.slot].value
    ensures LocksFit(c, storage[p := storage[p] + [j]], agvs)
  {
    var after := storage[p := storage[p] + [j]];
    forall x | x in after ensures PlaceFits(c, after, agvs, x) {
      assert PlaceFits(c, storage, agvs, x);
    }
  }

  lemma LocksTake(c: Scenario, storage: map<Place, seq<JobId>>, agvs: map<AgvId, AgvRow>, p: Place, j: JobId)
    requires LocksFit(c, storage, agvs) && p in storage && NoDup(storage[p])
    ensures LocksFit(c, storage[p := Without(storage[p], j)], agvs)
  {
    var after := storage[p := Without(storage[p], j)];
    WithoutMeaning(storage[p], j);
    forall x | x in after ensures PlaceFits(c, after, agvs, x) {
      assert PlaceFits(c, storage, agvs, x);
    }
  }

  /** Only PRE and Output places can be locked by an unloading vehicle. */
  lemma NoLocks(c: Scenario, jobs: map<JobId, JobRow>, agvs: map<AgvId, AgvRow>, p: Place)
    requires VehiclesOk(c, jobs, agvs) && IsSource(c, p.owner)
    ensures Locked(agvs, p) == {}
  {
    forall v | v in agvs ensures !Locks(agvs[v], p) {
      assert VehicleOk(c, jobs, agvs[v]);
    }
  }

  // -- consequences of the whole invariant -----------------------------------------------------

  /** A job that is queued or in a machine has no assignment and no service and is on no vehicle. */
  lemma Unassigned(c: Scenario, s: State, j: JobId)
    requires WellFormed(c) && Inv(c, s) && j in s.jobs && (s.jobs[j].loc.Queued? || s.jobs[j].loc.AtMachine?)
    ensures Untouched(s.agvs, s.assignments, j)
    ensures forall v :: v in s.agvs ==> s.agvs[v].job != Some(j)
  {
    forall v | v in s.agvs ensures !Loading(s.agvs[v], j) && s.agvs[v].job != Some(j) {
      assert VehicleOk(c, s.jobs, s.agvs[v]);
      assert AgvNames(s.jobs, s.agvs, v);
    }
    forall v | v in s.assignments ensures s.assignments[v].job != j {
      assert AssignmentOk(c, s.jobs, s.agvs[v], s.assignments[v]);
      assert AgvNames(s.jobs, s.agvs, v);
    }
  }
}
