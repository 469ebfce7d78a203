/** Processing, services, reservations and assignments keep the safety invariant. */
module Handling {
  import opened Collections
  import opened Factory
  import opened Custody
  import opened Safety
  import opened Components
  import opened Operations
  import opened Preservation

  // -- processing ------------------------------------------------------------------------------

  /** A start takes an untouched job. */
  lemma StartableJob(c: Scenario, s: State, m: MachineId, j: JobId, mode: ModeId)
    requires WellFormed(c) && Inv(c, s) && Startable(c, s, m, j, mode)
    ensures RowFits(c, j, s.jobs[j]) && MachineOk(c, s.jobs, m, s.machines[m]) && GoodMachine(c, m)
    ensures s.machines[m].job.Some? ==> s.jobs[j].loc == AtMachine(m)
    ensures forall v :: v in s.agvs ==> !Loading(s.agvs[v], j)
  {
    assert RowFits(c, j, s.jobs[j]) && MachineOk(c, s.jobs, m, s.machines[m]) && GoodMachine(c, m);
    assert MachineNames(s.jobs, s.machines, m);
    forall v | v in s.agvs ensures !Loading(s.agvs[v], j) {
      assert VehicleOk(c, s.jobs, s.agvs[v]);
    }
  }

  lemma NeutralStart(c: Scenario, m: MachineId, from: Location)
    requires WellFormed(c) && m in c.machines && m in c.pre && c.pre[m] in c.buffers
    requires from == AtMachine(m) || (from.Stored? && from.place.owner == c.pre[m])
    ensures Neutral(c, from, AtMachine(m))
  {
    assert GoodMachine(c, m);
  }

  lemma ResumedHeld(s: State, m: MachineId, j: JobId, row: JobRow, mr: MachineRow)
    requires Held(s) && j in s.jobs && s.jobs[j].loc == row.loc
    requires m in s.machines && s.machines[m].job == mr.job
    ensures Custodial(s.jobs[j := row], s.queue, s.storage, s.machines[m := mr], s.agvs)
  {
    FrameHeld(s.jobs, s.queue, s.storage, s.machines, s.agvs, s.jobs[j := row], s.machines[m := mr], s.agvs);
  }

  lemma StartKeeps(c: Scenario, s: State, m: MachineId, j: JobId, mode: ModeId)
    requires WellFormed(c) && Inv(c, s) && Startable(c, s, m, j, mode)
    requires forall v :: v in s.assignments ==> s.assignments[v].job != j
    ensures Inv(c, Start(c, s, m, j, mode))
  {
    hide JobsOk, MachinesOk, VehiclesOk, StationsFit, SuppliesCover, LocksFit, ControlOk, LedgerOk, Custodial;
    var t := Start(c, s, m, j, mode);
    StartableJob(c, s, m, j, mode);
    NeutralStart(c, m, s.jobs[j].loc);
    JobMoved(c, s, j, t.jobs[j]);
    MachineSet(c, t.jobs, s.machines, m, t.machines[m]);
    if s.machines[m].job.None? {
      var p := s.jobs[j].loc.place;
      HolderOf(s.jobs, s.queue, s.storage, s.machines, s.agvs, j);
      LocksTake(c, s.storage, s.agvs, p, j);
      TakenHeld(s.jobs, s.queue, s.storage, s.machines, s.agvs, j, t.jobs[j], m, t.machines[m], p);
    } else {
      ResumedHeld(s, m, j, t.jobs[j], t.machines[m]);
    }
  }

  lemma FinishMachines(c: Scenario, s: State, m: MachineId, j: JobId, jobs: map<JobId, JobRow>, row: MachineRow)
    requires MachinesOk(c, s.jobs, s.machines) && Held(s) && m in s.machines && s.machines[m].job == Some(j)
    requires j in s.jobs && jobs.Keys == s.jobs.Keys && forall i :: i in jobs && i != j ==> jobs[i] == s.jobs[i]
    requires row.status.Blocked? && row.job == Some(j)
    ensures MachinesOk(c, jobs, s.machines[m := row])
  {
    var after := s.machines[m := row];
    assert MachineNames(s.jobs, s.machines, m);
    forall x | x in after ensures MachineOk(c, jobs, x, after[x]) {
      if x != m {
        assert MachineOk(c, s.jobs, x, s.machines[x]);
        assert MachineNames(s.jobs, s.machines, x);
      }
    }
  }

  lemma FinishKeeps(c: Scenario, s: State, m: MachineId, k: int)
    requires WellFormed(c) && Inv(c, s) && m in c.machines && s.machines[m].status.Processing?
    ensures Inv(c, Finish(c, s, m, k))
  {
    assert MachineOk(c, s.jobs, m, s.machines[m]);
    MachineHolds(c, s, m);
    var j := s.machines[m].job.value;
    var t := Finish(c, s, m, k);
    var row := t.jobs[j];
    Unassigned(c, s, j);
    JobSet(c, s.jobs, j, row);
    VehiclesJobMoved(c, s.jobs, s.agvs, j, row);
    ControlJobMoved(c, s.jobs, s.agvs, s.assignments, j, row);
    StationsJobMoved(c, s.jobs, s.agvs, s.assignments, j, row);
    SuppliesJobMoved(c, s.jobs, s.agvs, s.assignments, j, row);
    LedgerJobMoved(c, s.jobs, s.ledger, j, row);
    FinishMachines(c, s, m, j, t.jobs, t.machines[m]);
    ResumedHeld(s, m, j, row, t.machines[m]);
  }

  lemma WorkKeeps(c: Scenario, s: State, m: MachineId, k: int)
    requires WellFormed(c) && Inv(c, s) && m in c.machines
    requires s.machines[m].status.Processing? && !s.machines[m].down ==> 1 <= k <= s.machines[m].remaining
    ensures Inv(c, Work(c, s, m, k))
  {
    var row := s.machines[m];
    if row.status.Processing? && !row.down {
      assert MachineOk(c, s.jobs, m, row);
      if row.remaining != k {
        MachineRowKeeps(c, s, Work(c, s, m, k), m, row.(remaining := row.remaining - k, elapsed := row.elapsed + k));
      } else {
        FinishKeeps(c, s, m, k);
      }
    }
  }
}
