/** Every atomic operation keeps the safety invariant. */
module Preservation {
  import opened Collections
  import opened Factory
  import opened Custody
  import opened Safety
  import opened Components
  import opened Operations

  // -- the boundary phase ----------------------------------------------------------------------

  lemma MachineRowHeld(s: State, m: MachineId, row: MachineRow)
    requires Held(s) && m in s.machines && row.job == s.machines[m].job
    ensures Custodial(s.jobs, s.queue, s.storage, s.machines[m := row], s.agvs)
  {
    FrameHeld(s.jobs, s.queue, s.storage, s.machines, s.agvs, s.jobs, s.machines[m := row], s.agvs);
  }

  /** A machine row that keeps its job may change as long as it stays sound. */
  lemma MachineRowKeeps(c: Scenario, s: State, t: State, m: MachineId, row: MachineRow)
    requires WellFormed(c) && Inv(c, s) && m in s.machines
    requires t == s.(machines := s.machines[m := row], log := t.log)
    requires row.job == s.machines[m].job && MachineOk(c, s.jobs, m, row)
    ensures Inv(c, t)
  {
    MachineSet(c, s.jobs, s.machines, m, row);
    MachineRowHeld(s, m, row);
  }

  lemma SetDownKeeps(c: Scenario, s: State, m: MachineId, down: bool)
    requires WellFormed(c) && Inv(c, s) && m in s.machines
    ensures Inv(c, SetDown(s, m, down))
  {
    if s.machines[m].down != down {
      assert MachineOk(c, s.jobs, m, s.machines[m]);
      MachineRowKeeps(c, s, SetDown(s, m, down), m, s.machines[m].(down := down));
    }
  }

  /** A job nobody has heard of does not disturb the rows of machines, vehicles and assignments. */
  lemma NewJobRows(c: Scenario, jobs: map<JobId, JobRow>, machines: map<MachineId, MachineRow>,
                   agvs: map<AgvId, AgvRow>, tasks: map<AgvId, Assignment>, j: JobId, row: JobRow)
    requires MachinesOk(c, jobs, machines) && VehiclesOk(c, jobs, agvs) && ControlOk(c, jobs, agvs, tasks)
    requires j !in jobs
    ensures var after := jobs[j := row];
            MachinesOk(c, after, machines) && VehiclesOk(c, after, agvs) && ControlOk(c, after, agvs, tasks)
  {
    var after := jobs[j := row];
    forall x | x in machines ensures MachineOk(c, after, x, machines[x]) {
      assert MachineOk(c, jobs, x, machines[x]);
    }
    forall v | v in agvs ensures VehicleOk(c, after, agvs[v]) {
      assert VehicleOk(c, jobs, agvs[v]);
    }
    forall v | v in tasks ensures AssignmentOk(c, after, agvs[v], tasks[v]) {
      assert AssignmentOk(c, jobs, agvs[v], tasks[v]);
    }
  }

  lemma NewJobLimits(c: Scenario, jobs: map<JobId, JobRow>, agvs: map<AgvId, AgvRow>,
                     tasks: map<AgvId, Assignment>, j: JobId, row: JobRow)
    requires WellFormed(c) && StationsFit(c, jobs, agvs, tasks) && SuppliesCover(c, jobs, agvs, tasks)
    requires j !in jobs && row.loc == Queued
    ensures StationsFit(c, jobs[j := row], agvs, tasks) && SuppliesCover(c, jobs[j := row], agvs, tasks)
  {
    var after := jobs[j := row];
    forall m | m in c.machines ensures StationFits(c, after, agvs, tasks, m) {
      assert StationFits(c, jobs, agvs, tasks, m);
      assert GoodMachine(c, m);
      assert Load(c, after, m) == Load(c, jobs, m);
    }
    forall b | IsSource(c, b) ensures SourceCovered(c, after, agvs, tasks, b) {
      assert SourceCovered(c, jobs, agvs, tasks, b);
      assert Supply(c, after, b) == Supply(c, jobs, b);
    }
  }

  lemma ReleaseLedger(c: Scenario, jobs: map<JobId, JobRow>, l: Ledger, d: DemandId, row: JobRow)
    requires LedgerOk(c, jobs, l) && d in c.demands && d !in l.released && row.loc == Queued && Job(d, 1) !in jobs
    ensures LedgerOk(c, jobs[Job(d, 1) := row], l.(released := l.released + {d}, attempts := l.attempts[d := 1]))
  {
    var after, l' := jobs[Job(d, 1) := row], l.(released := l.released + {d}, attempts := l.attempts[d := 1]);
    forall e | e in l'.released ensures Attempted(after, l', e) {
      if e != d { assert Attempted(jobs, l, e); }
    }
    forall i | i in after ensures LedgerRow(c, after[i], i, l') {
      if i != Job(d, 1) { assert LedgerRow(c, jobs[i], i, l); }
    }
  }

  lemma ReleaseKeeps(c: Scenario, s: State, d: DemandId)
    requires WellFormed(c) && Inv(c, s) && d in c.demands
    ensures Inv(c, ReleaseDemand(c, s, d))
  {
    if c.demands[d].releaseAt <= s.tick && d !in s.ledger.released {
      var t := ReleaseDemand(c, s, d);
      var j := Job(d, 1);
      assert j !in s.jobs by { assert j in s.jobs ==> LedgerRow(c, s.jobs[j], j, s.ledger); }
      JobSet(c, s.jobs, j, t.jobs[j]);
      NewJobRows(c, s.jobs, s.machines, s.agvs, s.assignments, j, t.jobs[j]);
      NewJobLimits(c, s.jobs, s.agvs, s.assignments, j, t.jobs[j]);
      NewJobHeld(s.jobs, s.queue, s.storage, s.machines, s.agvs, j, t.jobs[j]);
      ReleaseLedger(c, s.jobs, s.ledger, d, t.jobs[j]);
    }
  }

  lemma NeutralAdmission(c: Scenario, p: Place)
    requires WellFormed(c) && p.owner in c.buffers && c.buffers[p.owner].role.Input?
    ensures Neutral(c, Queued, Stored(p))
  {
    forall m | m in c.machines && m in c.pre && m in c.post
      ensures !AtStation(c, Stored(p), m)
    {
      assert GoodMachine(c, m);
    }
  }

  lemma AdmitKeeps(c: Scenario, s: State, j: JobId, p: Place, q: seq<JobId>)
    requires WellFormed(c) && Inv(c, s) && j in s.jobs && s.jobs[j].loc.Queued?
    requires p.owner in c.buffers && c.buffers[p.owner].role.Input?
    requires KnownPlace(c, p) && p in s.storage && HasRoom(c, s.storage, p)
    requires NoDup(q) && j !in q && forall i :: i in s.queue <==> i in q || i == j
    ensures Inv(c, AdmitJob(s, j, p, q))
  {
    var t := AdmitJob(s, j, p, q);
    assert RowFits(c, j, s.jobs[j]);
    Unassigned(c, s, j);
    NeutralAdmission(c, p);
    JobMoved(c, s, j, t.jobs[j]);
    NoLocks(c, s.jobs, s.agvs, p);
    LocksAppend(c, s.storage, s.agvs, p, j);
    AdmittedHeld(s.jobs, s.queue, s.storage, s.machines, s.agvs, j, t.jobs[j], p, q);
  }

  lemma NeutralRelease(c: Scenario, m: MachineId, p: Place)
    requires WellFormed(c) && m in c.machines && p.owner in c.buffers && c.buffers[p.owner].role == Post(m)
    ensures Neutral(c, AtMachine(m), Stored(p))
  {
    assert GoodMachine(c, m) && GoodBuffer(c, p.owner);
    forall x | x in c.machines && x in c.pre && x in c.post && AtStation(c, Stored(p), x)
      ensures AtStation(c, AtMachine(m), x)
    {
      assert GoodMachine(c, x);
    }
    forall b | IsSource(c, b) && Supplies(c, AtMachine(m), b) ensures Supplies(c, Stored(p), b) {
      assert GoodBuffer(c, b);
    }
  }

  /** The job a machine works on is recorded there. */
  lemma MachineHolds(c: Scenario, s: State, m: MachineId)
    requires WellFormed(c) && Inv(c, s) && m in s.machines && s.machines[m].job.Some?
    ensures s.machines[m].job.value in s.jobs && s.jobs[s.machines[m].job.value].loc == AtMachine(m)
    ensures MachineOk(c, s.jobs, m, s.machines[m]) && RowFits(c, s.machines[m].job.value, s.jobs[s.machines[m].job.value])
  {
    assert MachineNames(s.jobs, s.machines, m);
    assert MachineOk(c, s.jobs, m, s.machines[m]);
    assert RowFits(c, s.machines[m].job.value, s.jobs[s.machines[m].job.value]);
  }

  lemma ReleaseJobKeeps(c: Scenario, s: State, m: MachineId, p: Place)
    requires WellFormed(c) && Inv(c, s) && m in c.machines && s.machines[m].status.Blocked?
    requires MachineOk(c, s.jobs, m, s.machines[m])
    requires p.owner in c.buffers && c.buffers[p.owner].role == Post(m) && KnownPlace(c, p) && p in s.storage && HasRoom(c, s.storage, p)
    requires !Capable(c, s.machines[m].job.value, s.jobs[s.machines[m].job.value].step, m)
    ensures Inv(c, ReleaseJob(s, m, s.machines[m].job.value, p))
  {
    hide JobsOk, MachinesOk, VehiclesOk, StationsFit, SuppliesCover, LocksFit, ControlOk, LedgerOk, Custodial;
    var j := s.machines[m].job.value;
    var t := ReleaseJob(s, m, j, p);
    MachineHolds(c, s, m);
    Unassigned(c, s, j);
    NeutralRelease(c, m, p);
    JobMoved(c, s, j, t.jobs[j]);
    MachineSet(c, t.jobs, s.machines, m, t.machines[m]);
    NoLocks(c, s.jobs, s.agvs, p);
    LocksAppend(c, s.storage, s.agvs, p, j);
    ReleasedHeld(s.jobs, s.queue, s.storage, s.machines, s.agvs, j, t.jobs[j], m, t.machines[m], p);
  }

  lemma UnblockKeeps(c: Scenario, s: State, m: MachineId)
    requires WellFormed(c) && Inv(c, s) && m in c.machines
    ensures Inv(c, Unblock(c, s, m))
  {
    if s.machines[m].status.Blocked? {
      assert MachineOk(c, s.jobs, m, s.machines[m]) && GoodMachine(c, m);
      var j := s.machines[m].job.value;
      if Capable(c, j, s.jobs[j].step, m) {
        MachineRowKeeps(c, s, Unblock(c, s, m), m, s.machines[m].(status := Ready));
      } else if Free(c, s, c.post[m]).Some? {
        ReleaseJobKeeps(c, s, m, Place(c.post[m], Free(c, s, c.post[m]).value));
      }
    }
  }
}
